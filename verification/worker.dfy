/** The worker of query.go (`runRawSumBatchQuery`): fuse a batch into one
    compound request, send it to the query engine, and zip the ordered sums
    of the reply back onto the batch's records.  The worker pool is
    modelled as the sequential fold of this step over the batches. */
module Worker {
  import opened Basics
  import opened QuerySets

  /** The engine's answer to a request: the sums of its sub-queries in
      request order, or an error. */
  datatype Reply = Sums(sums: seq<int>) | Failed(err: string)

  /** The query-execution collaborator, seen as a function of the request
      text. */
  type Engine = string -> Reply

  /** The compound request: the batch's rendered texts concatenated in
      batch order, as query.go's `raw += q.raw` loop builds it. */
  function CompoundRequest(batch: seq<QueryResult>): string
    decreases |batch|
  {
    if |batch| == 0 then "" else CompoundRequest(batch[..|batch| - 1]) + batch[|batch| - 1].raw
  }

  /** The compound request of two consecutive runs of records is the
      concatenation of their compound requests. */
  lemma {:induction false} CompoundRequestAppend(b1: seq<QueryResult>, b2: seq<QueryResult>)
    ensures CompoundRequest(b1 + b2) == CompoundRequest(b1) + CompoundRequest(b2)
    decreases |b2|
  {
    if |b2| > 0 {
      var init := b2[..|b2| - 1];
      assert (b1 + b2)[..|b1 + b2| - 1] == b1 + init;
      assert (b1 + b2)[|b1 + b2| - 1] == b2[|b2| - 1];
      CompoundRequestAppend(b1, init);
    } else {
      assert b1 + b2 == b1;
    }
  }

  /** Each record's text sits in the compound request right after the texts
      of the records before it, and is followed by those after it. */
  lemma CompoundRequestSplit(pre: seq<QueryResult>, r: QueryResult, post: seq<QueryResult>)
    ensures CompoundRequest(pre + [r] + post)
      == CompoundRequest(pre) + r.raw + CompoundRequest(post)
  {
    CompoundRequestAppend(pre + [r], post);
    CompoundRequestAppend(pre, [r]);
    assert [r][..0] == [];
  }

  /** The collation loop `for n, res := range response.Results()`: result
      `n` becomes the only output of `batch[n]`, and the records are emitted
      in batch order.  A reply with more results than the batch has records
      makes query.go index past the batch, hence the requires clause; a
      reply with fewer leaves the trailing records unemitted. */
  function Collate(batch: seq<QueryResult>, sums: seq<int>): (emitted: seq<QueryResult>)
    requires |sums| <= |batch|
    ensures |emitted| == |sums|
    ensures forall n :: 0 <= n < |sums| ==>
      && emitted[n].outputs == [Int(sums[n])]
      && emitted[n].inputs == batch[n].inputs
      && emitted[n].raw == batch[n].raw
      && emitted[n].err == batch[n].err
    decreases |sums|
  {
    if |sums| == 0 then []
    else
      var last := |sums| - 1;
      Collate(batch, sums[..last]) + [batch[last].(outputs := [Int(sums[last])])]
  }

  /** What one worker emits for one batch: on an error, a single error
      record carrying the compound request and the error (what query.go
      does after sending it is not modelled); otherwise the collated
      records. */
  function WorkerEmit(batch: seq<QueryResult>, reply: Reply): seq<QueryResult>
    requires reply.Sums? ==> |reply.sums| <= |batch|
  {
    match reply
    case Failed(e) => [QueryResult(CompoundRequest(batch), [], [], Some(e))]
    case Sums(sums) => Collate(batch, sums)
  }

  /** The engine never answers a batch with more sums than it has records. */
  predicate Answers(engine: Engine, batches: seq<seq<QueryResult>>) {
    forall i :: 0 <= i < |batches| ==>
      engine(CompoundRequest(batches[i])).Sums? ==> |engine(CompoundRequest(batches[i])).sums| <= |batches[i]|
  }

  /** The engine answers every batch with exactly one sum per record. */
  predicate AnswersExactly(engine: Engine, batches: seq<seq<QueryResult>>) {
    forall i :: 0 <= i < |batches| ==>
      engine(CompoundRequest(batches[i])).Sums? && |engine(CompoundRequest(batches[i])).sums| == |batches[i]|
  }

  /** The records the worker pool emits, batch after batch. */
  function Stream(batches: seq<seq<QueryResult>>, engine: Engine): seq<QueryResult>
    requires Answers(engine, batches)
    decreases |batches|
  {
    if |batches| == 0 then []
    else
      var last := |batches| - 1;
      Stream(batches[..last], engine) + WorkerEmit(batches[last], engine(CompoundRequest(batches[last])))
  }

  /** The sums of all replies, in batch order. */
  function AllSums(batches: seq<seq<QueryResult>>, engine: Engine): seq<int>
    requires AnswersExactly(engine, batches)
    decreases |batches|
  {
    if |batches| == 0 then []
    else
      var last := |batches| - 1;
      AllSums(batches[..last], engine) + engine(CompoundRequest(batches[last])).sums
  }

  /** `stream` is `records` with output slot `n` filled by `sums[n]`. */
  predicate Zipped(stream: seq<QueryResult>, records: seq<QueryResult>, sums: seq<int>) {
    && |stream| == |records| == |sums|
    && forall p :: 0 <= p < |stream| ==> stream[p] == records[p].(outputs := [Int(sums[p])])
  }

  /** Unzipping a collated batch gives back the reply's sums and the
      batch's own inputs and texts. */
  lemma CollateUnzip(batch: seq<QueryResult>, sums: seq<int>)
    requires |sums| == |batch|
    ensures Zipped(Collate(batch, sums), batch, sums)
  {
  }

  lemma ZippedAppend(s1: seq<QueryResult>, r1: seq<QueryResult>, x1: seq<int>,
                     s2: seq<QueryResult>, r2: seq<QueryResult>, x2: seq<int>)
    requires Zipped(s1, r1, x1) && Zipped(s2, r2, x2)
    ensures Zipped(s1 + s2, r1 + r2, x1 + x2)
  {
  }

  /** When every batch is answered with one sum per record, the pool emits
      every record of every batch exactly once, in batch order, each with
      its own sum and with its inputs and text unchanged. */
  lemma {:induction false} StreamZipsAll(batches: seq<seq<QueryResult>>, engine: Engine)
    requires AnswersExactly(engine, batches)
    ensures Answers(engine, batches)
    ensures Zipped(Stream(batches, engine), Flatten(batches), AllSums(batches, engine))
    decreases |batches|
  {
    if |batches| > 0 {
      var last := |batches| - 1;
      var init := batches[..last];
      assert AnswersExactly(engine, init) by {
        assert forall i :: 0 <= i < last ==> init[i] == batches[i];
      }
      StreamZipsAll(init, engine);
      var reply := engine(CompoundRequest(batches[last]));
      CollateUnzip(batches[last], reply.sums);
      ZippedAppend(Stream(init, engine), Flatten(init), AllSums(init, engine),
                   Collate(batches[last], reply.sums), batches[last], reply.sums);
    }
  }

  /** Every emitted record either carries an error or has exactly one
      output slot, so the collector can always read `outputs[0]`. */
  lemma {:induction false} StreamShape(batches: seq<seq<QueryResult>>, engine: Engine)
    requires Answers(engine, batches)
    ensures forall r :: r in Stream(batches, engine) ==> r.err.Some? || |r.outputs| == 1
    decreases |batches|
  {
    if |batches| > 0 {
      var last := |batches| - 1;
      assert Answers(engine, batches[..last]) by {
        assert forall i :: 0 <= i < last ==> batches[..last][i] == batches[i];
      }
      StreamShape(batches[..last], engine);
    }
  }

  lemma AnswersInit(engine: Engine, batches: seq<seq<QueryResult>>)
    requires Answers(engine, batches) && |batches| > 0
    ensures Answers(engine, batches[..|batches| - 1])
  {
    assert forall i :: 0 <= i < |batches| - 1 ==> batches[..|batches| - 1][i] == batches[i];
  }

  /** Some record of `s` carries an error. */
  predicate HasError(s: seq<QueryResult>) {
    exists r :: r in s && r.err.Some?
  }

  lemma HasErrorAppend(a: seq<QueryResult>, b: seq<QueryResult>)
    ensures HasError(a + b) <==> HasError(a) || HasError(b)
  {
    if HasError(a + b) {
      var r :| r in a + b && r.err.Some?;
      assert r in a || r in b;
    }
    if HasError(a) {
      var r :| r in a && r.err.Some?;
      assert r in a + b;
    }
    if HasError(b) {
      var r :| r in b && r.err.Some?;
      assert r in a + b;
    }
  }

  /** The engine fails on some batch. */
  predicate SomeFailed(engine: Engine, batches: seq<seq<QueryResult>>) {
    exists i :: 0 <= i < |batches| && engine(CompoundRequest(batches[i])).Failed?
  }

  lemma SomeFailedInit(engine: Engine, batches: seq<seq<QueryResult>>)
    requires |batches| > 0
    ensures SomeFailed(engine, batches)
      <==> SomeFailed(engine, batches[..|batches| - 1])
           || engine(CompoundRequest(batches[|batches| - 1])).Failed?
  {
    var last := |batches| - 1;
    var init := batches[..last];
    if SomeFailed(engine, batches) && !engine(CompoundRequest(batches[last])).Failed? {
      var i :| 0 <= i < |batches| && engine(CompoundRequest(batches[i])).Failed?;
      assert i < last && init[i] == batches[i];
    }
    if SomeFailed(engine, init) {
      var i :| 0 <= i < |init| && engine(CompoundRequest(init[i])).Failed?;
      assert batches[i] == init[i];
    }
  }

  /** Records that start without an error stay error-free unless some
      batch's reply is an error: the pool emits an error record exactly
      when the engine fails on some batch. */
  lemma {:induction false} StreamErrors(batches: seq<seq<QueryResult>>, engine: Engine)
    requires Answers(engine, batches)
    requires forall i, j :: 0 <= i < |batches| && 0 <= j < |batches[i]| ==> batches[i][j].err.None?
    ensures HasError(Stream(batches, engine)) <==> SomeFailed(engine, batches)
    decreases |batches|
  {
    if |batches| > 0 {
      var last := |batches| - 1;
      var init: seq<seq<QueryResult>> := batches[..last];
      AnswersInit(engine, batches);
      assert forall i, j :: 0 <= i < |init| && 0 <= j < |init[i]| ==> init[i][j].err.None? by {
        assert forall i :: 0 <= i < last ==> init[i] == batches[i];
      }
      StreamErrors(init, engine);
      var reply := engine(CompoundRequest(batches[last]));
      var emitted := WorkerEmit(batches[last], reply);
      assert Stream(batches, engine) == Stream(init, engine) + emitted;
      HasErrorAppend(Stream(init, engine), emitted);
      EmitErrors(batches[last], reply);
      SomeFailedInit(engine, batches);
    }
  }

  /** One worker step emits an error record exactly when the reply is an
      error, given records that start without one. */
  lemma EmitErrors(batch: seq<QueryResult>, reply: Reply)
    requires reply.Sums? ==> |reply.sums| <= |batch|
    requires forall j :: 0 <= j < |batch| ==> batch[j].err.None?
    ensures HasError(WorkerEmit(batch, reply)) <==> reply.Failed?
  {
    if reply.Failed? {
      assert WorkerEmit(batch, reply)[0].err.Some?;
    }
  }
}
