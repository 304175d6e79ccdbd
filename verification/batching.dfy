/** The batch producer of `RunSumMultiBatch`: it walks the counter over
    `[0, iterations)`, materialises each record with `QueryResultN`, and
    hands the records on in consecutive batches of `batchSize`. */
module Batching {
  import opened Basics
  import opened Enumerator
  import opened QuerySets

  /** All records of a run in counter order: `QueryResultN(0)`, ...,
      `QueryResultN(iterations - 1)`. */
  function Records(qs: QuerySet, render: Render): (rs: seq<QueryResult>)
    requires Valid(qs)
    ensures qs.iterations == 0 ==> rs == []
    ensures qs.iterations != 0 ==> Positive(qs.lengths) && |rs| == qs.iterations
    ensures forall n :: 0 <= n < |rs| ==> rs[n] == QueryResultN(qs, n, render)
  {
    if qs.iterations == 0 then []
    else
      ValidPositive(qs);
      seq(qs.iterations, n requires 0 <= n < qs.iterations => QueryResultN(qs, n, render))
  }

  /** Reference partition of `xs` into consecutive blocks of `b` elements,
      the last one possibly shorter; with `b == 0` every element stays in a
      single block. */
  function Chunks<T>(xs: seq<T>, b: nat): seq<seq<T>>
    decreases |xs|
  {
    if |xs| == 0 then []
    else if b == 0 || |xs| <= b then [xs]
    else [xs[..b]] + Chunks(xs[b..], b)
  }

  /** The producer loop from counter `n` on, holding the pending batch
      `qBatch` and the batches `out` already sent; `records[n]` is the
      record `QueryResultN(n)` that turn `n` materialises.  query.go keeps
      a separate `batchCount`; it always equals `len(qBatch)`, so the model
      reads it off the pending batch.  A batch is sent as soon as it holds
      `batchSize` records, and a non-empty remainder is sent at the end. */
  function ProduceFrom<T>(records: seq<T>, batchSize: nat, n: nat,
                          qBatch: seq<T>, out: seq<seq<T>>): seq<seq<T>>
    requires n <= |records|
    decreases |records| - n
  {
    if n == |records| then
      (if |qBatch| > 0 then out + [qBatch] else out)
    else
      var next := qBatch + [records[n]];
      if |next| == batchSize then ProduceFrom(records, batchSize, n + 1, [], out + [next])
      else ProduceFrom(records, batchSize, n + 1, next, out)
  }

  /** The batches the producer goroutine sends, in order.  A negative
      batch size makes query.go's `make` panic, hence `nat`. */
  function Produce(qs: QuerySet, render: Render, batchSize: nat): seq<seq<QueryResult>>
    requires Valid(qs)
  {
    ProduceFrom(Records(qs, render), batchSize, 0, [], [])
  }

  /** Loop invariant of the producer: what is still to be sent is the
      reference partition of the pending batch followed by the remaining
      records. */
  lemma {:induction false} ProduceFromChunks<T>(records: seq<T>, batchSize: nat, n: nat,
                                                qBatch: seq<T>, out: seq<seq<T>>)
    requires n <= |records|
    requires batchSize >= 1 ==> |qBatch| < batchSize
    ensures ProduceFrom(records, batchSize, n, qBatch, out)
      == out + Chunks(qBatch + records[n..], batchSize)
    decreases |records| - n
  {
    if n == |records| {
      assert qBatch + records[n..] == qBatch;
    } else {
      var next := qBatch + [records[n]];
      var rest := records[n + 1..];
      assert qBatch + records[n..] == next + rest;
      if |next| == batchSize {
        ProduceFromChunks(records, batchSize, n + 1, [], out + [next]);
        assert [] + rest == rest;
        ChunksFull(next, rest, batchSize);
        assert (out + [next]) + Chunks(rest, batchSize) == out + ([next] + Chunks(rest, batchSize));
      } else {
        ProduceFromChunks(records, batchSize, n + 1, next, out);
      }
    }
  }

  /** A full pending batch is a block of its own. */
  lemma ChunksFull<T>(next: seq<T>, rest: seq<T>, b: nat)
    requires b >= 1 && |next| == b
    ensures Chunks(next + rest, b) == [next] + Chunks(rest, b)
  {
    var xs := next + rest;
    if |xs| > b {
      assert xs[..b] == next && xs[b..] == rest;
    } else {
      assert rest == [] && xs == next;
    }
  }

  /** The producer emits the reference partition of the record sequence. */
  lemma ProduceIsChunks(qs: QuerySet, render: Render, batchSize: nat)
    requires Valid(qs)
    ensures Produce(qs, render, batchSize) == Chunks(Records(qs, render), batchSize)
  {
    ProduceAll(Records(qs, render), batchSize);
  }

  lemma ProduceAll<T>(records: seq<T>, batchSize: nat)
    ensures ProduceFrom(records, batchSize, 0, [], []) == Chunks(records, batchSize)
  {
    ProduceFromChunks(records, batchSize, 0, [], []);
    assert [] + records[0..] == records;
  }

  /** Concatenating the blocks gives back the sequence. */
  lemma {:induction false} ChunksFlatten<T>(xs: seq<T>, b: nat)
    ensures Flatten(Chunks(xs, b)) == xs
    decreases |xs|
  {
    if |xs| > 0 {
      if b == 0 || |xs| <= b {
        FlattenCons(xs, []);
      } else {
        ChunksFlatten(xs[b..], b);
        FlattenCons(xs[..b], Chunks(xs[b..], b));
        assert xs[..b] + xs[b..] == xs;
      }
    }
  }

  /** Every block is non-empty; with `b >= 1` every block but the last has
      exactly `b` elements, the last at most `b`, and there are
      `ceil(|xs| / b)` of them; with `b == 0` there is at most one. */
  lemma {:induction false} ChunksShape<T>(xs: seq<T>, b: nat)
    ensures forall i :: 0 <= i < |Chunks(xs, b)| ==> |Chunks(xs, b)[i]| > 0
    ensures b >= 1 ==> forall i :: 0 <= i < |Chunks(xs, b)| ==> |Chunks(xs, b)[i]| <= b
    ensures b >= 1 ==> forall i :: 0 <= i < |Chunks(xs, b)| - 1 ==> |Chunks(xs, b)[i]| == b
    ensures b >= 1 ==> |Chunks(xs, b)| == (|xs| + b - 1) / b
    ensures b == 0 ==> |Chunks(xs, b)| == if |xs| == 0 then 0 else 1
    decreases |xs|
  {
    if |xs| > 0 && b >= 1 {
      if |xs| <= b {
        DivUnique(|xs| + b - 1, b, 1, |xs| - 1);
      } else {
        var rest := xs[b..];
        ChunksShape(rest, b);
        var c := Chunks(xs, b);
        assert c == [xs[..b]] + Chunks(rest, b);
        assert forall i :: 1 <= i < |c| ==> c[i] == Chunks(rest, b)[i - 1];
        var q := (|rest| + b - 1) / b;
        assert |rest| + b - 1 == b * q + (|rest| + b - 1) % b;
        DivUnique(|xs| + b - 1, b, q + 1, (|rest| + b - 1) % b);
      }
    }
  }

  /** The batch producer partitions the iteration space: the batches,
      concatenated in emission order, are `QueryResultN(0)`, ...,
      `QueryResultN(iterations - 1)`, each counter exactly once; no batch
      is empty; with `batchSize >= 1` all batches but the last have
      exactly `batchSize` records, and there are
      `ceil(iterations / batchSize)` of them; a batch size of 0 sends
      everything as one batch; and a QuerySet without iterations sends
      nothing. */
  lemma BatchesPartition(qs: QuerySet, render: Render, batchSize: nat)
    requires Valid(qs)
    ensures var bs := Produce(qs, render, batchSize);
      && Flatten(bs) == Records(qs, render)
      && (forall i :: 0 <= i < |bs| ==> |bs[i]| > 0)
      && (batchSize >= 1 ==> forall i :: 0 <= i < |bs| ==> |bs[i]| <= batchSize)
      && (batchSize >= 1 ==> forall i :: 0 <= i < |bs| - 1 ==> |bs[i]| == batchSize)
      && (batchSize >= 1 ==> |bs| == (qs.iterations + batchSize - 1) / batchSize)
      && (batchSize == 0 ==> |bs| == if qs.iterations == 0 then 0 else 1)
      && (qs.iterations == 0 ==> bs == [])
  {
    var rs := Records(qs, render);
    ProduceIsChunks(qs, render, batchSize);
    ChunksFlatten(rs, batchSize);
    ChunksShape(rs, batchSize);
  }
}
