/** One benchmark run (`RunSumMultiBatch` of query.go) and the request
    handler's sweep (`HandleQuery`): producer, workers and collector put
    together, with the summary record a run returns. */
module Run {
  import opened GoInt
  import opened Basics
  import opened QuerySets
  import opened Batching
  import opened Worker

  /** The summary of one run, in the field order of query.go's struct
      literals: name, iterations, concurrency, batch size, seconds, line
      order count, timestamp. */
  datatype BenchmarkResult = BenchmarkResult(
    name: string,
    iterations: int,
    concurrency: int,
    batchSize: int,
    seconds: real,
    numLineOrders: int,
    timestamp: int)

  /** One line of the results file: the record's first output, then its
      inputs. */
  datatype Line = Line(output: Value, inputs: seq<int>)

  /** What a run observes of the world around it: whether the results
      directory and file can be created, the query engine, the index of the
      first file write that fails (if any), the clock at the start, the
      elapsed time, and the server's line order count. */
  datatype Env = Env(
    mkdirOk: bool,
    createOk: bool,
    engine: Engine,
    writeFailsAt: Option<nat>,
    now: int,
    elapsed: real,
    numLineOrders: int)

  /** What a run returns, together with the lines it wrote to its file. */
  datatype RunOutcome = RunOutcome(result: BenchmarkResult, lines: seq<Line>)

  /** The summary every failure path returns: no iterations, no
      configuration, seconds `-1`, and the run's timestamp. */
  function Failure(name: string, now: int): BenchmarkResult {
    BenchmarkResult(name, 0, 0, 0, -1.0, 0, Int32(now))
  }

  /** The summary of a run that got through teardown. */
  function Success(qs: QuerySet, concurrency: int, batchSize: int, env: Env): BenchmarkResult {
    BenchmarkResult(qs.name, qs.iterations, concurrency, batchSize, env.elapsed, env.numLineOrders, Int32(env.now))
  }

  /** The setup and teardown queries succeed, or there is none to run. */
  predicate SetupOk(qs: QuerySet, env: Env) {
    qs.setup == "" || env.engine(qs.setup).Sums?
  }

  predicate TeardownOk(qs: QuerySet, env: Env) {
    qs.teardown == "" || env.engine(qs.teardown).Sums?
  }

  /** Every record reaching the collector either carries an error or has
      an output slot to print. */
  predicate Collectable(stream: seq<QueryResult>) {
    forall i :: 0 <= i < |stream| ==> stream[i].err.Some? || |stream[i].outputs| == 1
  }

  function LineOf(r: QueryResult): Line
    requires |r.outputs| == 1
  {
    Line(r.outputs[0], r.inputs)
  }

  /** The lines the collector wrote, and whether it returned early on an
      error record. */
  datatype Drained = Drained(lines: seq<Line>, aborted: bool)

  /** The collector loop from record `i` on: an error record ends the run
      at once; a failing write ends the loop, and the run goes on to its
      teardown; otherwise the record's line is written. */
  function DrainFrom(stream: seq<QueryResult>, failAt: Option<nat>, i: nat, lines: seq<Line>): Drained
    requires i <= |stream| && Collectable(stream)
    decreases |stream| - i
  {
    if i == |stream| then Drained(lines, false)
    else if stream[i].err.Some? then Drained(lines, true)
    else if failAt == Some(i) then Drained(lines, false)
    else DrainFrom(stream, failAt, i + 1, lines + [LineOf(stream[i])])
  }

  function Drain(stream: seq<QueryResult>, failAt: Option<nat>): Drained
    requires Collectable(stream)
  {
    DrainFrom(stream, failAt, 0, [])
  }

  /** Reference: the position of the first error record, or the length of
      the stream when there is none. */
  function FirstError(stream: seq<QueryResult>): (k: nat)
    ensures k <= |stream|
    ensures forall j :: 0 <= j < k ==> stream[j].err.None?
    ensures k < |stream| ==> stream[k].err.Some?
    decreases |stream|
  {
    if |stream| == 0 then 0
    else if stream[0].err.Some? then 0
    else
      var k := FirstError(stream[1..]);
      assert forall j :: 1 <= j <= k ==> stream[j] == stream[1..][j - 1];
      1 + k
  }

  /** Reference: how many lines the collector writes — up to the first
      error record or the first failing write, whichever comes first. */
  function Stop(stream: seq<QueryResult>, failAt: Option<nat>): nat {
    match failAt
    case Some(w) => if w < FirstError(stream) then w else FirstError(stream)
    case None => FirstError(stream)
  }

  /** Reference: the collector meets an error record before any write
      fails. */
  predicate Aborts(stream: seq<QueryResult>, failAt: Option<nat>) {
    FirstError(stream) < |stream| && (failAt.None? || FirstError(stream) <= failAt.value)
  }

  /** Loop invariant of the collector: the lines written so far are those
      of the records before `i`. */
  lemma {:induction false} DrainFromSpec(stream: seq<QueryResult>, failAt: Option<nat>, i: nat, lines: seq<Line>)
    requires Collectable(stream) && i <= Stop(stream, failAt)
    requires |lines| == i
    requires forall j :: 0 <= j < i ==> lines[j] == LineOf(stream[j])
    ensures var d := DrainFrom(stream, failAt, i, lines);
      && |d.lines| == Stop(stream, failAt)
      && (forall j :: 0 <= j < |d.lines| ==> d.lines[j] == LineOf(stream[j]))
      && (d.aborted <==> Aborts(stream, failAt))
    decreases |stream| - i
  {
    if i < Stop(stream, failAt) {
      var next := lines + [LineOf(stream[i])];
      DrainFromSpec(stream, failAt, i + 1, next);
    }
  }

  /** The collector writes the lines of the records before the first error
      record and before the first failing write, in stream order, and
      reports an abort exactly when it meets an error record first. */
  lemma DrainSpec(stream: seq<QueryResult>, failAt: Option<nat>)
    requires Collectable(stream)
    ensures var d := Drain(stream, failAt);
      && |d.lines| == Stop(stream, failAt)
      && (forall j :: 0 <= j < |d.lines| ==> d.lines[j] == LineOf(stream[j]))
      && (d.aborted <==> Aborts(stream, failAt))
  {
    DrainFromSpec(stream, failAt, 0, []);
  }

  /** What query.go needs to avoid a panic: a non-negative batch size for
      the producer's `make`, and an engine that never answers a batch with
      more sums than it has records.  Both only matter once the results file
      exists (and, for the engine, once workers run). */
  predicate Runnable(qs: QuerySet, concurrency: int, batchSize: int, env: Env, render: Render)
    requires Valid(qs)
  {
    env.mkdirOk && env.createOk ==>
      && batchSize >= 0
      && (SetupOk(qs, env) && concurrency > 0 ==> Answers(env.engine, Produce(qs, render, batchSize)))
  }

  /** The records reaching the collector: those of `concurrency` workers
      draining the producer's batches, or none when no worker is started. */
  function Collected(qs: QuerySet, concurrency: int, batchSize: nat, env: Env, render: Render): (stream: seq<QueryResult>)
    requires Valid(qs)
    requires concurrency > 0 ==> Answers(env.engine, Produce(qs, render, batchSize))
    ensures Collectable(stream)
  {
    if concurrency > 0 then
      var bs := Produce(qs, render, batchSize);
      StreamShape(bs, env.engine);
      Stream(bs, env.engine)
    else []
  }

  /** `RunSumMultiBatch(qs, concurrency, batchSize)`.  In order: creating
      the results directory or file, the setup query, an error record and the
      teardown query can each fail, and each failure returns the failure
      summary; a failing write only ends the collector loop.  A run that gets
      through teardown returns the configuration it ran with. */
  function RunSumMultiBatch(qs: QuerySet, concurrency: int, batchSize: int, env: Env, render: Render): (out: RunOutcome)
    requires Valid(qs)
    requires Runnable(qs, concurrency, batchSize, env, render)
    ensures out.result == Failure(qs.name, env.now) || out.result == Success(qs, concurrency, batchSize, env)
    ensures -TwoTo31 <= out.result.timestamp < TwoTo31
  {
    var fail := Failure(qs.name, env.now);
    if !env.mkdirOk || !env.createOk then RunOutcome(fail, [])
    else if !SetupOk(qs, env) then RunOutcome(fail, [])
    else
      var d := Drain(Collected(qs, concurrency, batchSize, env, render), env.writeFailsAt);
      if d.aborted || !TeardownOk(qs, env) then RunOutcome(fail, d.lines)
      else RunOutcome(Success(qs, concurrency, batchSize, env), d.lines)
  }

  /** The summary rule of a run that gets through its setup: it fails
      exactly when the collector meets an error record before a write
      fails, or when the teardown query fails, and succeeds otherwise.
      Either way the file holds the lines of the records the collector took
      before it stopped, in stream order. */
  lemma RunOutcomeSpec(qs: QuerySet, concurrency: int, batchSize: int, env: Env, render: Render)
    requires Valid(qs) && Runnable(qs, concurrency, batchSize, env, render)
    requires env.mkdirOk && env.createOk && SetupOk(qs, env)
    ensures var stream := Collected(qs, concurrency, batchSize, env, render);
      var out := RunSumMultiBatch(qs, concurrency, batchSize, env, render);
      && out.result == (if Aborts(stream, env.writeFailsAt) || !TeardownOk(qs, env)
                        then Failure(qs.name, env.now)
                        else Success(qs, concurrency, batchSize, env))
      && |out.lines| == Stop(stream, env.writeFailsAt)
      && (forall j :: 0 <= j < |out.lines| ==> out.lines[j] == LineOf(stream[j]))
  {
    DrainSpec(Collected(qs, concurrency, batchSize, env, render), env.writeFailsAt);
  }

  /** With a non-negative elapsed time the two summary forms never
      coincide: seconds `-1` flags a failure. */
  lemma FailureFlagged(qs: QuerySet, concurrency: int, batchSize: int, env: Env)
    requires env.elapsed >= 0.0
    ensures Failure(qs.name, env.now) != Success(qs, concurrency, batchSize, env)
    ensures Failure(qs.name, env.now).seconds == -1.0
  {
  }

  /** A run that cannot create its results directory or file, or whose
      setup query fails, returns the failure summary and writes nothing. */
  lemma FailsBeforeWork(qs: QuerySet, concurrency: int, batchSize: int, env: Env, render: Render)
    requires Valid(qs) && Runnable(qs, concurrency, batchSize, env, render)
    requires !env.mkdirOk || !env.createOk || !SetupOk(qs, env)
    ensures RunSumMultiBatch(qs, concurrency, batchSize, env, render) == RunOutcome(Failure(qs.name, env.now), [])
  {
  }

  /** A failing teardown query turns any run into a failure. */
  lemma TeardownFailure(qs: QuerySet, concurrency: int, batchSize: int, env: Env, render: Render)
    requires Valid(qs) && Runnable(qs, concurrency, batchSize, env, render)
    requires !TeardownOk(qs, env)
    ensures RunSumMultiBatch(qs, concurrency, batchSize, env, render).result == Failure(qs.name, env.now)
  {
  }

  /** The records the producer hands out carry no error. */
  lemma BatchesErrorFree(qs: QuerySet, render: Render, batchSize: nat)
    requires Valid(qs)
    ensures var bs := Produce(qs, render, batchSize);
      forall i, j :: 0 <= i < |bs| && 0 <= j < |bs[i]| ==> bs[i][j].err.None?
  {
    var bs: seq<seq<QueryResult>> := Produce(qs, render, batchSize);
    BatchesPartition(qs, render, batchSize);
    forall i, j | 0 <= i < |bs| && 0 <= j < |bs[i]| ensures bs[i][j].err.None? {
      FlattenMembers(bs, bs[i][j]);
    }
  }

  /** With workers running, an engine error on any batch makes the run a
      failure, unless a file write failed before the first error record
      reached the collector. */
  lemma EngineFailure(qs: QuerySet, concurrency: int, batchSize: int, env: Env, render: Render, i: int)
    requires Valid(qs) && Runnable(qs, concurrency, batchSize, env, render)
    requires concurrency > 0 && batchSize >= 0
    requires 0 <= i < |Produce(qs, render, batchSize)|
    requires env.engine(CompoundRequest(Produce(qs, render, batchSize)[i])).Failed?
    requires env.mkdirOk && env.createOk && SetupOk(qs, env) && env.writeFailsAt.Some? ==>
      FirstError(Collected(qs, concurrency, batchSize, env, render)) <= env.writeFailsAt.value
    ensures RunSumMultiBatch(qs, concurrency, batchSize, env, render).result == Failure(qs.name, env.now)
  {
    if env.mkdirOk && env.createOk && SetupOk(qs, env) {
      var bs := Produce(qs, render, batchSize);
      BatchesErrorFree(qs, render, batchSize);
      StreamErrors(bs, env.engine);
      var stream := Collected(qs, concurrency, batchSize, env, render);
      var r :| r in stream && r.err.Some?;
      RunOutcomeSpec(qs, concurrency, batchSize, env, render);
    }
  }

  /** A clean run — every step succeeds, every batch is answered with one
      sum per record, every write succeeds, and at least one worker runs —
      returns the success summary and writes one line per counter
      `0 <= n < iterations`, in counter order: the `n`-th sum of the
      replies, then the inputs of `QueryResultN(n)`. */
  lemma CleanRun(qs: QuerySet, concurrency: int, batchSize: int, env: Env, render: Render)
    requires Valid(qs)
    requires env.mkdirOk && env.createOk && SetupOk(qs, env) && TeardownOk(qs, env)
    requires concurrency > 0 && batchSize >= 0 && env.writeFailsAt.None?
    requires AnswersExactly(env.engine, Produce(qs, render, batchSize))
    ensures Runnable(qs, concurrency, batchSize, env, render)
    ensures var out := RunSumMultiBatch(qs, concurrency, batchSize, env, render);
      var sums := AllSums(Produce(qs, render, batchSize), env.engine);
      && out.result == Success(qs, concurrency, batchSize, env)
      && |out.lines| == |Records(qs, render)| == |sums|
      && (forall n :: 0 <= n < |out.lines| ==>
            out.lines[n] == Line(Int(sums[n]), Records(qs, render)[n].inputs))
  {
    var bs := Produce(qs, render, batchSize);
    StreamZipsAll(bs, env.engine);
    BatchesPartition(qs, render, batchSize);
    var stream := Collected(qs, concurrency, batchSize, env, render);
    var rs := Records(qs, render);
    assert forall p :: 0 <= p < |stream| ==> stream[p].err == rs[p].err;
    assert FirstError(stream) == |stream|;
    DrainSpec(stream, env.writeFailsAt);
  }

  /** For a QuerySet built by `NewQuerySet`, a clean run's file lists the
      whole Cartesian product of the argument lists, component 0 cycling
      fastest, each combination once. */
  lemma CleanRunCartesian(name: string, format: string, argSets: seq<seq<int>>,
                          concurrency: int, batchSize: int, env: Env, render: Render)
    requires env.mkdirOk && env.createOk
    requires SetupOk(NewQuerySet(name, format, argSets), env) && TeardownOk(NewQuerySet(name, format, argSets), env)
    requires concurrency > 0 && batchSize >= 0 && env.writeFailsAt.None?
    requires AnswersExactly(env.engine, Produce(NewQuerySet(name, format, argSets), render, batchSize))
    ensures Runnable(NewQuerySet(name, format, argSets), concurrency, batchSize, env, render)
    ensures var out := RunSumMultiBatch(NewQuerySet(name, format, argSets), concurrency, batchSize, env, render);
      && |out.lines| == |Cartesian(argSets)|
      && (forall n :: 0 <= n < |out.lines| ==> out.lines[n].inputs == Cartesian(argSets)[n])
  {
    var qs := NewQuerySet(name, format, argSets);
    CleanRun(qs, concurrency, batchSize, env, render);
    CartesianSize(argSets);
    var out := RunSumMultiBatch(qs, concurrency, batchSize, env, render);
    forall n | 0 <= n < |out.lines| ensures out.lines[n].inputs == Cartesian(argSets)[n] {
      EnumeratesCartesian(name, format, argSets, n);
    }
  }

  /** A failing file write does not fail the run when it comes before the
      first error record (or there is none): the run returns the success
      summary, and the file holds the lines the run would have written with
      every write succeeding, up to the write that failed. */
  lemma WriteFailureStillSucceeds(qs: QuerySet, concurrency: int, batchSize: int, env: Env, render: Render, w: nat)
    requires Valid(qs) && Runnable(qs, concurrency, batchSize, env, render)
    requires env.mkdirOk && env.createOk && SetupOk(qs, env) && TeardownOk(qs, env)
    requires env.writeFailsAt == Some(w)
    requires var stream := Collected(qs, concurrency, batchSize, env, render);
      w < FirstError(stream) || FirstError(stream) == |stream|
    ensures Runnable(qs, concurrency, batchSize, env.(writeFailsAt := None), render)
    ensures var out := RunSumMultiBatch(qs, concurrency, batchSize, env, render);
      var clean := RunSumMultiBatch(qs, concurrency, batchSize, env.(writeFailsAt := None), render);
      && out.result == Success(qs, concurrency, batchSize, env)
      && |out.lines| == (if w < |clean.lines| then w else |clean.lines|)
      && out.lines == clean.lines[..|out.lines|]
  {
    var env0 := env.(writeFailsAt := None);
    var stream := Collected(qs, concurrency, batchSize, env, render);
    assert stream == Collected(qs, concurrency, batchSize, env0, render);
    RunOutcomeSpec(qs, concurrency, batchSize, env, render);
    RunOutcomeSpec(qs, concurrency, batchSize, env0, render);
  }

  /** With no worker (`concurrency <= 0`) nothing is queried and nothing is
      written, yet a run whose steps succeed reports the success summary,
      iteration count included. */
  lemma NoWorkers(qs: QuerySet, concurrency: int, batchSize: int, env: Env, render: Render)
    requires Valid(qs) && Runnable(qs, concurrency, batchSize, env, render)
    requires concurrency <= 0
    requires env.mkdirOk && env.createOk && SetupOk(qs, env) && TeardownOk(qs, env)
    ensures RunSumMultiBatch(qs, concurrency, batchSize, env, render)
      == RunOutcome(Success(qs, concurrency, batchSize, env), [])
  {
    DrainSpec([], env.writeFailsAt);
  }

  /** The grid of `HandleQuery`: concurrency in the outer loop, batch size
      in the inner one. */
  const GridConcurrency: seq<int> := [8, 16, 32]
  const GridBatchSizes: seq<int> := [2, 4, 8]

  /** The environment of each run, by its concurrency and batch size. */
  type Envs = (int, int) -> Env

  predicate GridRunnable(qs: QuerySet, envs: Envs, render: Render)
    requires Valid(qs)
  {
    forall c, b :: c in GridConcurrency && b in GridBatchSizes ==>
      Runnable(qs, c, b, envs(c, b), render)
  }

  /** The summaries of the grid sweep, in loop order. */
  function Grid(qs: QuerySet, envs: Envs, render: Render): seq<BenchmarkResult>
    requires Valid(qs) && GridRunnable(qs, envs, render)
  {
    Flatten(seq(|GridConcurrency|, ci requires 0 <= ci < |GridConcurrency| =>
      seq(|GridBatchSizes|, bi requires 0 <= bi < |GridBatchSizes| =>
        var c, b := GridConcurrency[ci], GridBatchSizes[bi];
        RunSumMultiBatch(qs, c, b, envs(c, b), render).result)))
  }

  /** `HandleQuery` after the QuerySet has been looked up: a "query"
      request runs once with the server's concurrency and batch size, a
      "grid" request runs the sweep, and any other kind runs nothing. */
  function HandleQuery(qs: QuerySet, qtype: string, concurrency: int, batchSize: int,
                       envs: Envs, render: Render): seq<BenchmarkResult>
    requires Valid(qs)
    requires qtype == "query" ==> Runnable(qs, concurrency, batchSize, envs(concurrency, batchSize), render)
    requires qtype == "grid" ==> GridRunnable(qs, envs, render)
  {
    if qtype == "query" then
      [RunSumMultiBatch(qs, concurrency, batchSize, envs(concurrency, batchSize), render).result]
    else if qtype == "grid" then Grid(qs, envs, render)
    else []
  }

  /** The grid sweep yields nine summaries; summary `i` is that of the run
      with concurrency `[8, 16, 32][i / 3]` and batch size
      `[2, 4, 8][i % 3]`, either the failure summary or the success summary
      carrying that configuration and the QuerySet's iteration count. */
  lemma GridOrder(qs: QuerySet, envs: Envs, render: Render)
    requires Valid(qs) && GridRunnable(qs, envs, render)
    ensures |Grid(qs, envs, render)| == 9
    ensures forall i :: 0 <= i < 9 ==>
      var c, b := GridConcurrency[i / 3], GridBatchSizes[i % 3];
      Grid(qs, envs, render)[i] == RunSumMultiBatch(qs, c, b, envs(c, b), render).result
    ensures forall i :: 0 <= i < 9 ==>
      var c, b := GridConcurrency[i / 3], GridBatchSizes[i % 3];
      var r := Grid(qs, envs, render)[i];
      || r == Failure(qs.name, envs(c, b).now)
      || (r.name == qs.name && r.iterations == qs.iterations && r.concurrency == c && r.batchSize == b)
  {
    var rows := seq(|GridConcurrency|, ci requires 0 <= ci < |GridConcurrency| =>
      seq(|GridBatchSizes|, bi requires 0 <= bi < |GridBatchSizes| =>
        var c, b := GridConcurrency[ci], GridBatchSizes[bi];
        RunSumMultiBatch(qs, c, b, envs(c, b), render).result));
    assert Grid(qs, envs, render) == Flatten(rows);
    FlattenUniform(rows, 3);
  }

  /** A "query" request yields the summary of its one run, a "grid"
      request the nine summaries of the sweep, and any other kind none. */
  lemma HandleQueryKinds(qs: QuerySet, qtype: string, concurrency: int, batchSize: int,
                         envs: Envs, render: Render)
    requires Valid(qs)
    requires qtype == "query" ==> Runnable(qs, concurrency, batchSize, envs(concurrency, batchSize), render)
    requires qtype == "grid" ==> GridRunnable(qs, envs, render)
    ensures |HandleQuery(qs, qtype, concurrency, batchSize, envs, render)|
      == if qtype == "query" then 1 else if qtype == "grid" then 9 else 0
    ensures qtype == "query" ==>
      HandleQuery(qs, qtype, concurrency, batchSize, envs, render)
        == [RunSumMultiBatch(qs, concurrency, batchSize, envs(concurrency, batchSize), render).result]
    ensures qtype == "grid" ==>
      HandleQuery(qs, qtype, concurrency, batchSize, envs, render) == Grid(qs, envs, render)
  {
    if qtype == "grid" {
      GridOrder(qs, envs, render);
    }
  }
}
