# demo-ssb benchmark driver, modelled in Dafny

This project models the pure logic of the Star Schema Benchmark driver for
Pilosa (`query.go` and `main.go`):

- the arithmetic range `arange`;
- the mixed-radix index unraveller `UnravelIndex`, which turns a flat
  counter into one index per argument list;
- QuerySet construction (`NewQuerySet`, `NewRegisterQuerySet`) and the
  materialisation of the `n`-th query (`QueryN`, `QueryResultN`);
- the run pipeline of `RunSumMultiBatch`:
  - the batch producer;
  - the worker of `runRawSumBatchQuery`, which fuses a batch into one
    compound request and zips the reply's sums back onto the records;
  - the collector that writes the results file;
  - the summary record that a run returns;
- the request handler's sweep (`HandleQuery`);
- the query catalogue `getQuerySet`, reduced to its argument lists;
- `PadRight` and the city tables that `DefineCityMap` builds from the
  `nations` table.

The model is functional. The goroutine pipeline is a sequential fold over
the batches in the order the producer sends them. The Pilosa client is a
function from request text to a reply (`Worker.Engine`). Template rendering
(`fmt.Sprintf`) is an uninterpreted function parameter (`QuerySets.Render`).
What a run sees of the file system and the clock is an `Env` value: whether
mkdir and create succeed, which write fails first, the start time, the
elapsed time and the line-order count.

Go semantics that matter are written out:

- `/` truncates toward zero and `%` takes the sign of the dividend
  (`GoInt.Quo`, `GoInt.Rem`);
- `int32(time.Now().Unix())` keeps the low 32 bits (`GoInt.Int32`);
- a panic is a precondition: a division by zero, a negative `make`, an index
  past a slice, or a loop that never ends.

Modules, in dependency order:

| file | module | contents |
|---|---|---|
| goint.dfy | GoInt | Go's truncating division and remainder, int32 conversion |
| basics.dfy | Basics | `Option`, `Flatten`, small arithmetic facts |
| enumerator.dfy | Enumerator | `UnravelIndex`, its closed form, the mixed-radix reference and the bijection |
| ranges.dfy | Ranges | `arange` |
| queryset.dfy | QuerySets | QuerySet, QueryResult, construction, `QueryN`/`QueryResultN`, the Cartesian product |
| batching.dfy | Batching | the batch producer and the reference partition `Chunks` |
| worker.dfy | Worker | compound request, collation, the stream of records the pool emits |
| run.dfy | Run | the collector, `RunSumMultiBatch`, the summary rules, the `HandleQuery` sweep |
| cities.dfy | Cities | region and nation tables, `PadRight`, `DefineCityMap` |
| catalogue.dfy | Catalogue | the argument lists of `getQuerySet` and facts about concrete query sets |

## Model

| member | source | states |
|---|---|---|
| GoInt.Quo | query.go:40 | Go's `/`: equals Euclidean division for a non-negative dividend and positive divisor; non-negative when the signs agree, non-positive when they differ |
| GoInt.Rem | query.go:40 | Go's `%`: in `[0, |b|)` for a non-negative dividend; non-positive and smaller than `|b|` in magnitude for a negative one; equals Euclidean `%` for non-negative operands |
| GoInt.QuoRem | query.go:40 | quotient and remainder recombine: `a == b * Quo(a, b) + Rem(a, b)` |
| GoInt.Int32 | query.go:145 | the int32 conversion lies in `[-2^31, 2^31)`, is congruent to its argument modulo `2^32`, and is the identity on that range |
| Ranges.Steps | query.go:17-19 | the loop's values are `start + i*step`, each below `stop`, and one more step would reach `stop` |
| Ranges.Arange | query.go:15-21 | `arange` returns `start, start+step, …`, all below `stop`, stopping at the first value that would reach `stop`; the panicking and non-terminating step/bound combinations are excluded |
| Ranges.StepsLength | query.go:17-19 | with a positive step there are `ceil((stop-start)/step)` values, none when `start >= stop` |
| Ranges.ArangeIncreasing | query.go:15-21 | with a positive step the values strictly increase |
| Ranges.ArangeMembers | query.go:15-21 | with a positive step, `x` is in the range iff `start <= x < stop` and `x - start` is a multiple of `step` |
| Ranges.CommentExample | query.go:13-14 | `arange(10, 20, 2) == [10, 12, 14, 16, 18]` |
| Enumerator.Prod | query.go:89-93 | the product of positive cardinalities is positive, of non-negative ones non-negative |
| Enumerator.ProdZero | query.go:89-93 | a product of non-negative cardinalities is 0 iff some cardinality is 0 |
| Enumerator.ProdSnoc | query.go:41 | multiplying the running denominator by `dim[n]` extends the product by one dimension |
| Enumerator.Unravel | query.go:28-35 | the documented closed form has one component per dimension, and for a non-negative counter component `k` lies in `[0, dim[k])` |
| Enumerator.UnravelIndex | query.go:24-44 | the loop with its running denominator computes `(index1 / stride_k) % dim[k]` for every `k`, with Go's operators |
| Enumerator.Digits | query.go:25-26 | reference mixed-radix digits, least significant first, each below its cardinality |
| Enumerator.UnravelIsDigits | query.go:24-44 | the closed form equals the digit-by-digit decoding on every non-negative counter |
| Enumerator.DigitsRavel | query.go:24-44 | decoding a counter below the product and re-encoding it gives the counter back |
| Enumerator.RavelDigits | query.go:24-44 | encoding a tuple of the box gives a counter below the product, and decoding it gives the tuple back |
| Enumerator.RavelStrides | query.go:28-35 | the Horner-form flat index `Ravel` equals the sum `sum_k idx[k] * stride_k` of the comment |
| Enumerator.UnravelRoundTrip | query.go:24-44 | for `0 <= index1 < prod dim`, `sum_k indexN[k] * stride_k == index1`, stated both in Horner form and as the stride sum |
| Enumerator.UnravelInjective | query.go:24-44 | distinct counters below the product give distinct tuples |
| Enumerator.UnravelSurjective | query.go:24-44 | every tuple of the box is the unravelling of a counter below the product |
| Enumerator.CommentExample | query.go:29-35 | the comment's example: dims (5,4,3) have 60 elements, and `n` unravels to `(n%5, (n/5)%4, (n/20)%3)` |
| QuerySets.ValidPositive | query.go:87-93 | a QuerySet with a non-zero iteration count has no empty argument list |
| QuerySets.NewQuerySet | query.go:81-99 | `dim` is the number of lists; `lengths[k]` is list `k`'s length; `iterations` is their product: 1 with no lists, 0 iff some list is empty; setup and teardown empty |
| QuerySets.NewRegisterQuerySet | query.go:101-106 | the same QuerySet as `NewQuerySet` except for the given setup and teardown |
| QuerySets.Inputs | query.go:113-120 | the argument tuple has one entry per dimension, entry `k` taken from list `k`; defined for every counter whose unravelled components are all non-negative, which includes every `n >= 0` |
| QuerySets.QueryN | query.go:113-120 | the `n`-th query text: the template plus a newline, rendered with the argument tuple of `Inputs`; its contract is that of `Inputs`, and `QueryResultN` carries exactly this text |
| QuerySets.NegativeCounters | query.go:24-44 | a negative counter panics only when a component goes negative: over one list of five values, counter -5 selects the first value and counter -1 indexes out of range |
| QuerySets.QueryResultN | query.go:123-133 | the record's text is exactly what `QueryN` renders, its inputs are the unravelled argument tuple, and it has one empty output slot and no error |
| QuerySets.CartesianSize | query.go:87-96 | the reference Cartesian product has as many tuples as the product of the lengths |
| QuerySets.CartesianAt | query.go:113-120 | tuple `n` of the reference product is the tuple read off the mixed-radix digits of `n` |
| QuerySets.CartesianMembers | query.go:113-120 | the reference product holds exactly the tuples whose entry `k` comes from list `k` |
| QuerySets.EnumeratesCartesian | query.go:81-120 | the iteration count of `NewQuerySet` is the size of the product, and the argument tuple of iteration `n` is tuple `n` of the product |
| QuerySets.InputsCover | query.go:113-120 | every combination of one value per list is the argument tuple of some iteration |
| QuerySets.InputsDistinct | query.go:113-120 | with no list repeating a value, distinct iterations have distinct argument tuples |
| Batching.Records | query.go:163-164 | the records of a run are `QueryResultN(0)`, …, `QueryResultN(iterations-1)`, none for a zero iteration count |
| Batching.Chunks | query.go:159-178 | reference partition of a sequence into consecutive blocks of `b`, a single block for `b == 0`; its contract is `ChunksFlatten` and `ChunksShape` |
| Batching.ProduceFrom | query.go:163-177 | the producer's loop, one counter per step, with the pending batch and the batches sent so far; its invariant is `ProduceFromChunks` |
| Batching.Produce | query.go:159-178 | the batches the producer sends, in order; `ProduceIsChunks` and `BatchesPartition` state what they are |
| Batching.ProduceFromChunks | query.go:163-177 | loop invariant of the producer: what it still sends is the partition of the pending batch followed by the remaining records |
| Batching.ProduceIsChunks | query.go:159-178 | the producer sends the reference partition of the records into blocks of `batchSize` |
| Batching.ChunksFlatten | query.go:159-178 | concatenating the blocks of the partition gives back the records |
| Batching.ChunksShape | query.go:159-178 | blocks are non-empty; with `b >= 1` all but the last have exactly `b` elements and there are `ceil(n/b)` blocks; with `b == 0` there is at most one |
| Batching.BatchesPartition | query.go:159-178 | the batches, concatenated in order, are every record exactly once; none is empty; all but the last are full; there are `ceil(iterations/batchSize)` of them; a zero iteration count sends none |
| Worker.CompoundRequest | query.go:251-254 | the batch's texts concatenated in batch order; `CompoundRequestAppend` and `CompoundRequestSplit` state its contract |
| Worker.WorkerEmit | query.go:255-264 | one worker step: a single error record for a failed reply, the collated records otherwise; `EmitErrors` and `Collate` state its contract |
| Worker.Stream | query.go:245-265 | the records the pool emits, batch after batch; `StreamZipsAll`, `StreamShape` and `StreamErrors` state its contract |
| Worker.CompoundRequestAppend | query.go:251-254 | the compound request of two runs of records is the concatenation of their compound requests |
| Worker.CompoundRequestSplit | query.go:251-254 | each record's text sits in the compound request between those of the records before and after it |
| Worker.Collate | query.go:261-264 | reply result `n` becomes the only output of `batch[n]`, with inputs, text and error unchanged, records in batch order; a shorter reply emits only that many records |
| Worker.CollateUnzip | query.go:261-264 | collating a reply with one sum per record zips the sums onto the batch |
| Worker.EmitErrors | query.go:257-264 | one worker step emits an error record iff the engine's reply is an error |
| Worker.StreamZipsAll | query.go:245-264 | when every batch is answered with one sum per record, the pool emits every record of every batch once, in order, each carrying its own sum |
| Worker.StreamShape | query.go:257-264 | every emitted record carries an error or exactly one output |
| Worker.StreamErrors | query.go:257-260 | records that start error-free lead to an error record iff the engine fails on some batch |
| Run.DrainFrom | query.go:207-218 | the collector loop from record `i` on; its invariant is `DrainFromSpec` |
| Run.Drain | query.go:207-218 | the collector loop from the first record; `DrainSpec` states what it writes and when it aborts |
| Run.Failure | query.go:150 | the failure summary: name, zero configuration, seconds -1, the run's timestamp; `FailureFlagged` and `RunOutcomeSpec` state when it is returned |
| Run.Success | query.go:233-241 | the success summary carrying the configuration of the run; `RunOutcomeSpec` states when it is returned |
| Run.FirstError | query.go:206-211 | reference: the position of the first error record; all records before it are error-free |
| Run.DrainFromSpec | query.go:206-218 | loop invariant of the collector: the lines written so far are those of the records before the current one |
| Run.DrainSpec | query.go:206-218 | the collector writes the lines of the records before the first error record and the first failing write, in order, and aborts iff it meets an error record first |
| Run.Collected | query.go:191-201 | every record that reaches the collector carries an error or an output to print |
| Run.RunSumMultiBatch | query.go:140-242 | a run returns either the failure summary or the success summary with its configuration, and the timestamp fits in int32 |
| Run.RunOutcomeSpec | query.go:191-241 | once setup succeeds, the run fails iff the collector meets an error record before a write fails or the teardown fails, and the file holds the lines of the records before the collector stopped |
| Run.FailureFlagged | query.go:150 | seconds `-1` tells the failure summary apart from any success summary with a non-negative elapsed time |
| Run.FailsBeforeWork | query.go:147-188 | failing mkdir, create or setup returns the failure summary and writes nothing |
| Run.TeardownFailure | query.go:220-227 | a failing teardown query makes the run a failure |
| Run.BatchesErrorFree | query.go:159-178 | the records the producer sends carry no error |
| Run.EngineFailure | query.go:206-211 | with workers running, an engine error on any batch makes the run a failure unless a write failed before the first error record reached the collector |
| Run.CleanRun | query.go:140-242 | a clean run returns the success summary and writes, in counter order, one line per iteration: the `n`-th sum then the inputs of `QueryResultN(n)` |
| Run.CleanRunCartesian | query.go:140-242 | a clean run of a `NewQuerySet` writes the whole Cartesian product of the argument lists, component 0 cycling fastest |
| Run.WriteFailureStillSucceeds | query.go:212-217 | a write that fails before the first error record (or with none) only ends the collector loop, short replies included: the run returns the success summary and the file holds a prefix of the lines written with no failing write |
| Run.NoWorkers | query.go:191-204 | with `concurrency <= 0` nothing is queried or written, and a run whose steps succeed reports success with its iteration count |
| Run.Grid | query.go:279-286 | the summaries of the sweep in nested-loop order, entry `i` being the summary of the run with concurrency `[8,16,32][i/3]` and batch size `[2,4,8][i%3]`; `GridOrder` states its contract |
| Run.HandleQuery | query.go:268-291 | dispatch on the request kind after the QuerySet lookup: the one run's summary, the sweep, or nothing; `HandleQueryKinds` states its contract |
| Run.GridOrder | query.go:279-286 | the sweep yields nine summaries; summary `i` is the result of `RunSumMultiBatch` with concurrency `[8,16,32][i/3]` and batch size `[2,4,8][i%3]`, hence the failure summary or one carrying that configuration and the iteration count |
| Run.HandleQueryKinds | query.go:274-287 | "query" yields exactly the summary of the run with the server's concurrency and batch size, "grid" exactly the nine summaries of the sweep, any other kind none |
| Cities.PadRight | main.go:87-94 | the result has exactly `length` characters: `str` and then repeated copies of `pad`, cut to `length` |
| Cities.PadRightCases | main.go:87-94 | a string at least `length` long is cut to `str[0:length]`; a shorter one is kept whole as the prefix |
| Cities.CityName | main.go:78 | a city name has ten characters: the nation name cut or blank-padded to nine, then the digit `j` |
| Cities.Entries | main.go:76-80 | the (name, ID) pairs the nested loops assign, nation by nation in visiting order; `EntriesLength`, `EntriesAt` and `EntriesDistinct` state its contract |
| Cities.Assign | main.go:79-80 | the two tables after the assignments, in order; `AssignKeys`, `AssignValues` and `AssignInverse` state its contract |
| Cities.DefineCityMap | main.go:75-85 | the tables built for a visiting order of the nations; `CityTablesInverse` and `CityTablesOrderIndependent` state its contract |
| Cities.AssignKeys | main.go:79-80 | the tables' keys are exactly the assigned names and IDs |
| Cities.AssignValues | main.go:79-80 | with no name and no ID assigned twice, every assigned pair survives in both tables |
| Cities.AssignInverse | main.go:79-80 | with no name and no ID assigned twice, the two tables are mutual inverses |
| Cities.NationTable | main.go:43-70 | the nations carry the IDs `0 .. 24`, one each, listed by ID in `NationNames` |
| Cities.PadRightStem | main.go:78 | blank-padding to nine characters gives the nation's stem, and so does the stem part of a city name |
| Cities.StemsTable | main.go:43-70 | the nine-character stems of the nations, by ID |
| Cities.StemsDistinct | main.go:43-70 | the 25 stems are pairwise distinct ("UNITED ST" and "UNITED KI" among them) |
| Cities.NationStemsDistinct | main.go:43-70 | different nations have different stems |
| Cities.EntriesLength | main.go:76-77 | the loops make ten entries per nation |
| Cities.EntriesAt | main.go:76-80 | entry `k` is city `k % 10` of the `k/10`-th nation visited, with ID `nationID*10 + k%10` |
| Cities.CityNamesDistinct | main.go:78 | different nations or digits give different city names |
| Cities.EntriesDistinct | main.go:76-81 | no city name and no city ID is assigned twice |
| Cities.NationID | main.go:43-70 | a nation's ID is below 25 and names that nation |
| Cities.NationByID | main.go:43-70 | every ID below 25 belongs to a nation |
| Cities.CityIDs | main.go:75-85 | the city IDs are exactly `0 .. 249`, and ID `id` names city `id % 10` of nation `id / 10` |
| Cities.CityNamesLength | main.go:78 | every city name has ten characters |
| Cities.CityTablesInverse | main.go:75-85 | the IDs are exactly `0 .. 249`, ID `id` names city `id%10` of nation `id/10`, names have ten characters, and the two tables are mutual inverses |
| Cities.IDTablesEqual | main.go:76 | the ID table does not depend on the order in which the nations are visited |
| Cities.CityTablesOrderIndependent | main.go:76 | neither table depends on the order in which Go visits the `nations` map |
| Cities.TablesConsistent | main.go:31-70 | region IDs `0 .. 4`; the American nations have IDs `0 .. 4` and the Asian nations carry `asiaNationIDs`, and for these ten nations the region is the ID divided by five |
| Catalogue.ArgLists | query.go:302-792 | the argument lists of each catalogue name, none for other names; `KnownNames`, `IterationCounts` and the per-region lemmas state its contract |
| Catalogue.Range | query.go:15-21 | `arange(start, stop, 1)` has `stop - start` values, value `i` being `start + i` |
| Catalogue.GetQuerySet | query.go:300-795 | every name gives a well-formed QuerySet (derived fields agree with the lists); a known name gives one carrying that name and its argument lists |
| Catalogue.KnownNames | query.go:302-792 | exactly the 26 catalogue names have argument lists |
| Catalogue.GetQuerySetUnknown | query.go:300-301 | an unknown name gives Go's zero QuerySet |
| Catalogue.CountOf | query.go:87-96 | a catalogue set with non-empty lists runs the product of their lengths |
| Catalogue.IterationCounts | query.go:303-770 | iteration counts: 1.1 runs 1, 2.1 runs 280, 2.2 runs 56, 3.1 runs 150, 3.2 runs 600, 3.3 runs 24, 4.1rb runs 35, 4.2 runs 100, 4.3 runs 800 |
| Catalogue.AsiaArgLists | query.go:561-573 | the nation list of 3.1 is `asiaNationIDs`, the IDs of the Asian nations |
| Catalogue.UnitedStatesArgLists | query.go:594-607 | the city lists of 3.2 and 4.3 are the IDs `30 .. 39` |
| Catalogue.UnitedStatesCities | query.go:596-597 | the IDs `30 .. 39` name the ten cities of the United States |
| Catalogue.UnitedKingdomCities | query.go:643-655 | 3.4 queries cities 181 and 185, which are "UNITED KI1" and "UNITED KI5" |
| Catalogue.UnknownName | query.go:300-301 | an unknown name runs no iteration, sends no batch, writes nothing and reports zero iterations |
| Catalogue.BatchingExample | query.go:159-178 | query 4.1 in batches of 8 is five batches, the first four full |

## Left out

- Goroutines, channels and the wait group: the pool is a sequential fold
  over the batches in producer order. The order in which records from
  different workers reach the collector is not modelled.
- The Pilosa client is a pure function of the request text. Setup queries
  that change server state (4.1rb's `Store`) therefore do not influence
  later replies.
- File system: mkdir, create and write are outcomes in `Env`. A failing
  write is modelled as writing nothing; the Go code may leave a partial line.
  Byte counts are not modelled.
- Timing: the elapsed seconds are a `real` taken from `Env`, and the start
  time is an integer there.
- `fmt.Sprintf` is an uninterpreted `Render`. Go's formatting verbs and the
  `%v` layout of a results line are not modelled; a line is the pair
  (output, inputs).
- Logging is not modelled: the `fmt.Printf` diagnostics of query.go
  (lines 149, 154, 185, 209, 215, 224, 230, 258, 269 and 296) print and
  change nothing the model observes.
- The HTTP surface is not modelled: JSON encoding, `HandleTopN`, `HandleSum`,
  `HandleVersion`, server set-up, flag parsing and `main`.
- The template texts of `getQuerySet` are opaque. As written, 4.1rb's setup
  stores into row 41 and its template loads row 123; the model does not
  interpret the texts.
- `HandleQuery` reads `s.batchSize`, but the `Server` struct (main.go:118-126)
  has no such field. `Run.HandleQuery` therefore takes the batch size as a
  parameter.
- The worker's error path has no `continue`. After sending the error record
  it reads the results of a possibly nil response. The model emits only the
  error record.
- Worker.Collate: requires at most one sum per record. More sums would make
  `runRawSumBatchQuery` index past the batch and panic. The run carries this as
  `Runnable`.
- Ranges.Arange: requires a non-zero step, a non-negative capacity and a
  terminating loop. Otherwise `arange` panics or never returns.
- Cities.PadRight: requires `length >= 0` and a non-empty pad, or a string
  already longer than `length`. Otherwise `PadRight` panics or never
  returns.
- QuerySets.Inputs: requires non-empty lists and a counter whose
  unravelled components are all non-negative (`Selects`). An empty list
  makes `UnravelIndex` divide by zero; a negative component makes it index out
  of range. Every `n >= 0` qualifies, and the only caller, the producer,
  passes `0 <= n < iterations`; some negative counters qualify too
  (`NegativeCounters`). `QueryN` and `QueryResultN` carry the same
  requires.
- Run.RunSumMultiBatch: requires `Runnable`, that is a non-negative batch
  size and no over-long reply. The summary's seconds and line-order count
  are taken from `Env` as they are.
- Integers are unbounded. Go's 64-bit `int` wrap-around in the iteration
  product and the strides is not modelled; no catalogue set comes near it.
- Strings are sequences of characters, not bytes. The nation names are
  ASCII, so the nine-character cut is the same either way.
- The `yearMap` table and the dead `cityID += 1` in `DefineCityMap`
  (main.go:82) are not modelled; the increment has no effect.
- The catalogue facts cover the iteration counts of nine sets, not all 26.
  The other sets reuse the same argument lists.
