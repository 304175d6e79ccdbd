/** `arange` of query.go: the arithmetic range used to build argument grids,
    e.g. `arange(10, 20, 2) = [10, 12, 14, 16, 18]`. */
module Ranges {
  import opened GoInt
  import opened Basics

  /** query.go's loop `for n := start; n < stop; n += step`, appending
      each `n`; it is entered only when the step is positive. */
  function Steps(start: int, stop: int, step: int): (r: seq<int>)
    requires step > 0 || start >= stop
    ensures forall i :: 0 <= i < |r| ==> r[i] == start + i * step && r[i] < stop
    ensures start + |r| * step >= stop
    decreases stop - start
  {
    if start >= stop then []
    else
      var rest := Steps(start + step, stop, step);
      assert forall i :: 1 <= i <= |rest| ==> ([start] + rest)[i] == rest[i - 1];
      assert start + (|rest| + 1) * step == start + step + |rest| * step;
      [start] + rest
  }

  /** `arange(start, stop, step)`.  query.go first allocates capacity
      `(stop - start) / step` (truncated), so a zero step panics with a
      division by zero and a negative capacity panics in `make`; a negative
      step with `start < stop` never leaves the loop.  The requires clauses
      exclude exactly those three cases; the returned values do not depend
      on the capacity. */
  function Arange(start: int, stop: int, step: int): (r: seq<int>)
    requires step != 0
    requires Quo(stop - start, step) >= 0
    requires step > 0 || start >= stop
    ensures forall i :: 0 <= i < |r| ==> r[i] == start + i * step && r[i] < stop
    ensures start + |r| * step >= stop
  {
    Steps(start, stop, step)
  }

  /** With a positive step the range holds `ceil((stop - start) / step)`
      values, and none when `start >= stop`. */
  lemma {:induction false} StepsLength(start: int, stop: int, step: int)
    requires step > 0
    ensures |Steps(start, stop, step)| == if start < stop then (stop - start + step - 1) / step else 0
    decreases stop - start
  {
    if start < stop {
      StepsLength(start + step, stop, step);
      var x := stop - start;
      if x <= step {
        DivUnique(x + step - 1, step, 1, x - 1);
      } else {
        var q := (x - step + step - 1) / step;
        assert x - 1 == step * q + (x - 1) % step;
        DivUnique(x + step - 1, step, q + 1, (x - 1) % step);
      }
    }
  }

  /** With a positive step the values are strictly increasing. */
  lemma ArangeIncreasing(start: int, stop: int, step: int)
    requires step > 0 && start <= stop
    ensures Quo(stop - start, step) >= 0
    ensures forall i, j :: 0 <= i < j < |Arange(start, stop, step)| ==>
      Arange(start, stop, step)[i] < Arange(start, stop, step)[j]
  {
    var r := Arange(start, stop, step);
    forall i, j | 0 <= i < j < |r| ensures r[i] < r[j] {
      MulLe(step, i + 1, j);
    }
  }

  /** With a positive step the values are exactly the integers of
      `[start, stop)` congruent to `start` modulo `step`. */
  lemma ArangeMembers(start: int, stop: int, step: int, x: int)
    requires step > 0 && start <= stop
    ensures Quo(stop - start, step) >= 0
    ensures x in Arange(start, stop, step) <==> start <= x < stop && (x - start) % step == 0
  {
    var r := Arange(start, stop, step);
    if x in r {
      var i :| 0 <= i < |r| && r[i] == x;
      assert x - start == step * i;
      DivUnique(x - start, step, i, 0);
    }
    if start <= x < stop && (x - start) % step == 0 {
      var i := (x - start) / step;
      assert x - start == step * i + 0;
      assert i < |r| by {
        if i >= |r| {
          MulLe(step, |r|, i);
        }
      }
      assert r[i] == x;
    }
  }

  /** The example of query.go's comment. */
  lemma CommentExample()
    ensures Arange(10, 20, 2) == [10, 12, 14, 16, 18]
  {
    StepsLength(10, 20, 2);
  }
}
