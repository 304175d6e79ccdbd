/** The enumerator of query.go: `UnravelIndex` turns a flat counter into an
    N-dimensional index tuple, component 0 cycling fastest (a mixed-radix
    decoding, as numpy's `unravel_index` does). */
module Enumerator {
  import opened GoInt
  import opened Basics

  /** Every cardinality is positive: query.go divides by each of them. */
  predicate Positive(dim: seq<int>) {
    forall k :: 0 <= k < |dim| ==> dim[k] > 0
  }

  predicate NonNegative(s: seq<int>) {
    forall k :: 0 <= k < |s| ==> s[k] >= 0
  }

  /** Product of a sequence of integers; 1 for the empty sequence. */
  function Prod(s: seq<int>): (p: int)
    ensures Positive(s) ==> p > 0
    ensures NonNegative(s) ==> p >= 0
    decreases |s|
  {
    if |s| == 0 then 1
    else
      var rest := Prod(s[1..]);
      assert forall k :: 0 <= k < |s| - 1 ==> s[1..][k] == s[k + 1];
      s[0] * rest
  }

  /** A product of non-negative factors is zero exactly when a factor is. */
  lemma {:induction false} ProdZero(s: seq<int>)
    requires NonNegative(s)
    ensures Prod(s) == 0 <==> exists k :: 0 <= k < |s| && s[k] == 0
    decreases |s|
  {
    if |s| > 0 {
      var rest := s[1..];
      assert forall k :: 0 <= k < |rest| ==> rest[k] == s[k + 1];
      ProdZero(rest);
      if Prod(rest) == 0 {
        var k :| 0 <= k < |rest| && rest[k] == 0;
        assert s[k + 1] == 0;
      }
    }
  }

  lemma MulAssoc(a: int, b: int, c: int)
    ensures a * (b * c) == (a * b) * c
  {
  }

  /** Extending a sequence on the right multiplies its product. */
  lemma {:induction false} ProdSnoc(s: seq<int>, x: int)
    ensures Prod(s + [x]) == Prod(s) * x
    decreases |s|
  {
    if |s| > 0 {
      assert (s + [x])[1..] == s[1..] + [x];
      ProdSnoc(s[1..], x);
      MulAssoc(s[0], Prod(s[1..]), x);
    }
  }

  /** Stride of dimension `k`: the product of the cardinalities before it. */
  function Stride(dim: seq<int>, k: nat): (d: int)
    requires k <= |dim| && Positive(dim)
    ensures d > 0
  {
    assert Positive(dim[..k]);
    Prod(dim[..k])
  }

  /** The closed form that query.go's comment gives for component `k`,
      `(index1 / stride_k) % dim[k]`, with Go's truncating operators. */
  function Unravel(index1: int, dim: seq<int>): (indexN: seq<int>)
    requires Positive(dim)
    ensures |indexN| == |dim|
    ensures index1 >= 0 ==> forall k :: 0 <= k < |dim| ==> 0 <= indexN[k] < dim[k]
  {
    seq(|dim|, k requires 0 <= k < |dim| => Rem(Quo(index1, Stride(dim, k)), dim[k]))
  }

  /** query.go's loop: one pass over the dimensions with a running
      denominator `denom` that is multiplied by each cardinality in turn.
      It computes the closed form component by component. */
  method UnravelIndex(index1: int, dim: seq<int>) returns (indexN: seq<int>)
    requires Positive(dim)
    ensures |indexN| == |dim|
    ensures forall k :: 0 <= k < |dim| ==> indexN[k] == Rem(Quo(index1, Stride(dim, k)), dim[k])
  {
    indexN := seq(|dim|, _ => 0);
    var denom := 1;
    var n := 0;
    while n < |dim|
      invariant 0 <= n <= |dim|
      invariant |indexN| == |dim|
      invariant denom == Stride(dim, n)
      invariant forall k :: 0 <= k < n ==> indexN[k] == Rem(Quo(index1, Stride(dim, k)), dim[k])
    {
      indexN := indexN[n := Rem(Quo(index1, denom), dim[n])];
      assert dim[..n + 1] == dim[..n] + [dim[n]];
      ProdSnoc(dim[..n], dim[n]);
      denom := denom * dim[n];
      n := n + 1;
    }
  }

  /** Reference definition: the mixed-radix digits of `i`, least significant
      (fastest cycling) first, peeled off one dimension at a time. */
  function Digits(i: nat, dim: seq<int>): (d: seq<int>)
    requires Positive(dim)
    ensures |d| == |dim|
    ensures forall k :: 0 <= k < |dim| ==> 0 <= d[k] < dim[k]
    decreases |dim|
  {
    if |dim| == 0 then []
    else [i % dim[0]] + Digits(i / dim[0], dim[1..])
  }

  /** An index tuple inside the box `[0, dim[0]) x ... x [0, dim[D-1])`. */
  predicate InRange(idx: seq<int>, dim: seq<int>) {
    |idx| == |dim| && forall k :: 0 <= k < |dim| ==> 0 <= idx[k] < dim[k]
  }

  /** The flat index of a tuple: `idx[0] + dim[0] * (idx[1] + dim[1] * (...))`,
      which is `sum_k idx[k] * stride_k` written in Horner form. */
  function Ravel(idx: seq<int>, dim: seq<int>): int
    requires |idx| == |dim|
    decreases |dim|
  {
    if |dim| == 0 then 0 else idx[0] + dim[0] * Ravel(idx[1..], dim[1..])
  }

  /** `sum_{j < k} idx[j] * stride_j`: the flat index as query.go's
      comment states it. */
  function StrideSum(idx: seq<int>, dim: seq<int>, k: nat): int
    requires |idx| == |dim| && k <= |dim| && Positive(dim)
  {
    if k == 0 then 0 else StrideSum(idx, dim, k - 1) + idx[k - 1] * Stride(dim, k - 1)
  }

  /** The strides of the tail are those of the whole, divided by `dim[0]`. */
  lemma StrideShift(dim: seq<int>, k: nat)
    requires Positive(dim) && k < |dim|
    ensures Positive(dim[1..])
    ensures Stride(dim, k + 1) == dim[0] * Stride(dim[1..], k)
  {
    assert forall j :: 0 <= j < |dim| - 1 ==> dim[1..][j] == dim[j + 1];
    assert dim[..k + 1][1..] == dim[1..][..k];
  }

  lemma Distrib(a: int, x: int, i: int, s: int)
    ensures a * x + i * (a * s) == a * (x + i * s)
  {
  }

  /** Peeling off dimension 0 of the stride sum. */
  lemma {:induction false} StrideSumShift(idx: seq<int>, dim: seq<int>, k: nat)
    requires |idx| == |dim| && k < |dim| && Positive(dim)
    ensures Positive(dim[1..])
    ensures StrideSum(idx, dim, k + 1) == idx[0] + dim[0] * StrideSum(idx[1..], dim[1..], k)
    decreases k
  {
    StrideShift(dim, 0);
    if k == 0 {
      assert dim[..0] == [];
    } else {
      StrideSumShift(idx, dim, k - 1);
      StrideShift(dim, k - 1);
      assert idx[1..][k - 1] == idx[k];
      Distrib(dim[0], StrideSum(idx[1..], dim[1..], k - 1), idx[k], Stride(dim[1..], k - 1));
    }
  }

  /** The Horner form is the stride sum. */
  lemma {:induction false} RavelStrides(idx: seq<int>, dim: seq<int>)
    requires |idx| == |dim| && Positive(dim)
    ensures Ravel(idx, dim) == StrideSum(idx, dim, |dim|)
    decreases |dim|
  {
    if |dim| > 0 {
      StrideSumShift(idx, dim, |dim| - 1);
      RavelStrides(idx[1..], dim[1..]);
    }
  }

  /** For `a >= 0`, dividing by `b` then by `c` is dividing by `b * c`. */
  lemma DivDiv(a: nat, b: int, c: int)
    requires b > 0 && c > 0
    ensures (a / b) / c == a / (b * c)
  {
    var q, r := a / b, a % b;
    var q2, r2 := q / c, q % c;
    assert a == b * (c * q2 + r2) + r;
    assert a == (b * c) * q2 + (b * r2 + r);
    MulLe(b, r2, c - 1);
    DivUnique(a, b * c, q2, b * r2 + r);
  }

  /** Component `k > 0` of the closed form for `dim` is component `k - 1`
      of the closed form for the remaining dimensions, applied to the
      quotient by the first cardinality. */
  lemma UnravelStep(i: nat, dim: seq<int>, k: int)
    requires Positive(dim) && 0 < k < |dim|
    ensures Positive(dim[1..])
    ensures Unravel(i, dim)[k] == Unravel(i / dim[0], dim[1..])[k - 1]
  {
    var rest := dim[1..];
    assert forall m :: 0 <= m < |rest| ==> rest[m] == dim[m + 1];
    assert dim[..k][1..] == rest[..k - 1];
    assert Stride(dim, k) == dim[0] * Stride(rest, k - 1);
    DivDiv(i, dim[0], Stride(rest, k - 1));
  }

  /** The closed form agrees with the digit-by-digit reference on every
      non-negative counter. */
  lemma {:induction false} UnravelIsDigits(i: nat, dim: seq<int>)
    requires Positive(dim)
    ensures Unravel(i, dim) == Digits(i, dim)
    decreases |dim|
  {
    if |dim| > 0 {
      var rest := dim[1..];
      UnravelIsDigits(i / dim[0], rest);
      forall k | 0 <= k < |dim|
        ensures Unravel(i, dim)[k] == Digits(i, dim)[k]
      {
        if k == 0 {
          assert dim[..0] == [];
        } else {
          UnravelStep(i, dim, k);
        }
      }
    }
  }

  /** Decoding then re-encoding returns the counter. */
  lemma {:induction false} DigitsRavel(i: nat, dim: seq<int>)
    requires Positive(dim) && i < Prod(dim)
    ensures Ravel(Digits(i, dim), dim) == i
    decreases |dim|
  {
    if |dim| > 0 {
      var d0, rest := dim[0], dim[1..];
      var q := i / d0;
      assert i == d0 * q + i % d0;
      if q >= Prod(rest) {
        MulLe(d0, Prod(rest), q);
      }
      DigitsRavel(q, rest);
      assert Digits(i, dim)[1..] == Digits(q, rest);
    }
  }

  /** Encoding a tuple of the box gives a counter in range, and decoding it
      gives the tuple back. */
  lemma {:induction false} RavelDigits(idx: seq<int>, dim: seq<int>)
    requires Positive(dim) && InRange(idx, dim)
    ensures 0 <= Ravel(idx, dim) < Prod(dim)
    ensures Digits(Ravel(idx, dim), dim) == idx
    decreases |dim|
  {
    if |dim| > 0 {
      var d0, rest, tail := dim[0], dim[1..], idx[1..];
      assert InRange(tail, rest);
      RavelDigits(tail, rest);
      var t := Ravel(tail, rest);
      var a := idx[0] + d0 * t;
      MulLe(d0, t, Prod(rest) - 1);
      assert 0 <= a < d0 * Prod(rest);
      DivUnique(a, d0, t, idx[0]);
      assert Digits(a, dim) == [idx[0]] + Digits(t, rest);
    }
  }

  /** Round trip of query.go's enumerator: for every counter in
      `[0, prod dim)`, `sum_k indexN[k] * stride_k` is the counter again. */
  lemma UnravelRoundTrip(index1: int, dim: seq<int>)
    requires Positive(dim) && 0 <= index1 < Prod(dim)
    ensures Ravel(Unravel(index1, dim), dim) == index1
    ensures StrideSum(Unravel(index1, dim), dim, |dim|) == index1
  {
    UnravelIsDigits(index1, dim);
    DigitsRavel(index1, dim);
    RavelStrides(Unravel(index1, dim), dim);
  }

  /** Distinct counters in range give distinct tuples. */
  lemma UnravelInjective(i: int, j: int, dim: seq<int>)
    requires Positive(dim)
    requires 0 <= i < Prod(dim) && 0 <= j < Prod(dim)
    requires Unravel(i, dim) == Unravel(j, dim)
    ensures i == j
  {
    UnravelRoundTrip(i, dim);
    UnravelRoundTrip(j, dim);
  }

  /** Every tuple of the box is hit, by the counter `Ravel(idx, dim)`. */
  lemma UnravelSurjective(idx: seq<int>, dim: seq<int>)
    requires Positive(dim) && InRange(idx, dim)
    ensures 0 <= Ravel(idx, dim) < Prod(dim)
    ensures Unravel(Ravel(idx, dim), dim) == idx
  {
    RavelDigits(idx, dim);
    UnravelIsDigits(Ravel(idx, dim), dim);
  }

  /** The worked example of query.go's comment, dimensions (5, 4, 3):
      n0 = n % 5, n1 = (n / 5) % 4, n2 = (n / 20) % 3. */
  lemma CommentExample(n: nat)
    ensures Prod([5, 4, 3]) == 60
    ensures Unravel(n, [5, 4, 3]) == [n % 5, (n / 5) % 4, (n / 20) % 3]
  {
    var dim := [5, 4, 3];
    assert dim[..0] == [] && dim[..1] == [5] && dim[..2] == [5, 4];
    assert Stride(dim, 2) == 20;
  }
}
