/** Small shared vocabulary: an optional value and sequence flattening. */
module Basics {

  datatype Option<+T> = None | Some(value: T)

  /** Concatenation of a sequence of sequences, in order. */
  function Flatten<T>(xss: seq<seq<T>>): seq<T>
    decreases |xss|
  {
    if |xss| == 0 then [] else Flatten(xss[..|xss| - 1]) + xss[|xss| - 1]
  }

  /** Flattening distributes over concatenation of the outer sequence. */
  lemma {:induction false} FlattenAppend<T>(xss: seq<seq<T>>, yss: seq<seq<T>>)
    ensures Flatten(xss + yss) == Flatten(xss) + Flatten(yss)
    decreases |yss|
  {
    if |yss| == 0 {
      assert xss + yss == xss;
    } else {
      var init := yss[..|yss| - 1];
      assert (xss + yss)[..|xss + yss| - 1] == xss + init;
      FlattenAppend(xss, init);
    }
  }

  /** Flattening one leading block. */
  lemma FlattenCons<T>(xs: seq<T>, yss: seq<seq<T>>)
    ensures Flatten([xs] + yss) == xs + Flatten(yss)
  {
    FlattenAppend([xs], yss);
    assert [xs][..0] == [];
  }

  /** An element of the flattening is an element of some block. */
  lemma {:induction false} FlattenMembers<T>(xss: seq<seq<T>>, x: T)
    ensures x in Flatten(xss) <==> exists i :: 0 <= i < |xss| && x in xss[i]
    decreases |xss|
  {
    if |xss| > 0 {
      var k := |xss| - 1;
      FlattenMembers(xss[..k], x);
      assert forall i :: 0 <= i < k ==> xss[..k][i] == xss[i];
    }
  }

  /** Flattening blocks that all have the same positive length `m`: the
      result has `|xss| * m` elements and element `n` sits in block `n / m`
      at offset `n % m`. */
  lemma FlattenUniform<T>(xss: seq<seq<T>>, m: nat)
    requires m > 0
    requires forall i :: 0 <= i < |xss| ==> |xss[i]| == m
    ensures |Flatten(xss)| == |xss| * m
    ensures forall n :: 0 <= n < |xss| * m ==> n / m < |xss| && Flatten(xss)[n] == xss[n / m][n % m]
  {
    FlattenUniformLength(xss, m);
    forall n | 0 <= n < |xss| * m
      ensures n / m < |xss| && Flatten(xss)[n] == xss[n / m][n % m]
    {
      FlattenUniformAt(xss, m, n);
    }
  }

  lemma {:induction false} FlattenUniformLength<T>(xss: seq<seq<T>>, m: nat)
    requires forall i :: 0 <= i < |xss| ==> |xss[i]| == m
    ensures |Flatten(xss)| == |xss| * m
    decreases |xss|
  {
    if |xss| > 0 {
      var k := |xss| - 1;
      FlattenUniformLength(xss[..k], m);
      MulSucc(k, m);
    }
  }

  /** Element `n` of the flattening, located by division. */
  lemma FlattenUniformAt<T>(xss: seq<seq<T>>, m: nat, n: nat)
    requires m > 0
    requires forall i :: 0 <= i < |xss| ==> |xss[i]| == m
    requires n < |xss| * m
    ensures n / m < |xss|
    ensures |Flatten(xss)| == |xss| * m
    ensures Flatten(xss)[n] == xss[n / m][n % m]
  {
    DivBelow(n, m, |xss|);
    FlattenUniformLength(xss, m);
    DivMod(n, m);
    FlattenBlockAt(xss, m, n / m, n % m);
  }

  /** Offset `j` of block `i` is element `i * m + j` of the flattening. */
  lemma {:induction false} FlattenBlockAt<T>(xss: seq<seq<T>>, m: nat, i: nat, j: nat)
    requires forall i :: 0 <= i < |xss| ==> |xss[i]| == m
    requires i < |xss| && j < m
    ensures i * m + j < |Flatten(xss)|
    ensures Flatten(xss)[i * m + j] == xss[i][j]
    decreases |xss|
  {
    var k := |xss| - 1;
    var init := xss[..k];
    FlattenUniformLength(init, m);
    assert Flatten(xss) == Flatten(init) + xss[k];
    MulSucc(k, m);
    if i < k {
      FlattenBlockAt(init, m, i, j);
    } else {
      assert i * m + j - |Flatten(init)| == j;
    }
  }

  lemma DivMod(n: nat, m: nat)
    requires m > 0
    ensures n == (n / m) * m + n % m && 0 <= n % m < m
  {
  }

  lemma MulSucc(k: nat, m: nat)
    ensures (k + 1) * m == k * m + m
  {
  }

  /** `n < k * m` puts `n / m` below `k`. */
  lemma DivBelow(n: nat, m: nat, k: nat)
    requires m > 0 && n < k * m
    ensures n / m < k
  {
  }

  /** Euclidean quotient and remainder are determined by their defining
      equation. */
  lemma DivUnique(a: int, d: int, q: int, r: int)
    requires d > 0 && 0 <= r < d && a == d * q + r
    ensures a / d == q && a % d == r
  {
    var q', r' := a / d, a % d;
    assert a == d * q' + r';
    if q' > q {
      MulLe(d, q + 1, q');
    } else if q' < q {
      MulLe(d, q' + 1, q);
    }
  }

  lemma MulLe(d: int, x: int, y: int)
    requires d > 0 && x <= y
    ensures d * x <= d * y
  {
  }
}
