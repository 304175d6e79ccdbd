/** Go's integer operators, written out over Dafny's unbounded `int`.

    Go's `/` truncates toward zero and `%` takes the sign of the dividend,
    whereas Dafny's operators are Euclidean; the two agree only when the
    dividend is non-negative and the divisor positive.  A conversion
    `int32(x)` keeps the low 32 bits as a two's-complement value. */
module GoInt {

  function Abs(x: int): nat {
    if x < 0 then -x else x
  }

  /** Go's `a / b`: the quotient truncated toward zero. */
  function Quo(a: int, b: int): (q: int)
    requires b != 0
    ensures a >= 0 && b > 0 ==> q == a / b
    ensures (a >= 0) == (b > 0) ==> q >= 0
    ensures (a >= 0) != (b > 0) ==> q <= 0
  {
    if b > 0 then
      (if a >= 0 then a / b else -((-a) / b))
    else
      (if a >= 0 then -(a / (-b)) else (-a) / (-b))
  }

  /** Go's `a % b`: the remainder that pairs with `Quo`, so that
      `a == b * Quo(a, b) + Rem(a, b)`. */
  function Rem(a: int, b: int): (r: int)
    requires b != 0
    ensures a >= 0 ==> 0 <= r < Abs(b)
    ensures a < 0 ==> r <= 0 && Abs(r) < Abs(b)
    ensures a >= 0 && b > 0 ==> r == a % b
  {
    if b > 0 then
      (if a >= 0 then a % b else -((-a) % b))
    else
      (if a >= 0 then a % (-b) else -((-a) % (-b)))
  }

  /** Quotient and remainder recombine to the dividend, as Go guarantees. */
  lemma QuoRem(a: int, b: int)
    requires b != 0
    ensures a == b * Quo(a, b) + Rem(a, b)
  {
    if b > 0 {
      if a < 0 {
        var q, r := (-a) / b, (-a) % b;
        assert -a == b * q + r;
        assert Quo(a, b) == -q && Rem(a, b) == -r;
        Negate(b, q);
      }
    } else {
      if a >= 0 {
        var q, r := a / (-b), a % (-b);
        assert a == (-b) * q + r;
        assert Quo(a, b) == -q && Rem(a, b) == r;
        NegateBoth(b, q);
      } else {
        var q, r := (-a) / (-b), (-a) % (-b);
        assert -a == (-b) * q + r;
        assert Quo(a, b) == q && Rem(a, b) == -r;
        Negate(-b, q);
        NegateBoth(b, q);
      }
    }
  }

  lemma Negate(b: int, q: int)
    ensures b * (-q) == -(b * q)
  {
  }

  lemma NegateBoth(b: int, q: int)
    ensures b * (-q) == (-b) * q
  {
  }

  const TwoTo32: int := 0x1_0000_0000
  const TwoTo31: int := 0x8000_0000

  /** Go's conversion `int32(x)` of a wider integer: wrap modulo 2^32 into
      the signed range. */
  function Int32(x: int): (r: int)
    ensures -TwoTo31 <= r < TwoTo31
    ensures (x - r) % TwoTo32 == 0
    ensures -TwoTo31 <= x < TwoTo31 ==> r == x
  {
    (x + TwoTo31) % TwoTo32 - TwoTo31
  }
}
