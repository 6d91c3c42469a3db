/** Facts about real division and multiplication by a positive number, each
    proved on its own so that the models using them reason linearly. */
module RealArith {

  /** Rounding toward zero, as JavaScript's `%` rounds the quotient. */
  function Trunc(x: real): (t: int)
    ensures x >= 0.0 ==> t as real <= x < t as real + 1.0
    ensures x < 0.0 ==> t as real - 1.0 < x <= t as real
  {
    if x >= 0.0 then x.Floor else -((-x).Floor)
  }

  /** Dividing by a positive number keeps the sign. */
  lemma QuotientSign(a: real, b: real)
    requires b > 0.0
    ensures a >= 0.0 <==> a / b >= 0.0
  {
    assert a == (a / b) * b;
    if a / b < 0.0 {
      assert 0.0 - a == (0.0 - a / b) * b;
    }
  }

  /** The quotient of two positive numbers is positive. */
  lemma PositiveQuotient(a: real, b: real)
    requires a > 0.0 && b > 0.0
    ensures a / b > 0.0
  {
    QuotientSign(a, b);
    assert a == (a / b) * b;
  }

  /** A quotient below one comes from a dividend below the divisor. */
  lemma QuotientBelowOne(a: real, b: real)
    requires b > 0.0 && 0.0 <= a < b
    ensures 0.0 <= a / b < 1.0
  {
    QuotientSign(a, b);
    if a / b >= 1.0 {
      MulBelow(1.0, a, b);
    }
  }

  /** A number at most `a / b` times `b` is at most `a`. */
  lemma MulBelow(t: real, a: real, b: real)
    requires b > 0.0 && t <= a / b
    ensures t * b <= a
  {
    assert a - t * b == (a / b - t) * b;
  }

  /** A number above `a / b` times `b` is above `a`. */
  lemma MulAbove(u: real, a: real, b: real)
    requires b > 0.0 && a / b < u
    ensures a < u * b
  {
    assert u * b - a == (u - a / b) * b;
  }

  /** `k` copies of `b` added up: `k * b` written so that the models about
      it reason with additions only. */
  function Times(k: nat, b: real): real
  {
    if k == 0 then 0.0 else Times(k - 1, b) + b
  }

  lemma {:induction false} TimesIsProduct(k: nat, b: real)
    ensures Times(k, b) == k as real * b
  {
    if k > 0 {
      TimesIsProduct(k - 1, b);
      assert (k - 1) as real * b + b == k as real * b;
    }
  }

  /** One or more copies of a positive `b` add up to at least `b`. */
  lemma {:induction false} TimesGrows(k: nat, b: real)
    requires b > 0.0
    ensures Times(k, b) >= 0.0
    ensures k >= 1 ==> Times(k, b) >= b
  {
    if k > 0 {
      TimesGrows(k - 1, b);
    }
  }

  /** The number of whole `b`s in a non-negative `a`: JavaScript's
      truncated quotient `a / b` rounded toward zero. */
  function Quotient(a: real, b: real): (k: nat)
    requires a >= 0.0 && b > 0.0
    ensures Times(k, b) <= a < Times(k, b) + b
  {
    QuotientSign(a, b);
    var k := Trunc(a / b);
    MulBelow(k as real, a, b);
    MulAbove(k as real + 1.0, a, b);
    TimesIsProduct(k, b);
    TimesIsProduct(k + 1, b);
    k
  }
}
