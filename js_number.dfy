/**
 * JavaScript's remainder operator on finite numbers. Unlike Dafny's % on
 * int, it truncates the quotient toward zero, so the remainder takes the
 * sign of the dividend.
 */
module JsNumber {

  /** The quotient rounded toward zero. */
  function Trunc(q: real): (k: int)
    ensures q >= 0.0 ==> 0 <= k && k as real <= q < k as real + 1.0
    ensures q < 0.0 ==> k <= 0 && k as real - 1.0 < q <= k as real
  {
    if q >= 0.0 then q.Floor else -((-q).Floor)
  }

  /**
   * x % m for a positive divisor m, the only kind the simulation divides by.
   * The result keeps the sign of x and is smaller than m in magnitude.
   */
  function Rem(x: real, m: real): (r: real)
    requires m > 0.0
    ensures x >= 0.0 ==> 0.0 <= r < m
    ensures x <= 0.0 ==> -m < r <= 0.0
  {
    var q := x / m;
    var k := Trunc(q);
    RemBounds(x, m, q, k);
    x - m * (k as real)
  }

  lemma RemBounds(x: real, m: real, q: real, k: int)
    requires m > 0.0 && q == x / m && k == Trunc(q)
    ensures x >= 0.0 ==> 0.0 <= x - m * (k as real) < m
    ensures x <= 0.0 ==> -m < x - m * (k as real) <= 0.0
  {
    DivisionInverse(x, m, q);
    ScaledRemainder(x, m, q, k as real);
  }

  lemma DivisionInverse(x: real, m: real, q: real)
    requires m > 0.0 && q == x / m
    ensures x == m * q
  {}

  /** If k is q with a fraction of the same sign cut off, x - m*k is that fraction of m. */
  lemma ScaledRemainder(x: real, m: real, q: real, k: real)
    requires m > 0.0 && x == m * q
    requires -1.0 < q - k < 1.0 && (q >= 0.0 ==> q - k >= 0.0) && (q <= 0.0 ==> q - k <= 0.0)
    ensures x >= 0.0 ==> 0.0 <= x - m * k < m
    ensures x <= 0.0 ==> -m < x - m * k <= 0.0
  {
    var f := q - k;
    var r := x - m * k;
    assert r == m * f;
    ProductSign(m, q);
    ScaleFraction(m, f);
    assert x >= 0.0 ==> f >= 0.0;
    assert x >= 0.0 ==> r < m;
  }

  lemma ProductSign(a: real, b: real)
    requires a > 0.0
    ensures a * b >= 0.0 <==> b >= 0.0
    ensures a * b <= 0.0 <==> b <= 0.0
  {}

  /** A positive number scaled by a fraction in (-1, 1) keeps the fraction's sign and shrinks. */
  lemma ScaleFraction(a: real, f: real)
    requires a > 0.0 && -1.0 < f < 1.0
    ensures f >= 0.0 ==> 0.0 <= a * f < a
    ensures f <= 0.0 ==> -a < a * f <= 0.0
  {
    assert a * f < a * 1.0;
    assert a * f > a * -1.0;
  }

  /** The remainder differs from the dividend by a whole number of divisors. */
  lemma RemIsCongruent(x: real, m: real)
    requires m > 0.0
    ensures Congruent(x, Rem(x, m), m)
  {
    var k := Trunc(x / m);
    assert DiffersByMultiple(x, Rem(x, m), k, m);
  }

  /** x and r differ by a whole number of m. */
  ghost predicate Congruent(x: real, r: real, m: real) {
    exists k: int :: DiffersByMultiple(x, r, k, m)
  }

  /** x and r differ by k times m. */
  predicate DiffersByMultiple(x: real, r: real, k: int, m: real) {
    x - r == (k as real) * m
  }

  /** A dividend already smaller than the divisor in magnitude is returned as it is. */
  lemma {:induction false} RemOfReduced(x: real, m: real)
    requires m > 0.0 && -m < x < m
    ensures Rem(x, m) == x
  {
    var q := x / m;
    assert x == m * q;
    if q >= 1.0 || q <= -1.0 {
      QuotientAtLeastOne(x, m, q);
      assert false;
    }
    assert Trunc(q) == 0;
  }

  lemma QuotientAtLeastOne(x: real, m: real, q: real)
    requires m > 0.0 && x == m * q && (q >= 1.0 || q <= -1.0)
    ensures x >= m || x <= -m
  {
    if q >= 1.0 { assert m * q >= m * 1.0; } else { assert m * q <= m * -1.0; }
  }
}
