/** Monetary amounts and the two-decimal rounding applied to fund shares. */
module Money {

  /** Whole cents: the amount is an integer number of hundredths. */
  predicate IsCents(x: real) {
    (x * 100.0).Floor as real == x * 100.0
  }

  /** Rounds a non-negative amount to the nearest cent, a half cent going up. */
  function RoundUpHalf(x: real): (r: real)
    requires x >= 0.0
    ensures IsCents(r)
    ensures x - 0.005 < r <= x + 0.005
    ensures r >= 0.0
  {
    var cents := (x * 100.0 + 0.5).Floor;
    assert cents as real <= x * 100.0 + 0.5 < cents as real + 1.0;
    cents as real / 100.0
  }

  /**
   * `parseFloat(x.toFixed(2))`: rounds to the nearest cent; a negative amount
   * is rounded by magnitude and the sign put back, so halves go away from zero.
   */
  function Round2(x: real): (r: real)
    ensures IsCents(r)
    ensures x - 0.005 <= r <= x + 0.005
    ensures (x >= 0.0 ==> r >= 0.0) && (x <= 0.0 ==> r <= 0.0)
  {
    if x >= 0.0 then RoundUpHalf(x)
    else
      var q := RoundUpHalf(-x);
      NegatedCents(q);
      -q
  }

  lemma NegatedCents(q: real)
    requires IsCents(q)
    ensures IsCents(-q)
  {
    var k := (q * 100.0).Floor;
    assert -q * 100.0 == (-k) as real;
  }

  // Facts of real arithmetic that the solver finds only with a hint.

  lemma DivMul(a: real, m: real)
    requires m > 0.0
    ensures (a * m) / m == a
    ensures (a / m) * m == a
  {
  }

  lemma MulDistributes(x: real, y: real, m: real)
    ensures (x + y) * m == x * m + y * m
  {
  }

  lemma ScaleDistributes(m: real, x: real, y: real)
    ensures m * (x + y) == m * x + m * y
  {
  }

  lemma UnitFactor(x: real, m: real, p: real)
    requires m > 0.0
    requires x * m == p && p == m
    ensures x == 1.0
  {
  }
}
