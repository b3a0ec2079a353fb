/**
 * Monetary amounts. The application keeps money in BigDecimal with two
 * decimal places; here an amount is an integer number of hundredths
 * (cents), so sums and products of a price by a quantity are exact. The
 * only inexact operation the application performs is BigDecimal.divide with
 * a scale and RoundingMode.HALF_UP, modelled by `HalfUp`.
 */
module Money {

  function Abs(x: int): int { if x < 0 then -x else x }

  /**
   * n / d rounded to the nearest integer, ties away from zero: BigDecimal's
   * HALF_UP. The first two ensures pin the result down uniquely.
   */
  function HalfUp(n: int, d: int): (r: int)
    requires d > 0
    ensures 2 * Abs(n - r * d) <= d
    ensures 2 * Abs(n - r * d) == d ==> Abs(r * d) > Abs(n)
    ensures n >= 0 ==> r >= 0
    ensures n <= 0 ==> r <= 0
  {
    if n >= 0 then
      var q := RoundHalfUpNonNegative(n, d);
      NearestMultiple(n, d, q);
      q
    else
      var q := RoundHalfUpNonNegative(-n, d);
      NearestMultiple(-n, d, q);
      Negated(n, d, q);
      -q
  }

  /** A multiple within half a divisor below or strictly less than half above is nearest, ties away from zero. */
  lemma NearestMultiple(m: int, d: int, q: int)
    requires m >= 0 && d > 0 && q >= 0
    requires -d <= 2 * (m - q * d) < d
    ensures 2 * Abs(m - q * d) <= d
    ensures 2 * Abs(m - q * d) == d ==> Abs(q * d) > Abs(m)
  {
  }

  /** Rounding a negative amount is rounding its magnitude, negated. */
  lemma Negated(n: int, d: int, q: int)
    requires n < 0 && d > 0
    requires 2 * Abs(-n - q * d) <= d
    requires 2 * Abs(-n - q * d) == d ==> Abs(q * d) > Abs(-n)
    ensures 2 * Abs(n - (-q) * d) <= d
    ensures 2 * Abs(n - (-q) * d) == d ==> Abs((-q) * d) > Abs(n)
  {
    var qd := q * d;
    assert (-q) * d == -qd;
  }

  function RoundHalfUpNonNegative(n: int, d: int): (r: int)
    requires n >= 0 && d > 0
    ensures r >= 0
    ensures -d <= 2 * (n - r * d) < d
  {
    var q := (2 * n + d) / (2 * d);
    var m := (2 * n + d) % (2 * d);
    assert 2 * n + d == 2 * d * q + m;
    assert 2 * (n - q * d) == m - d;
    q
  }
}
