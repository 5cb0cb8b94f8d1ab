/**
 * JavaScript number formatting used by the dashboards: `Math.round`, and `toFixed(0)`
 * and `toFixed(1)` on non-negative values, all taken on exact rationals.
 */
module Numeric {

  /** `Math.round(x)`: the nearest integer, halves rounded up. */
  function Round(x: real): (r: int)
    ensures r as real - 0.5 <= x < r as real + 0.5
  {
    (x + 0.5).Floor
  }

  lemma RoundMonotone(x: real, y: real)
    requires x <= y
    ensures Round(x) <= Round(y)
  {
  }

  lemma RoundOfInteger(n: int)
    ensures Round(n as real) == n
  {
  }

  /** Rounding keeps a value that lies between two integers between them. */
  lemma RoundBetween(x: real, lo: int, hi: int)
    requires lo as real <= x <= hi as real
    ensures lo <= Round(x) <= hi
  {
    RoundMonotone(lo as real, x);
    RoundMonotone(x, hi as real);
    RoundOfInteger(lo);
    RoundOfInteger(hi);
  }

  /** `Math.round(100 * part / whole)` for counts: a percentage in [0, 100]. */
  function RoundedPercent(part: nat, whole: nat): (r: int)
    requires 0 < whole && part <= whole
    ensures 0 <= r <= 100
    ensures part == whole ==> r == 100
    ensures part == 0 ==> r == 0
    ensures r as real - 0.5 <= part as real / whole as real * 100.0 < r as real + 0.5
  {
    var q := part as real / whole as real;
    var x := q * 100.0;
    assert q * whole as real == part as real;
    ShareBounds(part, whole);
    assert part == whole ==> q == 1.0 by { DivideSelf(whole as real); }
    RoundBetween(x, 0, 100);
    Round(x)
  }

  /** A part of a whole is a share between 0 and 1. */
  lemma ShareBounds(part: nat, whole: nat)
    requires 0 < whole && part <= whole
    ensures 0.0 <= part as real / whole as real <= 1.0
  {
    var q := part as real / whole as real;
    assert q * whole as real == part as real;
    assert (1.0 - q) * whole as real == whole as real - part as real;
    ScaledSign(q, whole as real);
    ScaledSign(1.0 - q, whole as real);
  }

  /** Scaling by a positive factor keeps the sign. */
  lemma ScaledSign(x: real, t: real)
    requires t > 0.0
    ensures x * t >= 0.0 <==> x >= 0.0
  {
    if x < 0.0 {
      assert x * t < 0.0;
    }
  }

  /** A total between `n * lo` and `n * hi` gives a quotient by `n` between `lo` and `hi`. */
  lemma QuotientBetween(total: real, n: real, lo: real, hi: real)
    requires n > 0.0 && n * lo <= total <= n * hi
    ensures lo <= total / n <= hi
  {
    var q := total / n;
    assert q * n == total;
    assert (q - lo) * n == total - n * lo;
    assert (hi - q) * n == n * hi - total;
    ScaledSign(q - lo, n);
    ScaledSign(hi - q, n);
  }

  lemma DivideSelf(w: real)
    requires w > 0.0
    ensures w / w == 1.0
  {
  }

  /** `Math.min` of two whole numbers. */
  function Min(a: int, b: int): int {
    if a <= b then a else b
  }

  /** `Math.min` of two numbers. */
  function MinReal(a: real, b: real): real {
    if a <= b then a else b
  }

  /** `x.toFixed(1)` for `x >= 0`, as a whole number of tenths. */
  function Tenths(x: real): (t: int)
    requires x >= 0.0
    ensures t >= 0
    ensures t as real - 0.5 <= 10.0 * x < t as real + 0.5
  {
    Round(10.0 * x)
  }
}
