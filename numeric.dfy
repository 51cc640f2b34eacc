/** Exact-real stand-ins for `Math.random()` and `Math.round`. */
module Numeric {

  /** One result of `Math.random()`: a real number in the half-open interval [0, 1). */
  type Draw = r: real | 0.0 <= r < 1.0

  /** `Math.round(x)`: the integer nearest to `x`, with halves rounded up (toward +infinity). */
  function Round(x: real): (n: int)
    ensures n as real - 0.5 <= x < n as real + 0.5
  {
    (x + 0.5).Floor
  }

  /** `Math.floor(x)`: the largest integer not above `x`. */
  function Floor(x: real): (n: int)
    ensures n as real <= x < n as real + 1.0
  {
    x.Floor
  }

  /** Rounding is monotone. */
  lemma RoundMonotone(x: real, y: real)
    requires x <= y
    ensures Round(x) <= Round(y)
  {
  }

  /** Shifting by a whole number shifts the rounded value by that number. */
  lemma RoundShift(x: real, k: int)
    ensures Round(x + k as real) == Round(x) + k
  {
  }

  /** A value in the half-open interval [lo, hi) between two integers rounds into [lo, hi]. */
  lemma RoundWithin(x: real, lo: int, hi: int)
    requires lo as real <= x < hi as real
    ensures lo <= Round(x) <= hi
  {
  }
}
