/** JavaScript's Math.round over exact reals (round half up), and the real
    Math.min/Math.max the clamps use. */
module Rounding {

  /** Math.round(x) is floor(x + 0.5): the nearest integer, ties rounded up. */
  function Round(x: real): (r: int)
    ensures x - 0.5 < r as real <= x + 0.5
  {
    (x + 0.5).Floor
  }

  /** Rounding an integral value gives it back. */
  lemma RoundOfInt(k: int)
    ensures Round(k as real) == k
  {
  }

  /** Rounding never reverses an order. */
  lemma RoundMonotone(x: real, y: real)
    requires x <= y
    ensures Round(x) <= Round(y)
  {
  }

  /** Math.min and Math.max on two reals. */
  function RMin(a: real, b: real): real { if a <= b then a else b }
  function RMax(a: real, b: real): real { if a >= b then a else b }
}
