/**
 * Number helpers shared by the scoring engine: JavaScript's `Math.round`,
 * `Math.max`/`Math.min`, and the engine's `clamp`, all over exact reals.
 */
module Numeric {

  function Max(a: real, b: real): (r: real)
    ensures r >= a && r >= b
    ensures r == a || r == b
  {
    if a >= b then a else b
  }

  function Min(a: real, b: real): (r: real)
    ensures r <= a && r <= b
    ensures r == a || r == b
  {
    if a <= b then a else b
  }

  /** `Math.round`: the nearest integer, ties going up (also for negative x). */
  function Round(x: real): (r: int)
    ensures r as real <= x + 0.5 < r as real + 1.0
  {
    (x + 0.5).Floor
  }

  /** `clamp(val, min, max)` with the engine's default bounds 0 and 100. */
  function Clamp(v: real, lo: real := 0.0, hi: real := 100.0): (r: real)
    requires lo <= hi
    ensures lo <= r <= hi
    ensures lo <= v <= hi ==> r == v
    ensures v < lo ==> r == lo
    ensures v > hi ==> r == hi
  {
    Min(hi, Max(lo, v))
  }

  /** A rounded-and-clamped score, `clamp(Math.round(raw))`, as an integer. */
  function ScoreOf(raw: real): (s: int)
    ensures 0 <= s <= 100
    ensures 0 <= Round(raw) <= 100 ==> s == Round(raw)
    ensures Round(raw) < 0 ==> s == 0
    ensures Round(raw) > 100 ==> s == 100
  {
    Clamp(Round(raw) as real).Floor
  }

  /** Rounding never reverses the order of two numbers. */
  lemma RoundMonotone(x: real, y: real)
    requires x <= y
    ensures Round(x) <= Round(y)
  {
  }

  /** A score never drops when the raw value it is made from grows. */
  lemma ScoreOfMonotone(x: real, y: real)
    requires x <= y
    ensures ScoreOf(x) <= ScoreOf(y)
  {
    RoundMonotone(x, y);
  }
}
