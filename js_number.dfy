/**
 * Numbers produced by `parseFloat`. The screens only compare them against fixed
 * thresholds, so a number is a `real`, and NaN is `None`. Every comparison with
 * NaN is false, which is what the predicates below say.
 */
module JsNumber {
  import opened Wrappers

  type Number = Option<real>

  const NaN: Number := None

  predicate IsNaN(x: Number) { x.None? }

  /** `x < c` in JavaScript */
  predicate Lt(x: Number, c: real) { x.Some? && x.value < c }

  /** `x > c` in JavaScript */
  predicate Gt(x: Number, c: real) { x.Some? && x.value > c }

  /** `x <= c` in JavaScript */
  predicate Le(x: Number, c: real) { x.Some? && x.value <= c }

  /** `x >= c` in JavaScript */
  predicate Ge(x: Number, c: real) { x.Some? && x.value >= c }

  /**
   * `x` is no greater than `y` as far as threshold tests can tell: every
   * lower-bound test `Gt`/`Ge` that `x` passes, `y` passes too. NaN is below
   * every number, because it passes no test at all.
   */
  predicate NoGreater(x: Number, y: Number) {
    x.None? || (y.Some? && x.value <= y.value)
  }

  lemma NaNFailsEveryComparison(c: real)
    ensures !Lt(NaN, c) && !Gt(NaN, c) && !Le(NaN, c) && !Ge(NaN, c)
  {
  }

  /** Raising a number keeps every lower-bound test it passed. */
  lemma NoGreaterKeepsLowerBounds(x: Number, y: Number, c: real)
    requires NoGreater(x, y)
    ensures Gt(x, c) ==> Gt(y, c)
    ensures Ge(x, c) ==> Ge(y, c)
  {
  }

  /** `Math.round`: the nearest integer, halves rounded up. */
  function Round(x: real): (r: int)
    ensures x - 0.5 < r as real <= x + 0.5
  {
    (x + 0.5).Floor
  }

  /** `Math.floor` */
  function Floor(x: real): (r: int)
    ensures r as real <= x < r as real + 1.0
  {
    x.Floor
  }

  /** Rounding a whole number plus a fraction never lands below the whole number. */
  lemma RoundShift(n: int, x: real)
    requires 0.0 <= x
    ensures n + Round(x) == Round(n as real + x) && Round(x) >= 0
  {
  }
}
