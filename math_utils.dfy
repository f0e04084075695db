/** The two helpers of src/utils/math.js, over unbounded reals. */
module MathUtils {

  function Min(a: real, b: real): real { if a <= b then a else b }

  function Max(a: real, b: real): real { if a >= b then a else b }

  /** `x` lies on the closed segment between `a` and `b`, in either order. */
  predicate Between(x: real, a: real, b: real) {
    Min(a, b) <= x <= Max(a, b)
  }

  /** `clamp(value, min, max)`: `Math.min(Math.max(value, min), max)`. */
  function Clamp(value: real, lo: real, hi: real): (r: real)
    ensures lo <= hi ==> lo <= r <= hi
    ensures lo <= value <= hi ==> r == value
    ensures lo <= hi && value < lo ==> r == lo
    ensures value > hi ==> r == hi
    ensures hi < lo ==> r == hi
  {
    Min(Max(value, lo), hi)
  }

  /** Clamping a value that is already clamped changes nothing. */
  lemma ClampIdempotent(value: real, lo: real, hi: real)
    ensures Clamp(Clamp(value, lo, hi), lo, hi) == Clamp(value, lo, hi)
  {
  }

  /** `lerp(start, end, t)`: `start + (end - start) * t`. */
  function Lerp(start: real, end: real, t: real): (r: real)
    ensures t == 0.0 ==> r == start
    ensures t == 1.0 ==> r == end
  {
    start + (end - start) * t
  }

  function Abs(x: real): real { if x < 0.0 then -x else x }

  /** For `t` in [0, 1] the lerp lies between its ends, and the distance left to `end`
      is the fraction `1 - t` of the distance from `start`. */
  lemma LerpBetween(start: real, end: real, t: real)
    requires 0.0 <= t <= 1.0
    ensures Between(Lerp(start, end, t), start, end)
    ensures Abs(end - Lerp(start, end, t)) == (1.0 - t) * Abs(end - start)
  {
    var d := end - start;
    assert end - (start + d * t) == (1.0 - t) * d;
    if d >= 0.0 {
      ProductBounds(d, t);
    } else {
      ProductBounds(-d, t);
    }
  }

  /** A non-negative `d` scaled by `t` in [0, 1] stays in [0, d]. */
  lemma ProductBounds(d: real, t: real)
    requires d >= 0.0 && 0.0 <= t <= 1.0
    ensures 0.0 <= d * t <= d
    ensures 0.0 <= (1.0 - t) * d
  {
    assert d * (1.0 - t) >= 0.0;
  }

  lemma NonNegativeProduct(a: real, b: real)
    requires a >= 0.0 && b >= 0.0
    ensures a * b >= 0.0
  {
  }

  lemma PositiveProduct(a: real, b: real)
    requires a > 0.0 && b > 0.0
    ensures a * b > 0.0
  {
  }
}
