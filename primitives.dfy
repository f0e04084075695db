/** The numeric primitives the core calls but whose code is not part of this model:
    `Math.exp`, `Math.sin`, `Math.cos`, `Math.random` and three.js's `MathUtils.randFloat`
    and `MathUtils.randFloatSpread`. Transcendental functions are parameters constrained
    only by their ranges; a call to `Math.random()` is a parameter `u` in [0, 1). */
module Primitives {
  import opened MathUtils

  /** What the model assumes of `Math.exp`: for x <= 0 it lies in (0, 1]. */
  ghost predicate IsExp(exp: real -> real) {
    forall x: real :: x <= 0.0 ==> 0.0 < exp(x) <= 1.0
  }

  /** What the model assumes of `Math.sin` and `Math.cos`: values in [-1, 1]. */
  ghost predicate IsWave(wave: real -> real) {
    forall x: real :: -1.0 <= wave(x) <= 1.0
  }

  /** A call of `Math.sin` or `Math.cos`, whose value lies in [-1, 1]. */
  function Wave(wave: real -> real, x: real): (r: real)
    ensures IsWave(wave) ==> -1.0 <= r <= 1.0
  {
    wave(x)
  }

  /** The frame-rate independent blend `1 - Math.exp(-rate * dt)` used by every smoother of the core. */
  function Blend(rate: real, dt: real, exp: real -> real): (b: real)
    ensures IsExp(exp) && rate * dt >= 0.0 ==> 0.0 <= b < 1.0
  {
    1.0 - exp(-(rate * dt))
  }

  /** A value `Math.random()` can return. */
  predicate IsUnit(u: real) {
    0.0 <= u < 1.0
  }

  /** `randFloat(low, high)` with `Math.random()` = u: `low + u * (high - low)`. */
  function RandFloat(low: real, high: real, u: real): (r: real)
    ensures IsUnit(u) && low <= high ==> low <= r <= high
  {
    if IsUnit(u) && low <= high then
      ProductBounds(high - low, u);
      low + u * (high - low)
    else
      low + u * (high - low)
  }

  /** `randFloatSpread(range)` with `Math.random()` = u: `range * (0.5 - u)`, in (-range/2, range/2]. */
  function RandFloatSpread(range: real, u: real): (r: real)
    ensures IsUnit(u) && range >= 0.0 ==> -range / 2.0 <= r <= range / 2.0
  {
    if IsUnit(u) && range >= 0.0 then
      assert range * (0.5 - u) == range * 0.5 - range * u;
      ProductBounds(range, u);
      range * (0.5 - u)
    else
      range * (0.5 - u)
  }
}
