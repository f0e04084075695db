/** The normalized speed smoother of src/core/speed-controller.js: a target and a current
    value, both clamped to [min, max], with the current value chasing the target at an
    accelerating or a braking rate. */
module SpeedControl {
  import opened Wrappers
  import opened MathUtils
  import opened Primitives

  /** The constructor's destructured options object; an absent field takes its default. */
  datatype SpeedOptions = SpeedOptions(
    min: Option<real>,
    max: Option<real>,
    initial: Option<real>,
    accelRate: Option<real>,
    brakeRate: Option<real>,
    baseWorldSpeed: Option<real>,
    inputStep: Option<real>)

  /** `new SpeedController()` and `new SpeedController({})`. */
  const NoOptions := SpeedOptions(None, None, None, None, None, None, None)

  /** Below this distance `update` snaps `current` onto `target`. */
  const SnapThreshold: real := 0.00001

  /** The value `update(dt)` gives `current`. */
  function StepCurrent(current: real, target: real, accelRate: real, brakeRate: real,
                       dt: real, exp: real -> real): (r: real)
    ensures Abs(target - current) < SnapThreshold ==> r == target
  {
    var difference := target - current;
    if Abs(difference) < SnapThreshold then
      target
    else
      var rate := if difference > 0.0 then accelRate else brakeRate;
      current + difference * Blend(rate, dt, exp)
  }

  /** For non-negative `dt` and rates the step moves `current` toward `target` and never
      past it. */
  lemma StepMovesTowardTarget(current: real, target: real, accelRate: real, brakeRate: real,
                              dt: real, exp: real -> real)
    requires IsExp(exp) && dt >= 0.0 && accelRate >= 0.0 && brakeRate >= 0.0
    ensures var r := StepCurrent(current, target, accelRate, brakeRate, dt, exp);
            Between(r, current, target) && Abs(target - r) <= Abs(target - current)
  {
    var difference := target - current;
    if Abs(difference) >= SnapThreshold {
      var rate := if difference > 0.0 then accelRate else brakeRate;
      NonNegativeProduct(rate, dt);
      LerpBetween(current, target, Blend(rate, dt, exp));
    }
  }

  /** Away from the snap threshold, `update` smooths at `accelRate` when the target is above
      the current value and at `brakeRate` otherwise. */
  lemma StepRateByDirection(current: real, target: real, accelRate: real, brakeRate: real,
                            dt: real, exp: real -> real)
    requires Abs(target - current) >= SnapThreshold
    ensures target > current ==>
              StepCurrent(current, target, accelRate, brakeRate, dt, exp)
              == current + (target - current) * Blend(accelRate, dt, exp)
    ensures target < current ==>
              StepCurrent(current, target, accelRate, brakeRate, dt, exp)
              == current + (target - current) * Blend(brakeRate, dt, exp)
  {
  }

  /** `baseWorldSpeed * (0.4 + normalized * 1.6)`. */
  function WorldSpeedAt(baseWorldSpeed: real, normalized: real): (r: real)
    ensures baseWorldSpeed >= 0.0 && 0.0 <= normalized <= 1.0 ==>
              0.4 * baseWorldSpeed <= r <= 2.0 * baseWorldSpeed
  {
    if baseWorldSpeed >= 0.0 && 0.0 <= normalized <= 1.0 then
      ProductBounds(baseWorldSpeed, normalized);
      baseWorldSpeed * (0.4 + normalized * 1.6)
    else
      baseWorldSpeed * (0.4 + normalized * 1.6)
  }

  /** A faster normalized speed never yields a slower world speed. */
  lemma WorldSpeedMonotonic(baseWorldSpeed: real, a: real, b: real)
    requires baseWorldSpeed >= 0.0 && a <= b
    ensures WorldSpeedAt(baseWorldSpeed, a) <= WorldSpeedAt(baseWorldSpeed, b)
  {
    assert WorldSpeedAt(baseWorldSpeed, b) - WorldSpeedAt(baseWorldSpeed, a)
           == baseWorldSpeed * ((b - a) * 1.6);
    NonNegativeProduct(baseWorldSpeed, (b - a) * 1.6);
  }

  class SpeedController {
    var min: real
    var max: real
    var current: real
    var target: real
    var accelRate: real
    var brakeRate: real
    var baseWorldSpeed: real
    var inputStep: real

    /** Both values inside the range; kept whenever the range is not empty. */
    ghost predicate Valid()
      reads this
    {
      min <= max && min <= current <= max && min <= target <= max
    }

    /** `#clamp(value)`: `Math.min(this.max, Math.max(this.min, value))`. */
    function ClampToRange(value: real): (r: real)
      reads this
      ensures min <= max ==> min <= r <= max
      ensures min <= value <= max ==> r == value
    {
      Clamp(value, min, max)
    }

    constructor (options: SpeedOptions)
      ensures min == options.min.GetOr(0.0) && max == options.max.GetOr(1.0)
      ensures current == Clamp(options.initial.GetOr(0.0), min, max) && target == current
      ensures accelRate == options.accelRate.GetOr(6.0) && brakeRate == options.brakeRate.GetOr(10.0)
      ensures baseWorldSpeed == options.baseWorldSpeed.GetOr(12.0)
      ensures inputStep == options.inputStep.GetOr(0.08)
      ensures min <= max ==> Valid()
    {
      min := options.min.GetOr(0.0);
      max := options.max.GetOr(1.0);
      current := Clamp(options.initial.GetOr(0.0), options.min.GetOr(0.0), options.max.GetOr(1.0));
      target := current;
      accelRate := options.accelRate.GetOr(6.0);
      brakeRate := options.brakeRate.GetOr(10.0);
      baseWorldSpeed := options.baseWorldSpeed.GetOr(12.0);
      inputStep := options.inputStep.GetOr(0.08);
    }

    method SetTargetNormalized(v: real)
      modifies this`target
      ensures target == ClampToRange(v)
      ensures old(Valid()) ==> Valid()
    {
      target := ClampToRange(v);
    }

    method AddInput(delta: real)
      modifies this`target
      ensures target == ClampToRange(old(target) + delta * inputStep)
      ensures old(Valid()) ==> Valid()
    {
      SetTargetNormalized(target + delta * inputStep);
    }

    method Update(dt: real, exp: real -> real)
      modifies this`current
      ensures current == StepCurrent(old(current), target, accelRate, brakeRate, dt, exp)
      ensures IsExp(exp) && dt >= 0.0 && accelRate >= 0.0 && brakeRate >= 0.0 && old(Valid()) ==> Valid()
    {
      var difference := target - current;
      if Abs(difference) < SnapThreshold {
        current := target;
        return;
      }
      var rate := if difference > 0.0 then accelRate else brakeRate;
      var smoothing := Blend(rate, dt, exp);
      current := current + difference * smoothing;
      if IsExp(exp) && dt >= 0.0 && accelRate >= 0.0 && brakeRate >= 0.0 {
        StepMovesTowardTarget(old(current), target, accelRate, brakeRate, dt, exp);
      }
    }

    function GetNormalizedSpeed(): (r: real)
      reads this
      ensures min <= max ==> min <= r <= max
      ensures Valid() ==> r == current
    {
      ClampToRange(current)
    }

    function GetWorldSpeed(): (r: real)
      reads this
      ensures min == 0.0 && max == 1.0 && baseWorldSpeed >= 0.0 ==>
                0.4 * baseWorldSpeed <= r <= 2.0 * baseWorldSpeed
    {
      WorldSpeedAt(baseWorldSpeed, GetNormalizedSpeed())
    }
  }
}
