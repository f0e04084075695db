/** The `CinematicCameraRig` class of src/camera/CinematicCameraRig.ts: a camera that
    follows a moving target through an exponential spring, widens its field of view with
    speed, and shakes in proportion to speed. Quaternion and vector library calls are
    parameters bundled in `Lib`; the camera is a record of the fields the rig writes. */
module CameraRig {
  import opened Wrappers
  import opened MathUtils
  import opened Primitives

  datatype Vec3 = Vec3(x: real, y: real, z: real)

  const Origin := Vec3(0.0, 0.0, 0.0)
  const WorldUp := Vec3(0.0, 1.0, 0.0)
  const DefaultForward := Vec3(0.0, 0.0, -1.0)

  function Add(a: Vec3, b: Vec3): Vec3 {
    Vec3(a.x + b.x, a.y + b.y, a.z + b.z)
  }

  /** `Vector3.addScaledVector(v, s)` applied to `a`. */
  function AddScaled(a: Vec3, v: Vec3, s: real): Vec3 {
    Vec3(a.x + v.x * s, a.y + v.y * s, a.z + v.z * s)
  }

  /** `Vector3.lerp(v, alpha)`: each component moves the fraction `alpha` of the way to `v`. */
  function LerpVec(a: Vec3, b: Vec3, alpha: real): Vec3 {
    Vec3(Lerp(a.x, b.x, alpha), Lerp(a.y, b.y, alpha), Lerp(a.z, b.z, alpha))
  }

  /** `THREE.MathUtils.clamp(value, min, max)`: `Math.max(min, Math.min(max, value))`. */
  function ThreeClamp(value: real, lo: real, hi: real): (r: real)
    ensures lo <= hi ==> r == Clamp(value, lo, hi)
  {
    Max(lo, Min(hi, value))
  }

  /** `THREE.MathUtils.lerp(x, y, t)`: `(1 - t) * x + t * y`, the same value as `lerp`. */
  function ThreeLerp(x: real, y: real, t: real): (r: real)
    ensures r == Lerp(x, y, t)
  {
    assert (1.0 - t) * x + t * y == x + (y - x) * t;
    (1.0 - t) * x + t * y
  }

  datatype Quaternion = Quaternion(x: real, y: real, z: real, w: real)
  datatype Euler = Euler(x: real, y: real, z: real, order: string)

  /** The rotation held in `workingQuaternion`, by the way it was obtained. */
  datatype Orientation =
    | Given(q: Quaternion)
    | FromEuler(e: Euler)
    | ShortestArc(from: Vec3, to: Vec3)

  /** The library calls the rig makes: `Math.exp`, `Math.sin`, `Math.cos`,
      `Vector3.normalize` and `Vector3.applyQuaternion`. */
  datatype Lib = Lib(exp: real -> real, sin: real -> real, cos: real -> real,
                     normalize: Vec3 -> Vec3, rotate: (Vec3, Orientation) -> Vec3)

  ghost predicate LibOk(lib: Lib) {
    IsExp(lib.exp) && IsWave(lib.sin) && IsWave(lib.cos)
  }

  /** `CameraRigPreset`. */
  datatype Preset = Preset(
    followOffset: Vec3, lookAheadDistance: real, followStiffness: real,
    baseFov: real, maxFov: real, speedForMaxFov: real, fovResponse: real,
    shakeAmount: real, shakeFrequency: real)

  /** `CINEMATIC_CAMERA_PRESETS.default` and `.action`. */
  const DefaultPreset := Preset(Vec3(0.0, 5.0, 14.0), 10.0, 7.0, 60.0, 75.0, 10.0, 5.0, 0.14, 17.0)
  const ActionPreset := Preset(Vec3(0.0, 4.6, 10.5), 13.0, 9.0, 62.0, 82.0, 12.0, 6.0, 0.22, 22.0)

  /** `Partial<CameraRigPreset>`. */
  datatype PresetOverride = PresetOverride(
    followOffset: Option<Vec3>, lookAheadDistance: Option<real>, followStiffness: Option<real>,
    baseFov: Option<real>, maxFov: Option<real>, speedForMaxFov: Option<real>,
    fovResponse: Option<real>, shakeAmount: Option<real>, shakeFrequency: Option<real>)

  /** `CameraRigPresetInput`: a preset name, or an object of overrides. */
  datatype PresetInput = Named(name: string) | Custom(fields: PresetOverride)

  /** `CINEMATIC_CAMERA_PRESETS[name] ?? CINEMATIC_CAMERA_PRESETS.default`. */
  function NamedPreset(name: string): (p: Preset)
    ensures name == "action" ==> p == ActionPreset
    ensures name != "action" ==> p == DefaultPreset
  {
    if name == "action" then ActionPreset else DefaultPreset
  }

  /** `resolvePreset(input)`: every field from the override when it has one, else from the
      base, which is the named preset for a string and `default` for an object. */
  function ResolvePreset(input: PresetInput): (p: Preset)
    ensures input.Named? ==> p == NamedPreset(input.name)
    ensures input.Custom? ==>
      var o := input.fields;
      p.followOffset == o.followOffset.GetOr(DefaultPreset.followOffset) &&
      p.lookAheadDistance == o.lookAheadDistance.GetOr(DefaultPreset.lookAheadDistance) &&
      p.followStiffness == o.followStiffness.GetOr(DefaultPreset.followStiffness) &&
      p.baseFov == o.baseFov.GetOr(DefaultPreset.baseFov) &&
      p.maxFov == o.maxFov.GetOr(DefaultPreset.maxFov) &&
      p.speedForMaxFov == o.speedForMaxFov.GetOr(DefaultPreset.speedForMaxFov) &&
      p.fovResponse == o.fovResponse.GetOr(DefaultPreset.fovResponse) &&
      p.shakeAmount == o.shakeAmount.GetOr(DefaultPreset.shakeAmount) &&
      p.shakeFrequency == o.shakeFrequency.GetOr(DefaultPreset.shakeFrequency)
  {
    var base := if input.Named? then NamedPreset(input.name) else DefaultPreset;
    var o := if input.Named? then PresetOverride(None, None, None, None, None, None, None, None, None)
             else input.fields;
    Preset(o.followOffset.GetOr(base.followOffset),
           o.lookAheadDistance.GetOr(base.lookAheadDistance),
           o.followStiffness.GetOr(base.followStiffness),
           o.baseFov.GetOr(base.baseFov), o.maxFov.GetOr(base.maxFov),
           o.speedForMaxFov.GetOr(base.speedForMaxFov), o.fovResponse.GetOr(base.fovResponse),
           o.shakeAmount.GetOr(base.shakeAmount), o.shakeFrequency.GetOr(base.shakeFrequency))
  }

  /** The override that sets every field of `p`. */
  function FullOverride(p: Preset): PresetOverride {
    PresetOverride(Some(p.followOffset), Some(p.lookAheadDistance), Some(p.followStiffness),
                   Some(p.baseFov), Some(p.maxFov), Some(p.speedForMaxFov), Some(p.fovResponse),
                   Some(p.shakeAmount), Some(p.shakeFrequency))
  }

  /** No field is dropped: a complete override resolves to itself, an empty one to `default`,
      and the name `'car'` (which is not a preset) to `default` as well. */
  lemma ResolvePresetRoundTrip(p: Preset)
    ensures ResolvePreset(Custom(FullOverride(p))) == p
    ensures ResolvePreset(Custom(PresetOverride(None, None, None, None, None, None, None, None, None))) == DefaultPreset
    ensures ResolvePreset(Named("car")) == DefaultPreset
    ensures ResolvePreset(Named("default")) == DefaultPreset && ResolvePreset(Named("action")) == ActionPreset
  {
  }

  /** `CameraTargetTransform`. */
  datatype TargetTransform = TargetTransform(
    position: Vec3, rotation: Option<Euler>, quaternion: Option<Quaternion>, forward: Vec3)

  /** `resolveTargetOrientation`: an explicit quaternion first, else the Euler rotation,
      else the shortest arc from (0, 0, -1) to the normalised forward vector. */
  function ResolveOrientation(t: TargetTransform, normalize: Vec3 -> Vec3): (o: Orientation)
    ensures t.quaternion.Some? ==> o == Given(t.quaternion.value)
    ensures t.quaternion.None? && t.rotation.Some? ==> o == FromEuler(t.rotation.value)
    ensures t.quaternion.None? && t.rotation.None? ==> o == ShortestArc(DefaultForward, normalize(t.forward))
  {
    if t.quaternion.Some? then Given(t.quaternion.value)
    else if t.rotation.Some? then FromEuler(t.rotation.value)
    else ShortestArc(DefaultForward, normalize(t.forward))
  }

  /** The orientation depends on the forward vector only when neither rotation is given,
      and on the Euler rotation only when no quaternion is given. */
  lemma OrientationPrecedence(t: TargetTransform, normalize: Vec3 -> Vec3, forward: Vec3, rotation: Option<Euler>)
    ensures t.quaternion.Some? ==>
              ResolveOrientation(t.(rotation := rotation, forward := forward), normalize)
              == ResolveOrientation(t, normalize)
    ensures t.rotation.Some? ==>
              ResolveOrientation(t.(forward := forward), normalize) == ResolveOrientation(t, normalize)
  {
  }

  /** `clamp(speed / speedForMaxFov, 0, 1)`. A zero `speedForMaxFov` makes the quotient
      +Infinity or -Infinity, which clamp to 1 and 0. */
  function SpeedRatio(speed: real, speedForMaxFov: real): (r: real)
    ensures 0.0 <= r <= 1.0
    ensures speedForMaxFov != 0.0 && 0.0 <= speed / speedForMaxFov <= 1.0 ==> r == speed / speedForMaxFov
  {
    if speedForMaxFov == 0.0 then
      if speed > 0.0 then 1.0 else 0.0
    else
      ThreeClamp(speed / speedForMaxFov, 0.0, 1.0)
  }

  /** The smoothstep `r * r * (3 - 2 * r)`. */
  function Ease(r: real): (e: real)
    ensures r == 0.0 ==> e == 0.0
    ensures r == 1.0 ==> e == 1.0
  {
    r * r * (3.0 - 2.0 * r)
  }

  /** On [0, 1] the eased value stays in [0, 1]: it is r²(3 - 2r), and one minus it is
      (1 - r)²(1 + 2r). */
  lemma EaseBounds(r: real)
    requires 0.0 <= r <= 1.0
    ensures 0.0 <= Ease(r) <= 1.0
  {
    NonNegativeProduct(r * r, 3.0 - 2.0 * r);
    assert 1.0 - Ease(r) == (1.0 - r) * (1.0 - r) * (1.0 + 2.0 * r);
    NonNegativeProduct((1.0 - r) * (1.0 - r), 1.0 + 2.0 * r);
  }

  /** `targetFov` for a speed: the lerp from `baseFov` to `maxFov` by the eased ratio, so
      `baseFov` at rest and `maxFov` from `speedForMaxFov` on. */
  function TargetFov(p: Preset, speed: real): (r: real)
    ensures p.speedForMaxFov > 0.0 && speed <= 0.0 ==> r == p.baseFov
    ensures p.speedForMaxFov > 0.0 && speed >= p.speedForMaxFov ==> r == p.maxFov
  {
    assert p.speedForMaxFov > 0.0 && speed >= p.speedForMaxFov ==> speed / p.speedForMaxFov >= 1.0;
    ThreeLerp(p.baseFov, p.maxFov, Ease(SpeedRatio(speed, p.speedForMaxFov)))
  }

  /** The target lies between `baseFov` and `maxFov`. */
  lemma TargetFovBounds(p: Preset, speed: real)
    ensures Between(TargetFov(p, speed), p.baseFov, p.maxFov)
    ensures p.baseFov <= p.maxFov ==> p.baseFov <= TargetFov(p, speed) <= p.maxFov
  {
    EaseBounds(SpeedRatio(speed, p.speedForMaxFov));
    LerpBetween(p.baseFov, p.maxFov, Ease(SpeedRatio(speed, p.speedForMaxFov)));
  }

  /** The new `camera.fov`: `lerp(fov, targetFov, 1 - exp(-fovResponse * dt))`. */
  function FovStep(fov: real, targetFov: real, fovResponse: real, dt: real, exp: real -> real): real {
    ThreeLerp(fov, targetFov, Blend(fovResponse, dt, exp))
  }

  /** For `dt > 0` and `fovResponse >= 0` the fov moves toward the target without passing it. */
  lemma FovStepTowardTarget(fov: real, targetFov: real, fovResponse: real, dt: real, exp: real -> real)
    requires IsExp(exp) && dt > 0.0 && fovResponse >= 0.0
    ensures Between(FovStep(fov, targetFov, fovResponse, dt, exp), fov, targetFov)
    ensures Abs(targetFov - FovStep(fov, targetFov, fovResponse, dt, exp)) <= Abs(targetFov - fov)
  {
    NonNegativeProduct(fovResponse, dt);
    var b := Blend(fovResponse, dt, exp);
    LerpBetween(fov, targetFov, b);
    ProductBounds(Abs(targetFov - fov), 1.0 - b);
  }

  /** So a fov inside [baseFov, maxFov] stays inside whatever the speed. */
  lemma FovStaysInRange(p: Preset, fov: real, speed: real, dt: real, exp: real -> real)
    requires IsExp(exp) && dt > 0.0 && p.fovResponse >= 0.0
    requires Between(fov, p.baseFov, p.maxFov)
    ensures Between(FovStep(fov, TargetFov(p, speed), p.fovResponse, dt, exp), p.baseFov, p.maxFov)
  {
    TargetFovBounds(p, speed);
    FovStepTowardTarget(fov, TargetFov(p, speed), p.fovResponse, dt, exp);
  }

  /** `desiredPosition`: the target position plus the follow offset turned by the orientation. */
  function DesiredPosition(p: Preset, t: TargetTransform, lib: Lib): Vec3 {
    Add(t.position, lib.rotate(p.followOffset, ResolveOrientation(t, lib.normalize)))
  }

  /** The new `followPosition`: `lerp(desired, 1 - exp(-followStiffness * dt))`. */
  function FollowStep(follow: Vec3, desired: Vec3, stiffness: real, dt: real, exp: real -> real): Vec3 {
    LerpVec(follow, desired, Blend(stiffness, dt, exp))
  }

  /** Each component moves toward the desired position and never overshoots it. */
  lemma FollowStepTowardDesired(follow: Vec3, desired: Vec3, stiffness: real, dt: real, exp: real -> real)
    requires IsExp(exp) && dt > 0.0 && stiffness >= 0.0
    ensures var r := FollowStep(follow, desired, stiffness, dt, exp);
      Between(r.x, follow.x, desired.x) && Between(r.y, follow.y, desired.y) &&
      Between(r.z, follow.z, desired.z) &&
      Abs(desired.x - r.x) <= Abs(desired.x - follow.x) &&
      Abs(desired.y - r.y) <= Abs(desired.y - follow.y) &&
      Abs(desired.z - r.z) <= Abs(desired.z - follow.z)
  {
    NonNegativeProduct(stiffness, dt);
    var b := Blend(stiffness, dt, exp);
    LerpBetween(follow.x, desired.x, b);
    LerpBetween(follow.y, desired.y, b);
    LerpBetween(follow.z, desired.z, b);
    ProductBounds(Abs(desired.x - follow.x), 1.0 - b);
    ProductBounds(Abs(desired.y - follow.y), 1.0 - b);
    ProductBounds(Abs(desired.z - follow.z), 1.0 - b);
  }

  /** `clamp(speed / speedForMaxFov, 0, 1) * shakeAmount`. */
  function ShakeIntensity(p: Preset, speed: real): real {
    SpeedRatio(speed, p.speedForMaxFov) * p.shakeAmount
  }

  /** `updateShake`: `(sin(t) * I, cos(1.37 t) * I * 0.5, 0)` with `t = elapsed * frequency`. */
  function ShakeOffset(p: Preset, speed: real, elapsed: real, lib: Lib): Vec3 {
    ShakeVector(ShakeIntensity(p, speed), ShakePhase(p, elapsed), lib)
  }

  /** `t = elapsedTime * shakeFrequency`. */
  function ShakePhase(p: Preset, elapsed: real): real {
    elapsed * p.shakeFrequency
  }

  function ShakeVector(intensity: real, t: real, lib: Lib): Vec3 {
    Vec3(Wave(lib.sin, t) * intensity, Wave(lib.cos, t * 1.37) * intensity * 0.5, 0.0)
  }

  /** The shake is bounded by the intensity, which is bounded by `shakeAmount`. */
  lemma ShakeBounded(p: Preset, speed: real, elapsed: real, lib: Lib)
    requires LibOk(lib) && p.shakeAmount >= 0.0
    ensures 0.0 <= ShakeIntensity(p, speed) <= p.shakeAmount
    ensures var s, i := ShakeOffset(p, speed, elapsed, lib), ShakeIntensity(p, speed);
      Abs(s.x) <= i && Abs(s.y) <= i / 2.0 && s.z == 0.0
  {
    IntensityBounded(p, speed);
    ShakeVectorBounded(ShakeIntensity(p, speed), ShakePhase(p, elapsed), lib);
  }

  lemma IntensityBounded(p: Preset, speed: real)
    requires p.shakeAmount >= 0.0
    ensures 0.0 <= ShakeIntensity(p, speed) <= p.shakeAmount
  {
    var r := SpeedRatio(speed, p.speedForMaxFov);
    ProductBounds(p.shakeAmount, r);
    assert ShakeIntensity(p, speed) == p.shakeAmount * r;
  }

  lemma ShakeVectorBounded(i: real, t: real, lib: Lib)
    requires LibOk(lib) && i >= 0.0
    ensures var s := ShakeVector(i, t, lib); Abs(s.x) <= i && Abs(s.y) <= i / 2.0 && s.z == 0.0
  {
    WaveScaled(Wave(lib.sin, t), Wave(lib.cos, t * 1.37), i);
  }

  lemma WaveScaled(sv: real, cv: real, i: real)
    requires -1.0 <= sv <= 1.0 && -1.0 <= cv <= 1.0 && i >= 0.0
    ensures Abs(sv * i) <= i && Abs(cv * i * 0.5) <= i / 2.0
  {
    WaveTimes(sv, i);
    WaveTimes(cv, i);
    assert cv * i * 0.5 == (cv * i) * 0.5;
  }

  lemma WaveTimes(w: real, i: real)
    requires -1.0 <= w <= 1.0 && i >= 0.0
    ensures Abs(w * i) <= i
  {
    if w >= 0.0 {
      ProductBounds(i, w);
    } else {
      ProductBounds(i, -w);
    }
  }

  /** `lookAtPosition` during `update`: the target position plus the normalised forward
      vector scaled by `lookAheadDistance`. */
  function LookAtPoint(p: Preset, t: TargetTransform, normalize: Vec3 -> Vec3): Vec3 {
    AddScaled(t.position, normalize(t.forward), p.lookAheadDistance)
  }

  /** `CameraRigFovDebugState`. */
  datatype FovDebugState = FovDebugState(speed: real, normalizedSpeed: real, targetFov: real, actualFov: real)

  /** `Partial<CameraTargetTransform>` as `reset` reads it. */
  datatype PartialTransform = PartialTransform(position: Option<Vec3>, forward: Option<Vec3>)

  /** The fields of the `PerspectiveCamera` the rig writes; `lookTarget` is the last point
      passed to `camera.lookAt`. */
  class Camera {
    var position: Vec3
    var fov: real
    var up: Vec3
    var lookTarget: Vec3

    constructor (position: Vec3, fov: real)
      ensures this.position == position && this.fov == fov
      ensures up == WorldUp && lookTarget == Origin
    {
      this.position := position;
      this.fov := fov;
      up := WorldUp;
      lookTarget := Origin;
    }
  }

  class CinematicCameraRig {
    const camera: Camera
    var preset: Preset
    var followPosition: Vec3
    var lookAtPosition: Vec3
    /** `workingQuaternion`. */
    var orientation: Orientation
    var shakeOffset: Vec3
    var fovDebugState: FovDebugState
    var elapsedTime: real

    /** `new CinematicCameraRig(camera, options)`: resolve `options ?? 'default'`, then `reset()`. */
    constructor (camera: Camera, options: Option<PresetInput>)
      modifies camera
      ensures this.camera == camera
      ensures preset == ResolvePreset(options.GetOr(Named("default")))
      ensures followPosition == preset.followOffset
      ensures lookAtPosition == AddScaled(Origin, DefaultForward, preset.lookAheadDistance)
      ensures camera.position == followPosition && camera.lookTarget == lookAtPosition
      ensures camera.fov == preset.baseFov && camera.up == old(camera.up)
      ensures elapsedTime == 0.0 && shakeOffset == Origin
      ensures fovDebugState == FovDebugState(0.0, 0.0, preset.baseFov, preset.baseFov)
    {
      this.camera := camera;
      preset := ResolvePreset(options.GetOr(Named("default")));
      orientation := Given(Quaternion(0.0, 0.0, 0.0, 1.0));
      new;
      Reset(None);
    }

    /** `setPreset(input)`: only the preset changes; pose, fov and time stay. */
    method SetPreset(input: PresetInput)
      modifies this`preset
      ensures preset == ResolvePreset(input)
    {
      preset := ResolvePreset(input);
    }

    /** `reset(optionalTransform)`: the follow point is the position plus the (unturned)
        offset, the look-at point is ahead along the (unnormalised) forward vector, the fov is
        `baseFov`, and time, shake and the debug speed are zero. */
    method Reset(optionalTransform: Option<PartialTransform>)
      modifies this`followPosition, this`lookAtPosition, this`elapsedTime, this`shakeOffset,
               this`fovDebugState, camera`position, camera`lookTarget, camera`fov
      ensures var position := if optionalTransform.Some? then optionalTransform.value.position.GetOr(Origin) else Origin;
              var forward := if optionalTransform.Some? then optionalTransform.value.forward.GetOr(DefaultForward) else DefaultForward;
              followPosition == Add(position, preset.followOffset) &&
              lookAtPosition == AddScaled(position, forward, preset.lookAheadDistance)
      ensures camera.position == followPosition && camera.lookTarget == lookAtPosition
      ensures camera.fov == preset.baseFov
      ensures elapsedTime == 0.0 && shakeOffset == Origin
      ensures fovDebugState == FovDebugState(0.0, 0.0, preset.baseFov, preset.baseFov)
    {
      var fallbackPosition := Origin;
      var fallbackForward := DefaultForward;
      if optionalTransform.Some? {
        fallbackPosition := optionalTransform.value.position.GetOr(Origin);
        fallbackForward := optionalTransform.value.forward.GetOr(DefaultForward);
      }
      followPosition := Add(fallbackPosition, preset.followOffset);
      lookAtPosition := AddScaled(fallbackPosition, fallbackForward, preset.lookAheadDistance);
      camera.position := followPosition;
      camera.lookTarget := lookAtPosition;
      camera.fov := preset.baseFov;
      elapsedTime := 0.0;
      shakeOffset := Origin;
      fovDebugState := FovDebugState(0.0, 0.0, preset.baseFov, camera.fov);
    }

    /** `getFovDebugState()`: a copy of the snapshot. */
    function GetFovDebugState(): (s: FovDebugState)
      reads this
      ensures s.speed == fovDebugState.speed && s.normalizedSpeed == fovDebugState.normalizedSpeed
      ensures s.targetFov == fovDebugState.targetFov && s.actualFov == fovDebugState.actualFov
    {
      FovDebugState(fovDebugState.speed, fovDebugState.normalizedSpeed,
                    fovDebugState.targetFov, fovDebugState.actualFov)
    }

    /** `updateFollowSpring(dt, targetTransform)`. */
    method UpdateFollowSpring(dt: real, t: TargetTransform, lib: Lib)
      modifies this`orientation, this`followPosition, this`lookAtPosition
      ensures orientation == ResolveOrientation(t, lib.normalize)
      ensures followPosition == FollowStep(old(followPosition), DesiredPosition(preset, t, lib),
                                           preset.followStiffness, dt, lib.exp)
      ensures lookAtPosition == LookAtPoint(preset, t, lib.normalize)
    {
      orientation := ResolveOrientation(t, lib.normalize);
      var rotatedOffset := lib.rotate(preset.followOffset, orientation);
      var desiredPosition := Add(t.position, rotatedOffset);
      var blend := Blend(preset.followStiffness, dt, lib.exp);
      followPosition := LerpVec(followPosition, desiredPosition, blend);
      var workingForward := lib.normalize(t.forward);
      lookAtPosition := AddScaled(t.position, workingForward, preset.lookAheadDistance);
    }

    /** `updateFov(dt, speed)`: the camera fov blends toward the speed's target fov, and the
        snapshot records speed, ratio, target and the new fov. */
    method UpdateFov(dt: real, speed: real, lib: Lib)
      modifies camera`fov, this`fovDebugState
      ensures camera.fov == FovStep(old(camera.fov), TargetFov(preset, speed), preset.fovResponse, dt, lib.exp)
      ensures fovDebugState == FovDebugState(speed, SpeedRatio(speed, preset.speedForMaxFov),
                                             TargetFov(preset, speed), camera.fov)
    {
      var speedRatio := SpeedRatio(speed, preset.speedForMaxFov);
      var easedSpeed := speedRatio * speedRatio * (3.0 - 2.0 * speedRatio);
      var targetFov := ThreeLerp(preset.baseFov, preset.maxFov, easedSpeed);
      var blend := Blend(preset.fovResponse, dt, lib.exp);
      camera.fov := ThreeLerp(camera.fov, targetFov, blend);
      fovDebugState := FovDebugState(speed, speedRatio, targetFov, camera.fov);
    }

    /** `updateShake(speed)`. */
    method UpdateShake(speed: real, lib: Lib)
      modifies this`shakeOffset
      ensures shakeOffset == ShakeOffset(preset, speed, elapsedTime, lib)
    {
      shakeOffset := ShakeOffset(preset, speed, elapsedTime, lib);
    }

    /** `applyCameraPose(targetTransform)`: the camera sits at the follow point plus the
        shake, with world up, looking at the look-ahead point. */
    method ApplyCameraPose(t: TargetTransform, lib: Lib)
      modifies camera`position, camera`up, camera`lookTarget, this`lookAtPosition
      ensures camera.position == Add(followPosition, shakeOffset) && camera.up == WorldUp
      ensures lookAtPosition == LookAtPoint(preset, t, lib.normalize) && camera.lookTarget == lookAtPosition
    {
      camera.position := Add(followPosition, shakeOffset);
      camera.up := WorldUp;
      var workingForward := lib.normalize(t.forward);
      lookAtPosition := AddScaled(t.position, workingForward, preset.lookAheadDistance);
      camera.lookTarget := lookAtPosition;
    }

    /** `update(dt, speed, targetTransform)`: nothing at all for `dt <= 0`; otherwise time
        advances by `dt` and the follow point, fov, shake and pose are updated in turn. */
    method Update(dt: real, speed: real, t: TargetTransform, lib: Lib)
      modifies this, camera
      ensures dt <= 0.0 ==> unchanged(this) && unchanged(camera)
      ensures dt > 0.0 ==>
        elapsedTime == old(elapsedTime) + dt && preset == old(preset) &&
        orientation == ResolveOrientation(t, lib.normalize) &&
        followPosition == FollowStep(old(followPosition), DesiredPosition(preset, t, lib),
                                     preset.followStiffness, dt, lib.exp) &&
        camera.fov == FovStep(old(camera.fov), TargetFov(preset, speed), preset.fovResponse, dt, lib.exp) &&
        fovDebugState == FovDebugState(speed, SpeedRatio(speed, preset.speedForMaxFov),
                                       TargetFov(preset, speed), camera.fov) &&
        shakeOffset == ShakeOffset(preset, speed, elapsedTime, lib) &&
        camera.position == Add(followPosition, shakeOffset) && camera.up == WorldUp &&
        lookAtPosition == LookAtPoint(preset, t, lib.normalize) && camera.lookTarget == lookAtPosition
      ensures dt > 0.0 && IsExp(lib.exp) && preset.fovResponse >= 0.0 &&
              Between(old(camera.fov), preset.baseFov, preset.maxFov) ==>
                Between(camera.fov, preset.baseFov, preset.maxFov)
    {
      if dt <= 0.0 {
        return;
      }
      elapsedTime := elapsedTime + dt;
      UpdateFollowSpring(dt, t, lib);
      UpdateFov(dt, speed, lib);
      UpdateShake(speed, lib);
      ApplyCameraPose(t, lib);
      if IsExp(lib.exp) && preset.fovResponse >= 0.0 && Between(old(camera.fov), preset.baseFov, preset.maxFov) {
        FovStaysInRange(preset, old(camera.fov), speed, dt, lib.exp);
      }
    }
  }
}
