/** The `EnvironmentManager` class of src/world/environment-manager.js. Its fields are only
    set by the constructor, so the manager is a value here, and its scene handle is not part
    of this model. `update` forwards the world speed to the speed lines and returns the
    camera's new progress. */
module EnvironmentProgress {
  import opened Wrappers

  /** The `config` argument: `{ distanceScale?: number }`. */
  datatype EnvironmentConfig = EnvironmentConfig(distanceScale: Option<real>)

  /** The `speedLines` argument, when one is passed: whether it has an `update` function. */
  datatype SpeedLinesHandle = SpeedLinesHandle(hasUpdate: bool)

  /** `config` is `None` when the caller passed `null`; an omitted argument is `{}`. */
  datatype EnvironmentManager = EnvironmentManager(
    speedLines: Option<SpeedLinesHandle>, config: Option<EnvironmentConfig>)

  /** `new EnvironmentManager(scene, speedLines)` with the default `config = {}`. */
  function Create(speedLines: Option<SpeedLinesHandle>): (m: EnvironmentManager)
    ensures m.speedLines == speedLines
    ensures DistanceScale(m) == 1.0
  {
    EnvironmentManager(speedLines, Some(EnvironmentConfig(None)))
  }

  /** `this.config?.distanceScale ?? 1`. */
  function DistanceScale(m: EnvironmentManager): (s: real)
    ensures m.config.None? ==> s == 1.0
    ensures m.config.Some? && m.config.value.distanceScale.None? ==> s == 1.0
    ensures m.config.Some? && m.config.value.distanceScale.Some? ==> s == m.config.value.distanceScale.value
  {
    match m.config
    case None => 1.0
    case Some(c) => c.distanceScale.GetOr(1.0)
  }

  /** What one `update` call does: the progress it returns and the value it passed to
      `speedLines.update`, if it called it. */
  datatype UpdateResult = UpdateResult(progress: real, forwarded: Option<real>)

  /** `update(cameraProgress, delta, worldSpeed)`. */
  function Update(m: EnvironmentManager, cameraProgress: real, delta: real, worldSpeed: real): (r: UpdateResult)
    ensures r.forwarded.Some? <==> m.speedLines.Some? && m.speedLines.value.hasUpdate
    ensures r.forwarded.Some? ==> r.forwarded.value == worldSpeed
  {
    var forwarded := if m.speedLines.Some? && m.speedLines.value.hasUpdate then Some(worldSpeed) else None;
    UpdateResult(cameraProgress + worldSpeed * delta * DistanceScale(m), forwarded)
  }

  /** `init()` is a placeholder: the manager is the same afterwards. */
  function Init(m: EnvironmentManager): (m': EnvironmentManager)
    ensures m' == m
  {
    m
  }

  /** Progress never goes backwards for a non-negative speed, delta and scale. */
  lemma ProgressNonDecreasing(m: EnvironmentManager, cameraProgress: real, delta: real, worldSpeed: real)
    requires delta >= 0.0 && worldSpeed >= 0.0 && DistanceScale(m) >= 0.0
    ensures Update(m, cameraProgress, delta, worldSpeed).progress >= cameraProgress
  {
    var s := DistanceScale(m);
    assert worldSpeed * delta >= 0.0;
    assert worldSpeed * delta * s >= 0.0;
  }

  /** A zero-length frame leaves the progress where it was. */
  lemma ZeroDeltaKeepsProgress(m: EnvironmentManager, cameraProgress: real, worldSpeed: real)
    ensures Update(m, cameraProgress, 0.0, worldSpeed).progress == cameraProgress
  {
  }

  /** With the default `config`, progress advances by exactly `worldSpeed * delta`. */
  lemma DefaultScaleAdvance(speedLines: Option<SpeedLinesHandle>, cameraProgress: real, delta: real, worldSpeed: real)
    ensures Update(Create(speedLines), cameraProgress, delta, worldSpeed).progress == cameraProgress + worldSpeed * delta
  {
  }

  /** Two frames at the same speed advance the progress as far as one frame of their total
      length: the returned progress is additive in `delta`. */
  lemma {:induction false} ProgressAdditive(m: EnvironmentManager, p: real, d1: real, d2: real, worldSpeed: real)
    ensures Update(m, Update(m, p, d1, worldSpeed).progress, d2, worldSpeed).progress
         == Update(m, p, d1 + d2, worldSpeed).progress
  {
    var s := DistanceScale(m);
    assert worldSpeed * (d1 + d2) * s == worldSpeed * d1 * s + worldSpeed * d2 * s;
  }
}
