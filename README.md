# mini-threejs-speed-effect, modelled in Dafny

This project models the simulation core of a small Three.js driving demo. A camera chases a
vehicle. The scenery scrolls toward the camera and wraps back once it passes. Particles are
redrawn once they leave the visible depth band. An effects controller switches quality and
weather profiles. The modules model these parts of the core:

- `MathUtils` — `clamp` and `lerp` (src/utils/math.js).
- `SpeedControl` — the normalized speed smoother (src/core/speed-controller.js). It keeps a
  clamped target and a current value that chases it at an accelerating or braking rate, and it
  maps the current value to a world speed.
- `WorldSpeedSource` — the world-speed holder (src/core/speedController.ts). It stores the
  non-negative part of every speed it is given.
- `Ground` — the ring of ground tiles (src/world/groundPool.ts).
- `Parallax` — the three-layer parallax scenery (src/world/parallax-layers.ts). It covers the
  load-time multiplier check, the spawn layout of six lanes and 84 objects, and per-object
  recycling.
- `Environment` — the pooled scenery layers (src/world/environmentManager.ts).
- `EnvironmentProgress` — the progress accumulator and speed-lines forwarder
  (src/world/environment-manager.js).
- `Particles` — the CPU side of the particle system (src/effects/particle-system.js). This is
  the settings merge, the count clamp, the mode table, the five particle buffers and the
  respawn loop of `update`.
- `Effects` — the quality/profile controller (src/effects/effects-controller.js).
- `CameraRig` — the cinematic camera rig (src/camera/CinematicCameraRig.ts). It covers preset
  resolution, orientation precedence, the follow spring, the speed-dependent fov and the
  speed-dependent shake.

Code that updates state in place is modelled as classes: the controllers, the tile ring, the
layer pools, the particle buffers and the camera rig. Their methods state their new state in
terms of specification functions. The properties the design relies on are lemmas about those
functions, for example:

- the multiplier check passes exactly when every layer is in range;
- every scenery mesh stays inside its layer's depth window;
- a respawned particle is inside the band, so a second update changes nothing;
- each smoother moves toward its target without overshooting it;
- the shake is bounded by `shakeAmount`;
- three profile cycles restore the profile.

Some things the code calls are not part of this model: `Math.exp`, `Math.sin`, `Math.cos`,
three.js vector normalisation and quaternion rotation. They are function parameters, and only
their ranges are constrained: `IsExp` and `IsWave` in `Primitives`. Every `Math.random()`
value is a parameter in [0, 1). Each object or particle receives its own draw record.

Where the default particle options come in, the code decides the outcome, and the model follows
it. `createParticleSystem` picks the preset from `options.profile` and falls back to
`PROFILE_PRESETS.bike` when that is missing or unknown; `DEFAULT_OPTIONS.profile` is never read
there. So with no options the merged mode is the bike preset's `'rain'`, not
`DEFAULT_OPTIONS.mode`. The lemma `Particles.NoOptionsIsRain` states this.

## Model

| member | source | states |
|---|---|---|
| MathUtils.Clamp | src/utils/math.js:1-3 | the result lies in [min, max] for a non-empty range; it is the value itself inside the range, the nearer bound outside it, and `max` for an empty range |
| MathUtils.ClampIdempotent | src/utils/math.js:1-3 | clamping twice to the same range is clamping once, for every range, empty ones included |
| MathUtils.Lerp | src/utils/math.js:5-7 | t = 0 gives `start` and t = 1 gives `end` |
| MathUtils.LerpBetween | src/utils/math.js:5-7 | for t in [0, 1] the lerp lies between its ends, and the distance left to `end` is the fraction 1 - t of the whole |
| Primitives.Blend | src/core/speed-controller.js:37 | `1 - exp(-rate * dt)` lies in [0, 1) for a non-negative rate * dt |
| Primitives.Wave | src/camera/CinematicCameraRig.ts:159 | a sine or cosine value lies in [-1, 1] |
| Primitives.RandFloat | src/world/parallax-layers.ts:123-124 | `randFloat(low, high)` lies in [low, high] |
| Primitives.RandFloatSpread | src/world/parallax-layers.ts:128 | `randFloatSpread(range)` lies within half the range of 0 |
| SpeedControl.StepCurrent | src/core/speed-controller.js:29-39 | closer than 1e-5 to the target, the step snaps onto the target |
| SpeedControl.StepMovesTowardTarget | src/core/speed-controller.js:29-39 | for non-negative dt and rates, the new value lies between the old value and the target, and the distance to the target never grows |
| SpeedControl.StepRateByDirection | src/core/speed-controller.js:36-38 | away from the snap threshold, the step uses `accelRate` when the target is above the current value and `brakeRate` when it is below |
| SpeedControl.WorldSpeedAt | src/core/speed-controller.js:45-48 | for a normalized speed in [0, 1], the world speed lies in [0.4, 2] times the base speed |
| SpeedControl.WorldSpeedMonotonic | src/core/speed-controller.js:45-48 | a larger normalized speed never gives a smaller world speed |
| SpeedControl.SpeedController.ClampToRange | src/core/speed-controller.js:50-52 | `#clamp` lands in [min, max] and is the identity inside it |
| SpeedControl.SpeedController.constructor | src/core/speed-controller.js:2-19 | every option takes its default when absent; current is the clamped initial value; target equals current; both lie in range |
| SpeedControl.SpeedController.SetTargetNormalized | src/core/speed-controller.js:21-23 | the target becomes the clamped value, and the range invariant is kept |
| SpeedControl.SpeedController.AddInput | src/core/speed-controller.js:25-27 | the target becomes the clamp of target + delta * inputStep |
| SpeedControl.SpeedController.Update | src/core/speed-controller.js:29-39 | current becomes `StepCurrent` of its old value; with a well-behaved exp and non-negative dt and rates it stays in range |
| SpeedControl.SpeedController.GetNormalizedSpeed | src/core/speed-controller.js:41-43 | the result lies in range and equals `current` while the invariant holds |
| SpeedControl.SpeedController.GetWorldSpeed | src/core/speed-controller.js:45-48 | with the default [0, 1] range, the world speed lies in [0.4, 2] times the base speed |
| WorldSpeedSource.StoredSpeed | src/core/speedController.ts:11-13 | the stored speed is never negative; it is the speed itself when non-negative, and 0 otherwise |
| WorldSpeedSource.StoredSpeedIdempotent | src/core/speedController.ts:11-13 | storing a stored speed again changes nothing |
| WorldSpeedSource.WorldSpeedController.constructor | src/core/speedController.ts:6-7 | the initial speed is stored unclamped, defaulting to 1 |
| WorldSpeedSource.WorldSpeedController.SetWorldSpeed | src/core/speedController.ts:11-13 | the new speed is `StoredSpeed(nextSpeed)`, and from then on the stored speed is never negative |
| WorldSpeedSource.WorldSpeedController.GetWorldSpeed | src/core/speedController.ts:10 | returns the stored speed, which is non-negative once `setWorldSpeed` has been called; only the initial speed can be negative |
| Ground.StepTile | src/world/groundPool.ts:30-33 | a tile moves forward by the travel, and back by one ring depth exactly when it passes `recycleZ` |
| Ground.StepTiles | src/world/groundPool.ts:28-35 | every tile is stepped and the count is kept; tiles at or behind `recycleZ` stay there for a travel of at most one ring depth |
| Ground.Run | src/world/groundPool.ts:28-35 | a run of frames keeps the number of tiles, and a run of one frame is one `update` |
| Ground.RunConcat | src/world/groundPool.ts:28-35 | running two stretches of frames in turn is running them as one stretch |
| Ground.RunStaysBehindRecycle | src/world/groundPool.ts:28-35 | over any run of frames each moving at most one ring depth, no tile is ever left past `recycleZ` |
| Ground.NextLaps | src/world/groundPool.ts:30-33 | each tile's lap count rises by one exactly when that tile is moved back, and is otherwise unchanged |
| Ground.ShippedRingStartsBehindRecycle | src/config.ts:40-45 | the shipped ring is 240 units deep and every tile starts at or behind `recycleZ`, as `RunStaysBehindRecycle` requires |
| Ground.StepKeepsLattice | src/world/groundPool.ts:16-35 | each tile stays at its initial slot plus the distance travelled, minus whole ring depths |
| Ground.GroundPool.constructor | src/world/groundPool.ts:16-24 | tile i starts at z = -i * tileLength, and the ring depth is tileCount * tileLength |
| Ground.GroundPool.Update | src/world/groundPool.ts:28-35 | the tiles become `StepTiles` of the old tiles by speed * delta, and the lattice invariant is kept |
| Parallax.AssertLayerMultiplierRange | src/world/parallax-layers.ts:51-65 | the check passes exactly when every multiplier is in its inclusive range; otherwise it throws for the first failing layer in near/mid/far order, with that layer's multiplier and range |
| Parallax.ShippedConfigPasses | src/world/parallax-layers.ts:67 | the load-time check on the shipped table does not throw |
| Parallax.Ceil | src/world/parallax-layers.ts:120 | `Math.ceil` is the least integer not below x |
| Parallax.LaneCount | src/world/parallax-layers.ts:118-120 | a lane spawns `ceil(280 / spacing)` objects |
| Parallax.LaneCountsOfShippedLayers | src/world/parallax-layers.ts:118-120 | near lanes spawn 19 objects, mid lanes 13 and far lanes 10 |
| Parallax.SpawnObject | src/world/parallax-layers.ts:122-137 | object i of a lane: z = 25 - i * spacing, x within 0.55 of the lane, width and height in their scaled ranges, standing on the ground, with the lane's metadata and recycle depth |
| Parallax.SpawnLane | src/world/parallax-layers.ts:122-139 | a lane yields exactly its count of objects |
| Parallax.SpawnLanesLength | src/world/parallax-layers.ts:118-140 | the lanes together yield the sum of their counts |
| Parallax.ShippedLayoutHas84Objects | src/world/parallax-layers.ts:106-140 | the six shipped lanes spawn 84 objects |
| Parallax.Spawn | src/world/parallax-layers.ts:118-140 | the nested spawn loops build exactly `SpawnLanes`, lane by lane and object by object |
| Parallax.FogBlend | src/world/parallax-layers.ts:156 | the fog factor lies in (0, 1]; it is 1 exactly for the near layer, and the far layer is shrunk more than the mid one |
| Parallax.StepObject | src/world/parallax-layers.ts:145-158 | an object moves by baseSpeed * worldSpeed * multiplier * delta; past z = 26 it wraps back by its recycle depth, with x, rotation and fog-shrunk scale in their ranges; its metadata never changes |
| Parallax.StepObjects | src/world/parallax-layers.ts:144-160 | every object keeps its metadata, and the count is kept |
| Parallax.ParallaxLayers.constructor | src/world/parallax-layers.ts:101-140 | the object array is `SpawnLanes` of the shipped lanes |
| Parallax.ParallaxLayers.Update | src/world/parallax-layers.ts:144-160 | the array becomes `StepObjects` of the old array; the metadata of every object is unchanged |
| Environment.PlaceMesh | src/world/environmentManager.ts:32-40 | a placed mesh stands at y = width |
| Environment.AppLayersWellFormed | src/config.ts:47-84 | every shipped layer has positive depth spacing and x spread and an ordered scale range, as the placement and window lemmas require |
| Environment.PlaceMeshInSlot | src/world/environmentManager.ts:34 | mesh i lies in its own depth slot (-(i+1) * spacing, -i * spacing] |
| Environment.PlaceMeshInSpread | src/world/environmentManager.ts:35 | a placed mesh lies within half the spread of x = 0 |
| Environment.PlaceMeshScale | src/world/environmentManager.ts:38 | a placed mesh's scale lies between minScale and maxScale |
| Environment.PlaceMeshes | src/world/environmentManager.ts:32-41 | a layer holds exactly `count` meshes, mesh i placed from draw i |
| Environment.PlaceMeshInWindow | src/world/environmentManager.ts:32-46 | every placed mesh starts inside the window (-recycleDepth, recycleZ] |
| Environment.StepMesh | src/world/environmentManager.ts:67-71 | a mesh moves by the travel; past recycleZ it wraps back by the layer depth with a new x; y and scale never change |
| Environment.StepMeshSpread | src/world/environmentManager.ts:70 | a recycled mesh gets an x within half the spread of 0 |
| Environment.StepMeshKeepsWindow | src/world/environmentManager.ts:66-71 | a frame moving at most one layer depth keeps a mesh inside its window |
| Environment.StepMeshes | src/world/environmentManager.ts:66-72 | every mesh of a layer is stepped with its own draw, and the count is kept |
| Environment.StepMeshesKeepWindow | src/world/environmentManager.ts:66-72 | the window is an invariant of the whole layer |
| Environment.PooledLayer.constructor | src/world/environmentManager.ts:27-47 | `createLayer` places exactly `PlaceMeshes`, with recycleDepth = count * depthSpacing |
| Environment.PooledLayer.Advance | src/world/environmentManager.ts:66-72 | the layer's meshes become `StepMeshes` of the old meshes, in place |
| Environment.EnvironmentManager.constructor | src/world/environmentManager.ts:50-58 | one layer per configured layer, in order, each placed from its draws, with distinct mesh arrays |
| Environment.EnvironmentManager.Update | src/world/environmentManager.ts:62-73 | each layer advances by speed * speedMultiplier * delta, and no layer's update touches another layer |
| EnvironmentProgress.Create | src/world/environment-manager.js:2-6 | the default config gives a distance scale of 1 |
| EnvironmentProgress.DistanceScale | src/world/environment-manager.js:19 | a null config or a missing `distanceScale` falls back to 1; otherwise the configured scale is used |
| EnvironmentProgress.Update | src/world/environment-manager.js:12-21 | the world speed is forwarded exactly when speed lines with an `update` function are present, and it is forwarded unchanged |
| EnvironmentProgress.Init | src/world/environment-manager.js:8-10 | `init` leaves the manager unchanged |
| EnvironmentProgress.ProgressNonDecreasing | src/world/environment-manager.js:20 | a non-negative speed, delta and scale never move progress backwards |
| EnvironmentProgress.ZeroDeltaKeepsProgress | src/world/environment-manager.js:20 | a zero delta keeps the progress |
| EnvironmentProgress.DefaultScaleAdvance | src/world/environment-manager.js:19-20 | with the default config, progress advances by exactly worldSpeed * delta |
| EnvironmentProgress.ProgressAdditive | src/world/environment-manager.js:20 | two frames advance progress as far as one frame of their total length |
| Particles.Preset | src/effects/particle-system.js:31-56 | presets exist exactly for `car` and `bike` |
| Particles.ProfileOptions | src/effects/particle-system.js:61 | `car` gives the car preset; an absent or unknown profile gives the bike preset |
| Particles.MergeSettings | src/effects/particle-system.js:62 | every key the caller passes wins over both the preset and the defaults |
| Particles.PresetBeatsDefaults | src/effects/particle-system.js:61-62 | every key a preset sets beats the default when the caller leaves it out |
| Particles.DefaultsFillTheRest | src/effects/particle-system.js:3-23 | keys no preset sets come from `DEFAULT_OPTIONS` |
| Particles.UnknownProfileIsBike | src/effects/particle-system.js:61 | an absent or unknown profile merges exactly as `bike` |
| Particles.NoOptionsIsRain | src/effects/particle-system.js:61-62 | with no options the mode is `rain` and the count is 9000 |
| Particles.ClampCount | src/effects/particle-system.js:63 | the count is the floor of the setting, clamped into [5000, 20000] |
| Particles.ModeIndex | src/effects/particle-system.js:25-29 | rain maps to 1, snow to 2, and every other name to dust's 0 |
| Particles.ModeIndexInjective | src/effects/particle-system.js:25-29 | the three modes get distinct indices |
| Particles.SpawnParticle | src/effects/particle-system.js:72-81 | the seed is the draw itself, and z runs from the far plane at draw 0 to the near plane at draw 1 |
| Particles.RespawnParticle | src/effects/particle-system.js:171-180 | a respawned particle is drawn as at initialisation except for z, which lies behind the far plane |
| Particles.SpawnBounds | src/effects/particle-system.js:72-81 | an initial particle lies between the far and near planes, with every attribute in its range |
| Particles.RespawnBounds | src/effects/particle-system.js:171-180 | a respawned particle lies in the 8 units behind the far plane, with every attribute in its range |
| Particles.StepParticle | src/effects/particle-system.js:200-206 | a particle inside the band is kept unchanged, and a particle outside it is respawned from its draw |
| Particles.StepParticles | src/effects/particle-system.js:200-206 | every particle is stepped with its own draw, and the count is kept |
| Particles.AnyRespawnedExtend | src/effects/particle-system.js:199-205 | the `dirty` flag after i + 1 particles is the flag after i, or'd with whether particle i is out of view |
| Particles.RespawnIsInView | src/effects/particle-system.js:196-206 | under a camera near the origin, a respawned particle is inside the band |
| Particles.StepParticlesIdempotent | src/effects/particle-system.js:196-206 | after one update under such a camera nothing is out of view, so a second update changes nothing |
| Particles.WriteParticle | src/effects/particle-system.js:172-179 | the seven buffer writes store one particle and leave every other particle unchanged |
| Particles.ParticleSystem.constructor | src/effects/particle-system.js:60-98 | merged settings, clamped count, particle i drawn from draw i, time and speed zero, and the mode from the table |
| Particles.ParticleSystem.Respawn | src/effects/particle-system.js:171-180 | particle `index` is redrawn behind the far plane, and all others are kept |
| Particles.ParticleSystem.SetMode | src/effects/particle-system.js:184-186 | uMode becomes the mode's index |
| Particles.ParticleSystem.SetProfile | src/effects/particle-system.js:187-191 | an unknown profile leaves uMode unchanged; a known one sets its preset's mode |
| Particles.ParticleSystem.Update | src/effects/particle-system.js:192-215 | time advances by delta; uSpeed = max(0, speed) * speedScale; the particles become `StepParticles` of the old particles; the upload flag is set exactly when some particle was out of view |
| Effects.ResolveQuality | src/effects/effects-controller.js:46 | a known quality name resolves to itself, anything else to medium |
| Effects.ResolveQualityName | src/effects/effects-controller.js:46 | resolving a quality's name gives the quality back |
| Effects.ResolveProfile | src/effects/effects-controller.js:47 | a known profile name resolves to itself, anything else to dust |
| Effects.ResolveProfileName | src/effects/effects-controller.js:47 | resolving a profile's name gives the profile back |
| Effects.ProfileIndex | src/effects/effects-controller.js:115 | a resolved profile is always found in `PROFILE_MODES` |
| Effects.NextProfile | src/effects/effects-controller.js:114-116 | the next profile is the next entry of `PROFILE_MODES`, wrapping around, and never the current one |
| Effects.CycleOrder | src/effects/effects-controller.js:114-118 | the cycle goes dust, rain, snow and back to dust |
| Effects.CycleThriceRestores | src/effects/effects-controller.js:114-118 | three cycles restore the profile, and one cycle always changes it |
| Effects.MountOptions | src/effects/effects-controller.js:82-86 | the particle options default profile car, near 3 and far 220, take the quality's count, and take the current profile as mode |
| Effects.MountedSettings | src/effects/effects-controller.js:75-87 | whatever is configured, the mounted particle system runs the quality's count, noise and glow and the current profile's mode |
| Effects.EffectsController.Mount | src/effects/effects-controller.js:75-87 | one more mount, with options from the current quality and profile, and mode index from the merged settings |
| Effects.EffectsController.constructor | src/effects/effects-controller.js:69-95 | resolved quality and profile, with the systems mounted exactly once |
| Effects.EffectsController.SetQuality | src/effects/effects-controller.js:102-108 | the same resolved quality returns with no remount; a different one is stored and remounts exactly once; the profile is kept |
| Effects.EffectsController.SetProfile | src/effects/effects-controller.js:109-113 | the profile is resolved and stored, and the particle mode follows it |
| Effects.EffectsController.CycleProfile | src/effects/effects-controller.js:114-118 | the profile moves to the next entry of `PROFILE_MODES`, wrapping around |
| Effects.EffectsController.GetState | src/effects/effects-controller.js:119-121 | the reported names are the names of the current quality and profile, and they resolve back to them |
| Effects.CycleThrice | src/effects/effects-controller.js:114-118 | three `cycleProfile` calls restore the profile and the particle mode |
| CameraRig.ThreeClamp | src/camera/CinematicCameraRig.ts:141 | three.js's clamp equals `clamp` on a non-empty range |
| CameraRig.ThreeLerp | src/camera/CinematicCameraRig.ts:143 | three.js's lerp `(1 - t) x + t y` equals `lerp` |
| CameraRig.NamedPreset | src/camera/CinematicCameraRig.ts:172 | `action` names the action preset; every other name falls back to default |
| CameraRig.ResolvePreset | src/camera/CinematicCameraRig.ts:171-186 | a name resolves to its preset; an override takes each given field and fills the rest from default |
| CameraRig.ResolvePresetRoundTrip | src/camera/CinematicCameraRig.ts:171-186 | a full override resolves to itself; an empty override and an unknown name resolve to default |
| CameraRig.ResolveOrientation | src/camera/CinematicCameraRig.ts:188-202 | a quaternion wins, then the Euler rotation, then the shortest arc from (0, 0, -1) to the normalised forward vector |
| CameraRig.OrientationPrecedence | src/camera/CinematicCameraRig.ts:188-202 | a given quaternion makes the rotation and forward irrelevant; a given rotation makes forward irrelevant |
| CameraRig.SpeedRatio | src/camera/CinematicCameraRig.ts:141 | the ratio lies in [0, 1] and equals speed / speedForMaxFov when that is inside |
| CameraRig.Ease | src/camera/CinematicCameraRig.ts:142 | the smoothstep fixes 0 and 1 |
| CameraRig.EaseBounds | src/camera/CinematicCameraRig.ts:142 | the smoothstep maps [0, 1] into [0, 1] |
| CameraRig.TargetFov | src/camera/CinematicCameraRig.ts:141-143 | for a positive `speedForMaxFov`, the target is `baseFov` at rest and `maxFov` from `speedForMaxFov` on |
| CameraRig.TargetFovBounds | src/camera/CinematicCameraRig.ts:141-143 | the target fov lies between baseFov and maxFov |
| CameraRig.FovStepTowardTarget | src/camera/CinematicCameraRig.ts:144-146 | for dt > 0 the fov moves toward the target without passing it |
| CameraRig.FovStaysInRange | src/camera/CinematicCameraRig.ts:140-153 | a fov inside [baseFov, maxFov] stays inside, whatever the speed |
| CameraRig.FollowStepTowardDesired | src/camera/CinematicCameraRig.ts:133-134 | each coordinate of the follow point moves toward the desired position without overshooting |
| CameraRig.ShakeBounded | src/camera/CinematicCameraRig.ts:155-160 | the intensity lies in [0, shakeAmount]; the x shake is at most the intensity, the y shake at most half of it, and z is 0 |
| CameraRig.IntensityBounded | src/camera/CinematicCameraRig.ts:156 | the shake intensity lies in [0, shakeAmount] |
| CameraRig.ShakeVectorBounded | src/camera/CinematicCameraRig.ts:159 | the shake vector is bounded by its intensity, and by half of it in y |
| CameraRig.CinematicCameraRig.constructor | src/camera/CinematicCameraRig.ts:85-89 | the preset is `options ?? 'default'` resolved, then the state is as `reset()` leaves it |
| CameraRig.CinematicCameraRig.SetPreset | src/camera/CinematicCameraRig.ts:91-93 | only the preset changes |
| CameraRig.CinematicCameraRig.Reset | src/camera/CinematicCameraRig.ts:105-121 | the follow point is position + offset and the look-at is position + forward * lookAhead; the camera sits there at baseFov; time and shake are zero; the debug snapshot is reset |
| CameraRig.CinematicCameraRig.GetFovDebugState | src/camera/CinematicCameraRig.ts:123-125 | the copy has every field of the snapshot |
| CameraRig.CinematicCameraRig.UpdateFollowSpring | src/camera/CinematicCameraRig.ts:127-138 | the orientation is resolved, the follow point takes one spring step toward the turned offset, and the look-at point is the look-ahead |
| CameraRig.CinematicCameraRig.UpdateFov | src/camera/CinematicCameraRig.ts:140-153 | the fov takes one step toward the speed's target, and the snapshot records speed, ratio, target and the new fov |
| CameraRig.CinematicCameraRig.UpdateShake | src/camera/CinematicCameraRig.ts:155-160 | the shake offset is the bounded shake for the current speed and time |
| CameraRig.CinematicCameraRig.ApplyCameraPose | src/camera/CinematicCameraRig.ts:162-169 | the camera goes to follow point + shake, with world up, looking at the look-ahead point |
| CameraRig.CinematicCameraRig.Update | src/camera/CinematicCameraRig.ts:95-103 | dt <= 0 changes nothing; otherwise time advances and the four steps apply in order; a fov in [baseFov, maxFov] stays there |

## Left out

- Three.js objects are not part of this model: groups, geometries, materials, colours, the HSL tone of `buildMaterial` and the debug colours; only positions, rotations, scales and box sizes are kept.
- The `camera.lookAt` call is recorded as the point looked at; `updateProjectionMatrix` and the camera's quaternion are not modelled.
- Quaternion and Euler arithmetic, vector normalisation and `applyQuaternion` are function parameters: the model records which orientation was chosen, not the rotation it computes.
- Arithmetic is over unbounded reals. `Float32Array` rounding, NaN and infinities are not modelled.
- `CameraRig.SpeedRatio`: with `speedForMaxFov` 0, the source divides by zero. A positive speed gives +Infinity, which clamps to 1; a negative speed gives -Infinity, which clamps to 0. A zero speed gives NaN, which three.js's clamp passes through, while the model gives 0.
- `Math.random()` values are parameters in [0, 1), one per call site, grouped per object or particle; the model does not capture that all draws come from one shared stream in call order.
- The particle motion computed in the GLSL vertex and fragment shaders (src/effects/particle-system.js:105-164) is not part of this model. On the CPU side the buffers change only when particles are redrawn.
- `frustumCulled`, `color` and the blending mode's material effect have no CPU-side behaviour and are not modelled.
- An options key present with the value `undefined` overrides the defaults in an object spread. The model treats it as absent.
- Lookups of prototype keys such as `toString` in `PROFILE_PRESETS`, `MODE_MAP` or `QUALITY_PRESETS` are not modelled; such names act as unknown names.
- CameraRig.NamedPreset: a preset name that is an `Object.prototype` key (`toString`, `constructor`, `__proto__`) is not modelled. `CINEMATIC_CAMERA_PRESETS[name]` is then not nullish, so the `default` fallback is skipped, and `.clone()` on the missing `followOffset` throws (src/camera/CinematicCameraRig.ts:172-176). The model gives the default preset for such names, as it does for every other name except `action`. The TypeScript type of the input admits only `default` and `action`.
- The `dispose` methods (particle-system.js:216-220, effects-controller.js:122-125) and the `dispose` half of `remountSystems` remove scene objects, which are not modelled.
- The speed-lines system (src/effects/speed-lines.js) is not part of this model. The effects controller does not record its options. A remount is counted, but the speed-lines system it rebuilds is not modelled.
- The effects controller's `update` only forwards to the two systems, and it is not modelled; the particle system's own `update` is.
- `activeCamera = camera`: the particle update takes the camera's z as a parameter.
- The rig's scratch vectors (`desiredPosition`, `workingForward`, `rotatedOffset`, `workingEuler`) are locals here.
- The `.d.ts` declaration files, src/main.ts, src/main.js and the UI, input and render-loop modules are not part of this model.
- `CameraRig.CinematicCameraRig.Update`: the fov range [baseFov, maxFov] is preserved per call, not as a class invariant, because `setPreset` and outside writes to the camera can move the fov out of it.
