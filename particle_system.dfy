/** The CPU side of src/effects/particle-system.js: the settings merge, the particle count
    clamp, the mode table, and the particle buffers that `update` rewrites in place when a
    particle leaves the visible depth band. The shaders, the material, the colour and the
    scene graph are not part of this model. */
module Particles {
  import opened Wrappers
  import opened MathUtils
  import opened Primitives

  /** The `options` argument: every key a caller may pass, `None` when it is absent. */
  datatype ParticleOptions = ParticleOptions(
    count: Option<real>, baseSize: Option<real>, sizeJitter: Option<real>,
    minLife: Option<real>, maxLife: Option<real>,
    minBrightness: Option<real>, maxBrightness: Option<real>,
    spreadX: Option<real>, spreadY: Option<real>,
    nearDistance: Option<real>, farDistance: Option<real>, speedScale: Option<real>,
    blending: Option<string>, profile: Option<string>, mode: Option<string>,
    noise: Option<real>, glow: Option<real>)

  const NoOptions := ParticleOptions(None, None, None, None, None, None, None, None, None,
                                     None, None, None, None, None, None, None, None)

  /** The merged `settings` object, without the keys nothing reads back on the CPU side
      (`color`, `frustumCulled`, `profile`). */
  datatype Settings = Settings(
    count: real, baseSize: real, sizeJitter: real, minLife: real, maxLife: real,
    minBrightness: real, maxBrightness: real, spreadX: real, spreadY: real,
    nearDistance: real, farDistance: real, speedScale: real,
    blending: string, mode: string, noise: real, glow: real)

  /** `DEFAULT_OPTIONS`. */
  const Defaults := Settings(9000.0, 7.0, 8.0, 0.5, 1.8, 0.25, 1.0, 36.0, 18.0,
                             3.0, 260.0, 0.8, "normal", "dust", 0.0, 0.0)

  /** One entry of `PROFILE_PRESETS`: both entries set exactly these keys. */
  datatype ProfilePreset = ProfilePreset(
    mode: string, count: real, spreadX: real, spreadY: real,
    minBrightness: real, maxBrightness: real, baseSize: real, sizeJitter: real,
    blending: string, speedScale: real)

  const CarPreset := ProfilePreset("dust", 14000.0, 28.0, 10.0, 0.22, 0.8, 9.0, 10.0, "normal", 1.0)
  const BikePreset := ProfilePreset("rain", 9000.0, 34.0, 16.0, 0.35, 1.0, 6.0, 8.0, "additive", 0.78)

  /** `PROFILE_PRESETS[name]`. */
  function Preset(name: string): (p: Option<ProfilePreset>)
    ensures p.Some? <==> name == "car" || name == "bike"
  {
    if name == "car" then Some(CarPreset)
    else if name == "bike" then Some(BikePreset)
    else None
  }

  /** `PROFILE_PRESETS[options.profile] ?? PROFILE_PRESETS.bike`. */
  function ProfileOptions(profile: Option<string>): (p: ProfilePreset)
    ensures profile == Some("car") ==> p == CarPreset
    ensures profile.None? || Preset(profile.value).None? ==> p == BikePreset
  {
    match profile
    case None => BikePreset
    case Some(name) => Preset(name).GetOr(BikePreset)
  }

  /** `{ ...DEFAULT_OPTIONS, ...profileOptions, ...options }`: a key the options carry wins. */
  function MergeSettings(o: ParticleOptions): (s: Settings)
    ensures o.count.Some? ==> s.count == o.count.value
    ensures o.baseSize.Some? ==> s.baseSize == o.baseSize.value
    ensures o.sizeJitter.Some? ==> s.sizeJitter == o.sizeJitter.value
    ensures o.minLife.Some? ==> s.minLife == o.minLife.value
    ensures o.maxLife.Some? ==> s.maxLife == o.maxLife.value
    ensures o.minBrightness.Some? ==> s.minBrightness == o.minBrightness.value
    ensures o.maxBrightness.Some? ==> s.maxBrightness == o.maxBrightness.value
    ensures o.spreadX.Some? ==> s.spreadX == o.spreadX.value
    ensures o.spreadY.Some? ==> s.spreadY == o.spreadY.value
    ensures o.nearDistance.Some? ==> s.nearDistance == o.nearDistance.value
    ensures o.farDistance.Some? ==> s.farDistance == o.farDistance.value
    ensures o.speedScale.Some? ==> s.speedScale == o.speedScale.value
    ensures o.blending.Some? ==> s.blending == o.blending.value
    ensures o.mode.Some? ==> s.mode == o.mode.value
    ensures o.noise.Some? ==> s.noise == o.noise.value
    ensures o.glow.Some? ==> s.glow == o.glow.value
  {
    var p := ProfileOptions(o.profile);
    Settings(
      o.count.GetOr(p.count), o.baseSize.GetOr(p.baseSize), o.sizeJitter.GetOr(p.sizeJitter),
      o.minLife.GetOr(Defaults.minLife), o.maxLife.GetOr(Defaults.maxLife),
      o.minBrightness.GetOr(p.minBrightness), o.maxBrightness.GetOr(p.maxBrightness),
      o.spreadX.GetOr(p.spreadX), o.spreadY.GetOr(p.spreadY),
      o.nearDistance.GetOr(Defaults.nearDistance), o.farDistance.GetOr(Defaults.farDistance),
      o.speedScale.GetOr(p.speedScale),
      o.blending.GetOr(p.blending), o.mode.GetOr(p.mode),
      o.noise.GetOr(Defaults.noise), o.glow.GetOr(Defaults.glow))
  }

  /** Every key a preset sets beats the default when the options leave it out. */
  lemma PresetBeatsDefaults(o: ParticleOptions)
    ensures var s, p := MergeSettings(o), ProfileOptions(o.profile);
      (o.count.None? ==> s.count == p.count) &&
      (o.baseSize.None? ==> s.baseSize == p.baseSize) &&
      (o.sizeJitter.None? ==> s.sizeJitter == p.sizeJitter) &&
      (o.minBrightness.None? ==> s.minBrightness == p.minBrightness) &&
      (o.maxBrightness.None? ==> s.maxBrightness == p.maxBrightness) &&
      (o.spreadX.None? ==> s.spreadX == p.spreadX) &&
      (o.spreadY.None? ==> s.spreadY == p.spreadY) &&
      (o.speedScale.None? ==> s.speedScale == p.speedScale) &&
      (o.blending.None? ==> s.blending == p.blending) &&
      (o.mode.None? ==> s.mode == p.mode)
  {
  }

  /** The keys no preset sets come from `DEFAULT_OPTIONS` when the options leave them out. */
  lemma DefaultsFillTheRest(o: ParticleOptions)
    ensures var s := MergeSettings(o);
      (o.minLife.None? ==> s.minLife == Defaults.minLife) &&
      (o.maxLife.None? ==> s.maxLife == Defaults.maxLife) &&
      (o.nearDistance.None? ==> s.nearDistance == Defaults.nearDistance) &&
      (o.farDistance.None? ==> s.farDistance == Defaults.farDistance) &&
      (o.noise.None? ==> s.noise == Defaults.noise) &&
      (o.glow.None? ==> s.glow == Defaults.glow)
  {
  }

  /** An absent or unknown profile name gives exactly the settings of `'bike'`. */
  lemma UnknownProfileIsBike(o: ParticleOptions)
    requires o.profile.None? || Preset(o.profile.value).None?
    ensures MergeSettings(o) == MergeSettings(o.(profile := Some("bike")))
  {
  }

  /** With no options at all the system runs the bike preset, so its mode is `'rain'`,
      not `DEFAULT_OPTIONS.mode`. */
  lemma NoOptionsIsRain()
    ensures MergeSettings(NoOptions).mode == "rain"
    ensures MergeSettings(NoOptions).count == 9000.0
  {
  }

  /** `Math.max(5000, Math.min(20000, Math.floor(count)))`. */
  function ClampCount(count: real): (n: nat)
    ensures 5000 <= n <= 20000
    ensures 5000 <= count.Floor <= 20000 ==> n == count.Floor
    ensures count.Floor < 5000 ==> n == 5000
    ensures count.Floor > 20000 ==> n == 20000
  {
    var f := count.Floor;
    if f > 20000 then 20000 else if f < 5000 then 5000 else f
  }

  /** `MODE_MAP[name] ?? MODE_MAP.dust`. */
  function ModeIndex(name: string): (k: int)
    ensures 0 <= k <= 2
    ensures name == "rain" ==> k == 1
    ensures name == "snow" ==> k == 2
    ensures name != "rain" && name != "snow" ==> k == 0
  {
    if name == "rain" then 1 else if name == "snow" then 2 else 0
  }

  /** The mode table tells the three modes apart. */
  lemma ModeIndexInjective(a: string, b: string)
    requires a in {"dust", "rain", "snow"} && b in {"dust", "rain", "snow"}
    ensures ModeIndex(a) == ModeIndex(b) <==> a == b
  {
  }

  /** One particle across the five buffers: `position` (x, y, z), `aSeed`, `aLife`,
      `aSize` and `aBrightness`. */
  datatype Particle = Particle(x: real, y: real, z: real, seed: real, life: real, size: real, brightness: real)

  /** The seven `Math.random()` values a particle is drawn from, by buffer. */
  datatype ParticleDraw = ParticleDraw(x: real, y: real, z: real, seed: real, life: real, size: real, brightness: real)

  predicate ParticleDrawOk(d: ParticleDraw) {
    IsUnit(d.x) && IsUnit(d.y) && IsUnit(d.z) && IsUnit(d.seed) &&
    IsUnit(d.life) && IsUnit(d.size) && IsUnit(d.brightness)
  }

  /** The settings under which every `randomRange(min, max)` of the file has min <= max. */
  predicate Ordered(s: Settings) {
    s.spreadX >= 0.0 && s.spreadY >= 0.0 && s.nearDistance <= s.farDistance &&
    s.minLife <= s.maxLife && s.sizeJitter >= 0.0 && s.minBrightness <= s.maxBrightness
  }

  /** Particle i as the initialisation loop draws it (`randomRange` is `RandFloat`). */
  function SpawnParticle(s: Settings, d: ParticleDraw): (r: Particle)
    ensures r.seed == d.seed
    ensures d.z == 0.0 ==> r.z == -s.farDistance
    ensures d.z == 1.0 ==> r.z == -s.nearDistance
  {
    Particle(RandFloat(-s.spreadX, s.spreadX, d.x), RandFloat(-s.spreadY, s.spreadY, d.y),
             RandFloat(-s.farDistance, -s.nearDistance, d.z), d.seed,
             RandFloat(s.minLife, s.maxLife, d.life), s.baseSize + d.size * s.sizeJitter,
             RandFloat(s.minBrightness, s.maxBrightness, d.brightness))
  }

  /** `respawnParticle(index)`: as at initialisation, except that z is put behind the far plane. */
  function RespawnParticle(s: Settings, d: ParticleDraw): (r: Particle)
    ensures r.(z := SpawnParticle(s, d).z) == SpawnParticle(s, d)
    ensures d.z >= 0.0 ==> r.z <= -s.farDistance
  {
    SpawnParticle(s, d).(z := -s.farDistance - d.z * 8.0)
  }

  /** What both drawings share: x, y, life, size and brightness in their ranges. */
  predicate InRanges(s: Settings, p: Particle) {
    -s.spreadX <= p.x <= s.spreadX && -s.spreadY <= p.y <= s.spreadY &&
    s.minLife <= p.life <= s.maxLife && s.baseSize <= p.size <= s.baseSize + s.sizeJitter &&
    s.minBrightness <= p.brightness <= s.maxBrightness && 0.0 <= p.seed < 1.0
  }

  /** A freshly drawn particle starts between the near and the far plane. */
  lemma SpawnBounds(s: Settings, d: ParticleDraw)
    requires ParticleDrawOk(d) && Ordered(s)
    ensures InRanges(s, SpawnParticle(s, d))
    ensures -s.farDistance <= SpawnParticle(s, d).z <= -s.nearDistance
  {
    ProductBounds(s.sizeJitter, d.size);
  }

  /** A respawned particle lands in the 8 units behind the far plane. */
  lemma RespawnBounds(s: Settings, d: ParticleDraw)
    requires ParticleDrawOk(d) && Ordered(s)
    ensures InRanges(s, RespawnParticle(s, d))
    ensures -s.farDistance - 8.0 < RespawnParticle(s, d).z <= -s.farDistance
  {
    SpawnBounds(s, d);
  }

  /** `z > frontThreshold || z < backThreshold` for a camera at depth `cameraZ`. */
  predicate OutOfView(s: Settings, z: real, cameraZ: real) {
    z > cameraZ - s.nearDistance * 0.5 || z < cameraZ - s.farDistance * 1.1
  }

  /** One iteration of the `update` loop. */
  function StepParticle(s: Settings, p: Particle, cameraZ: real, d: ParticleDraw): (r: Particle)
    ensures !OutOfView(s, p.z, cameraZ) ==> r == p
    ensures OutOfView(s, p.z, cameraZ) ==> r == RespawnParticle(s, d)
  {
    if OutOfView(s, p.z, cameraZ) then RespawnParticle(s, d) else p
  }

  function StepParticles(s: Settings, ps: seq<Particle>, cameraZ: real, draws: seq<ParticleDraw>): (r: seq<Particle>)
    requires |draws| >= |ps|
    ensures |r| == |ps|
    ensures forall i :: 0 <= i < |ps| ==> r[i] == StepParticle(s, ps[i], cameraZ, draws[i])
  {
    seq(|ps|, i requires 0 <= i < |ps| => StepParticle(s, ps[i], cameraZ, draws[i]))
  }

  /** Whether the loop sets `dirty`. */
  predicate AnyRespawned(s: Settings, ps: seq<Particle>, cameraZ: real) {
    exists i :: 0 <= i < |ps| && OutOfView(s, ps[i].z, cameraZ)
  }

  /** The loop's `dirty` flag after one more particle. */
  lemma AnyRespawnedExtend(s: Settings, ps: seq<Particle>, i: nat, cameraZ: real)
    requires i < |ps|
    ensures AnyRespawned(s, ps[..i + 1], cameraZ)
        == (AnyRespawned(s, ps[..i], cameraZ) || OutOfView(s, ps[i].z, cameraZ))
  {
    assert ps[..i + 1] == ps[..i] + [ps[i]];
    if OutOfView(s, ps[i].z, cameraZ) {
      assert ps[..i + 1][i] == ps[i];
    }
    if AnyRespawned(s, ps[..i], cameraZ) {
      var k :| 0 <= k < i && OutOfView(s, ps[..i][k].z, cameraZ);
      assert ps[..i + 1][k] == ps[..i][k];
    }
  }

  /** A camera close enough to the origin that the band it keeps contains the respawn slab
      `(-far - 8, -far]`. */
  predicate CameraCoversRespawn(s: Settings, cameraZ: real) {
    s.nearDistance * 0.5 - s.farDistance <= cameraZ <= s.farDistance * 0.1 - 8.0
  }

  /** Under such a camera a respawned particle is inside the band. */
  lemma RespawnIsInView(s: Settings, d: ParticleDraw, cameraZ: real)
    requires ParticleDrawOk(d) && CameraCoversRespawn(s, cameraZ)
    ensures !OutOfView(s, RespawnParticle(s, d).z, cameraZ)
  {
    assert 0.0 <= d.z * 8.0 < 8.0;
  }

  /** So a second `update` under the same camera respawns nothing and changes nothing. */
  lemma StepParticlesIdempotent(s: Settings, ps: seq<Particle>, cameraZ: real,
                                first: seq<ParticleDraw>, second: seq<ParticleDraw>)
    requires |first| >= |ps| && |second| >= |ps|
    requires forall i :: 0 <= i < |first| ==> ParticleDrawOk(first[i])
    requires CameraCoversRespawn(s, cameraZ)
    ensures !AnyRespawned(s, StepParticles(s, ps, cameraZ, first), cameraZ)
    ensures StepParticles(s, StepParticles(s, ps, cameraZ, first), cameraZ, second)
         == StepParticles(s, ps, cameraZ, first)
  {
    var once := StepParticles(s, ps, cameraZ, first);
    forall i | 0 <= i < |once|
      ensures !OutOfView(s, once[i].z, cameraZ)
    {
      if OutOfView(s, ps[i].z, cameraZ) {
        RespawnIsInView(s, first[i], cameraZ);
      }
    }
  }

  /** Five distinct buffers of a system of n particles: `position` holds three values each. */
  ghost predicate Buffers(pos: array<real>, sd: array<real>, lf: array<real>, sz: array<real>, br: array<real>, n: nat) {
    pos.Length == 3 * n && sd.Length == n && lf.Length == n && sz.Length == n && br.Length == n &&
    pos != sd && pos != lf && pos != sz && pos != br &&
    sd != lf && sd != sz && sd != br && lf != sz && lf != br && sz != br
  }

  /** Particle i as the buffers hold it. */
  ghost function ReadParticle(pos: array<real>, sd: array<real>, lf: array<real>, sz: array<real>, br: array<real>,
                              n: nat, i: nat): Particle
    requires Buffers(pos, sd, lf, sz, br, n) && i < n
    reads pos, sd, lf, sz, br
  {
    Particle(pos[3 * i], pos[3 * i + 1], pos[3 * i + 2], sd[i], lf[i], sz[i], br[i])
  }

  /** The seven buffer writes that store one particle; no other particle changes. */
  method WriteParticle(pos: array<real>, sd: array<real>, lf: array<real>, sz: array<real>, br: array<real>,
                       n: nat, i: nat, p: Particle)
    requires Buffers(pos, sd, lf, sz, br, n) && i < n
    modifies pos, sd, lf, sz, br
    ensures ReadParticle(pos, sd, lf, sz, br, n, i) == p
    ensures forall j :: 0 <= j < n && j != i ==>
              ReadParticle(pos, sd, lf, sz, br, n, j) == old(ReadParticle(pos, sd, lf, sz, br, n, j))
  {
    pos[3 * i] := p.x;
    pos[3 * i + 1] := p.y;
    pos[3 * i + 2] := p.z;
    sd[i] := p.seed;
    lf[i] := p.life;
    sz[i] := p.size;
    br[i] := p.brightness;
  }

  /** The object `createParticleSystem(scene, camera, options)` builds. */
  class ParticleSystem {
    const settings: Settings
    const count: nat
    const positions: array<real>
    const seeds: array<real>
    const life: array<real>
    const size: array<real>
    const brightness: array<real>
    var uTime: real
    var uSpeed: real
    var uMode: int
    const uNear: real
    const uFar: real
    const uNoise: real
    const uGlow: real
    /** Whether `needsUpdate` has been set on the five attributes since creation. */
    var uploadFlagged: bool

    ghost predicate Valid() {
      count == ClampCount(settings.count) &&
      Buffers(positions, seeds, life, size, brightness, count) &&
      uNear == settings.nearDistance && uFar == settings.farDistance &&
      uNoise == Max(0.0, settings.noise) && uGlow == Max(0.0, settings.glow)
    }

    ghost function ParticleAt(i: nat): Particle
      requires Valid() && i < count
      reads positions, seeds, life, size, brightness
    {
      ReadParticle(positions, seeds, life, size, brightness, count, i)
    }

    ghost function Particles(): (ps: seq<Particle>)
      requires Valid()
      reads positions, seeds, life, size, brightness
      ensures |ps| == count
      ensures forall i :: 0 <= i < count ==> ps[i] == ParticleAt(i)
    {
      seq(count, i requires 0 <= i < count && Valid()
                   reads positions, seeds, life, size, brightness => ParticleAt(i))
    }

    /** `createParticleSystem`: settings merged, count clamped, particle i drawn from draw i,
        the uniforms set from the settings. */
    constructor (options: ParticleOptions, draws: seq<ParticleDraw>)
      requires |draws| >= ClampCount(MergeSettings(options).count)
      ensures Valid() && settings == MergeSettings(options)
      ensures fresh(positions) && fresh(seeds) && fresh(life) && fresh(size) && fresh(brightness)
      ensures forall i :: 0 <= i < count ==> ParticleAt(i) == SpawnParticle(settings, draws[i])
      ensures uTime == 0.0 && uSpeed == 0.0 && uMode == ModeIndex(settings.mode)
      ensures !uploadFlagged
    {
      var s := MergeSettings(options);
      var n := ClampCount(s.count);
      var pos := new real[3 * n];
      var sd := new real[n];
      var lf := new real[n];
      var sz := new real[n];
      var br := new real[n];
      for i := 0 to n
        invariant forall j :: 0 <= j < i ==> ReadParticle(pos, sd, lf, sz, br, n, j) == SpawnParticle(s, draws[j])
      {
        WriteParticle(pos, sd, lf, sz, br, n, i, SpawnParticle(s, draws[i]));
      }
      settings := s;
      count := n;
      positions, seeds, life, size, brightness := pos, sd, lf, sz, br;
      uTime, uSpeed, uMode := 0.0, 0.0, ModeIndex(s.mode);
      uNear, uFar := s.nearDistance, s.farDistance;
      uNoise, uGlow := Max(0.0, s.noise), Max(0.0, s.glow);
      uploadFlagged := false;
    }

    /** `respawnParticle(index)`: particle `index` is redrawn, every other one is kept. */
    method Respawn(index: nat, d: ParticleDraw)
      requires Valid() && index < count
      modifies positions, seeds, life, size, brightness
      ensures Valid()
      ensures ParticleAt(index) == RespawnParticle(settings, d)
      ensures forall j :: 0 <= j < count && j != index ==> ParticleAt(j) == old(ParticleAt(j))
    {
      WriteParticle(positions, seeds, life, size, brightness, count, index, RespawnParticle(settings, d));
    }

    /** `setMode(modeName)`. */
    method SetMode(modeName: string)
      modifies this`uMode
      ensures uMode == ModeIndex(modeName)
    {
      uMode := ModeIndex(modeName);
    }

    /** `setProfile(profileName)`: an unknown name changes nothing. */
    method SetProfile(profileName: string)
      modifies this`uMode
      ensures Preset(profileName).None? ==> uMode == old(uMode)
      ensures Preset(profileName).Some? ==> uMode == ModeIndex(Preset(profileName).value.mode)
    {
      var preset := Preset(profileName);
      if preset.None? {
        return;
      }
      uMode := ModeIndex(preset.value.mode);
    }

    /** `update(delta, speed, activeCamera)` for a camera at depth `cameraZ`: the clock and
        speed uniforms, then every particle outside the band redrawn from its draw. */
    method Update(delta: real, speed: real, cameraZ: real, draws: seq<ParticleDraw>)
      requires Valid() && |draws| >= count
      modifies this`uTime, this`uSpeed, this`uploadFlagged, positions, seeds, life, size, brightness
      ensures Valid()
      ensures uTime == old(uTime) + delta
      ensures uSpeed == Max(0.0, speed) * settings.speedScale
      ensures Particles() == StepParticles(settings, old(Particles()), cameraZ, draws)
      ensures uploadFlagged == (old(uploadFlagged) || AnyRespawned(settings, old(Particles()), cameraZ))
    {
      ghost var before := Particles();
      uTime := uTime + delta;
      uSpeed := Max(0.0, speed) * settings.speedScale;
      var frontThreshold := cameraZ - settings.nearDistance * 0.5;
      var backThreshold := cameraZ - settings.farDistance * 1.1;
      var dirty := false;
      for i := 0 to count
        invariant Valid()
        invariant forall j :: 0 <= j < i ==> ParticleAt(j) == StepParticle(settings, before[j], cameraZ, draws[j])
        invariant forall j :: i <= j < count ==> ParticleAt(j) == before[j]
        invariant dirty == AnyRespawned(settings, before[..i], cameraZ)
        modifies positions, seeds, life, size, brightness
      {
        AnyRespawnedExtend(settings, before, i, cameraZ);
        var z := positions[i * 3 + 2];
        if z > frontThreshold || z < backThreshold {
          Respawn(i, draws[i]);
          dirty := true;
        }
      }
      assert before[..count] == before;
      if dirty {
        uploadFlagged := true;
      }
      assert Particles() == StepParticles(settings, before, cameraZ, draws);
    }
  }
}
