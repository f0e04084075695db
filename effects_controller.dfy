/** The quality/profile state machine of src/effects/effects-controller.js. The two systems
    it mounts are abstract: the controller records how many times it mounted them, the
    options the particle system was last created with, and the particle system's current
    `uMode`. */
module Effects {
  import opened Wrappers
  import Particles

  datatype Quality = Low | Medium | High

  /** The keys of `QUALITY_PRESETS`. */
  function QualityName(q: Quality): string {
    match q
    case Low => "low"
    case Medium => "medium"
    case High => "high"
  }

  /** `resolveQuality(quality)`: a known quality name, else `'medium'`. */
  function ResolveQuality(name: Option<string>): (q: Quality)
    ensures name.Some? && name.value in {"low", "medium", "high"} ==> QualityName(q) == name.value
    ensures name.None? || name.value !in {"low", "medium", "high"} ==> q == Medium
  {
    match name
    case Some("low") => Low
    case Some("high") => High
    case _ => Medium
  }

  /** Resolving the name of a quality gives that quality back. */
  lemma ResolveQualityName(q: Quality)
    ensures ResolveQuality(Some(QualityName(q))) == q
  {
  }

  datatype Profile = Dust | Rain | Snow

  function ProfileName(p: Profile): string {
    match p
    case Dust => "dust"
    case Rain => "rain"
    case Snow => "snow"
  }

  /** `PROFILE_MODES`, in cycle order. */
  const ProfileModes: seq<string> := ["dust", "rain", "snow"]

  /** `resolveProfile(profile)`: a member of `PROFILE_MODES`, else `'dust'`. */
  function ResolveProfile(name: Option<string>): (p: Profile)
    ensures name.Some? && name.value in ProfileModes ==> ProfileName(p) == name.value
    ensures name.None? || name.value !in ProfileModes ==> p == Dust
  {
    match name
    case Some("rain") => Rain
    case Some("snow") => Snow
    case _ => Dust
  }

  lemma ResolveProfileName(p: Profile)
    ensures ResolveProfile(Some(ProfileName(p))) == p
  {
  }

  /** `PROFILE_MODES.indexOf(profile)` for a resolved profile: never -1. */
  function ProfileIndex(p: Profile): (i: nat)
    ensures i < |ProfileModes| && ProfileModes[i] == ProfileName(p)
  {
    match p
    case Dust => 0
    case Rain => 1
    case Snow => 2
  }

  /** The profile `cycleProfile` moves to: the next entry of the order, which is never the
      profile itself. */
  function NextProfile(p: Profile): (r: Profile)
    ensures ProfileIndex(r) == (ProfileIndex(p) + 1) % |ProfileModes|
    ensures r != p
  {
    ResolveProfile(Some(ProfileModes[(ProfileIndex(p) + 1) % |ProfileModes|]))
  }

  /** The cycle is dust, rain, snow and back to dust, so three steps restore the profile. */
  lemma CycleOrder()
    ensures NextProfile(Dust) == Rain && NextProfile(Rain) == Snow && NextProfile(Snow) == Dust
  {
  }

  lemma CycleThriceRestores(p: Profile)
    ensures NextProfile(NextProfile(NextProfile(p))) == p
    ensures NextProfile(p) != p
  {
    CycleOrder();
  }

  /** `QUALITY_PRESETS[q].particles`. */
  datatype ParticlePreset = ParticlePreset(count: real, noise: real, glow: real)

  function QualityParticles(q: Quality): ParticlePreset {
    match q
    case Low => ParticlePreset(6500.0, 0.0, 0.0)
    case Medium => ParticlePreset(10000.0, 0.15, 0.22)
    case High => ParticlePreset(14500.0, 0.35, 0.4)
  }

  /** The options `mountSystems` passes to `createParticleSystem`:
      `{ ...particlesBase, ...preset.particles, mode: profile }`, where `particlesBase` is
      `{ profile: 'car', nearDistance: 3, farDistance: 220, ...config.particles }`. */
  function MountOptions(configured: Particles.ParticleOptions, q: Quality, p: Profile): (o: Particles.ParticleOptions)
    ensures o.profile == Some(configured.profile.GetOr("car"))
    ensures o.nearDistance == Some(configured.nearDistance.GetOr(3.0))
    ensures o.farDistance == Some(configured.farDistance.GetOr(220.0))
    ensures o.count == Some(QualityParticles(q).count)
    ensures o.mode == Some(ProfileName(p))
  {
    var preset := QualityParticles(q);
    configured.(profile := Some(configured.profile.GetOr("car")),
                nearDistance := Some(configured.nearDistance.GetOr(3.0)),
                farDistance := Some(configured.farDistance.GetOr(220.0)),
                count := Some(preset.count), noise := Some(preset.noise), glow := Some(preset.glow),
                mode := Some(ProfileName(p)))
  }

  /** Whatever the caller configures, a mounted particle system runs the quality's particle
      count, noise and glow, the current profile as its mode, and a count the clamp keeps. */
  lemma MountedSettings(configured: Particles.ParticleOptions, q: Quality, p: Profile)
    ensures var s := Particles.MergeSettings(MountOptions(configured, q, p));
      s.count == QualityParticles(q).count && s.noise == QualityParticles(q).noise &&
      s.glow == QualityParticles(q).glow && s.mode == ProfileName(p) &&
      Particles.ClampCount(s.count) == QualityParticles(q).count.Floor
  {
    var s := Particles.MergeSettings(MountOptions(configured, q, p));
    assert s.count == QualityParticles(q).count;
  }

  /** The `config` argument (its `speedLines` part is not part of this model). */
  datatype EffectsConfig = EffectsConfig(quality: Option<string>, profile: Option<string>,
                                         particles: Particles.ParticleOptions)

  /** What `getState()` returns. */
  datatype EffectsState = EffectsState(quality: string, profile: string)

  /** The closure `createEffectsController(scene, camera, config)` returns. */
  class EffectsController {
    const particlesConfig: Particles.ParticleOptions
    var quality: Quality
    var profile: Profile
    /** How many times `mountSystems` has run. */
    var mountCount: nat
    /** The options the live particle system was created with. */
    var particleOptions: Particles.ParticleOptions
    /** The profile `mountSystems` last saw. */
    ghost var mountedProfile: Profile
    /** The live particle system's `uMode` uniform. */
    var particleMode: int

    ghost predicate Valid()
      reads this
    {
      particleOptions == MountOptions(particlesConfig, quality, mountedProfile) &&
      particleMode == Particles.ModeIndex(ProfileName(profile))
    }

    /** `mountSystems()`: a new particle system from the current quality and profile. */
    method Mount()
      modifies this`particleOptions, this`mountedProfile, this`particleMode, this`mountCount
      ensures mountCount == old(mountCount) + 1
      ensures particleOptions == MountOptions(particlesConfig, quality, profile)
      ensures mountedProfile == profile
      ensures particleMode == Particles.ModeIndex(Particles.MergeSettings(particleOptions).mode)
      ensures Valid()
    {
      particleOptions := MountOptions(particlesConfig, quality, profile);
      mountedProfile := profile;
      particleMode := Particles.ModeIndex(Particles.MergeSettings(particleOptions).mode);
      mountCount := mountCount + 1;
    }

    /** The controller after `createEffectsController`: the systems mounted exactly once. */
    constructor (config: EffectsConfig)
      ensures Valid()
      ensures quality == ResolveQuality(config.quality) && profile == ResolveProfile(config.profile)
      ensures particlesConfig == config.particles
      ensures mountCount == 1
    {
      particlesConfig := config.particles;
      quality := ResolveQuality(config.quality);
      profile := ResolveProfile(config.profile);
      mountCount := 0;
      new;
      Mount();
    }

    /** `setQuality(nextQuality)`: the active quality returns at once; another one is stored
        and the systems are remounted once. */
    method SetQuality(nextQuality: Option<string>) returns (r: Quality)
      requires Valid()
      modifies this`quality, this`particleOptions, this`mountedProfile, this`particleMode, this`mountCount
      ensures Valid()
      ensures r == quality && quality == ResolveQuality(nextQuality)
      ensures ResolveQuality(nextQuality) == old(quality) ==>
                mountCount == old(mountCount) && particleOptions == old(particleOptions) &&
                particleMode == old(particleMode)
      ensures ResolveQuality(nextQuality) != old(quality) ==>
                mountCount == old(mountCount) + 1 &&
                particleOptions == MountOptions(particlesConfig, quality, profile)
      ensures profile == old(profile)
    {
      var resolved := ResolveQuality(nextQuality);
      if resolved == quality {
        return quality;
      }
      quality := resolved;
      Mount();
      return quality;
    }

    /** `setProfile(nextProfile)`: store the resolved profile and forward it to `setMode`. */
    method SetProfile(nextProfile: Option<string>) returns (r: Profile)
      requires Valid()
      modifies this`profile, this`particleMode
      ensures Valid()
      ensures r == profile && profile == ResolveProfile(nextProfile)
      ensures particleMode == Particles.ModeIndex(ProfileName(profile))
    {
      profile := ResolveProfile(nextProfile);
      particleMode := Particles.ModeIndex(ProfileName(profile));
      return profile;
    }

    /** `cycleProfile()`: the next entry of `PROFILE_MODES`, wrapping around. */
    method CycleProfile() returns (r: Profile)
      requires Valid()
      modifies this`profile, this`particleMode
      ensures Valid()
      ensures r == profile && profile == NextProfile(old(profile))
    {
      var currentIndex := ProfileIndex(profile);
      var nextProfile := ProfileModes[(currentIndex + 1) % |ProfileModes|];
      r := SetProfile(Some(nextProfile));
    }

    /** `getState()`: the names of the stored quality and profile, which resolve back to them. */
    function GetState(): (s: EffectsState)
      reads this
      ensures s == EffectsState(QualityName(quality), ProfileName(profile))
      ensures ResolveQuality(Some(s.quality)) == quality && ResolveProfile(Some(s.profile)) == profile
    {
      ResolveQualityName(quality);
      ResolveProfileName(profile);
      EffectsState(QualityName(quality), ProfileName(profile))
    }
  }

  /** Three `cycleProfile` calls leave the controller's profile and mode where they were. */
  method CycleThrice(c: EffectsController)
    requires c.Valid()
    modifies c
    ensures c.Valid() && c.profile == old(c.profile) && c.particleMode == old(c.particleMode)
  {
    var _ := c.CycleProfile();
    var _ := c.CycleProfile();
    var _ := c.CycleProfile();
    CycleThriceRestores(old(c.profile));
  }
}
