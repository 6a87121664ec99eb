/** The sketch's global state and the handlers that change it: particle-list setup and resizing,
    territory and chemistry derivation, variant reseeding, the mouse and keyboard state machine,
    the AM proxy's parameters and the per-frame cohesion and count update. */
module MandibularField {
  import opened Wrappers
  import opened P5Math
  import opened TerritoryModel
  import opened SymbolicChemistry
  import opened Variants
  import opened Session
  import opened AmProxy
  import opened ParticlePool
  import opened Particles

  const MaxParticlesBase: int := 720

  /** A key event: a printable key (`key`), an arrow key (`keyCode`), or any other key. */
  datatype Key = Char(c: char) | UpArrow | DownArrow | OtherKey

  predicate IsRestartKey(k: Key) { k == Char('r') || k == Char('R') }
  predicate IsReseedKey(k: Key) { k == Char('v') || k == Char('V') }
  predicate IsChemistryKey(k: Key) { k == Char('c') || k == Char('C') }

  /** The keys `keyPressed` reacts to; every other key leaves the state alone. */
  predicate IsCommandKey(k: Key)
  {
    k == Char(' ') || k == UpArrow || k == DownArrow || IsRestartKey(k) || IsReseedKey(k) || IsChemistryKey(k)
  }

  /** How a geolocation request settled: no geolocation capability, a position, or an error/timeout. */
  datatype LocationOutcome = NoGeolocation | Located(lat: real, lon: real) | LocationFailed

  /** A snapshot of every global the handlers touch. */
  datatype SketchState = SketchState(
    particles: seq<Particle>, started: bool, paused: bool, intensity: real, cohesion: real,
    sessionStartMs: real, territory: Territory, chem: Chem, chemicalMode: bool,
    variantSeed: int, variant: Variant, amParams: Option<AmParams>)

  class Sketch {
    var particles: seq<Particle>
    var started: bool
    var paused: bool
    var intensity: real
    var cohesion: real
    var sessionStartMs: real
    var territory: Territory
    var chem: Chem
    var chemicalMode: bool
    var variantSeed: int
    var variant: Variant
    var amParams: Option<AmParams>

    ghost function State(): SketchState
      reads this
    {
      SketchState(particles, started, paused, intensity, cohesion, sessionStartMs, territory, chem,
                  chemicalMode, variantSeed, variant, amParams)
    }

    /** What every handler preserves: intensity and cohesion in [0, 1], the derived parameters in
        range, a particle count in [350, 1100], no pause and no proxy before the first click. */
    ghost predicate Valid()
      reads this
    {
      && 0.0 <= intensity <= 1.0
      && 0.0 <= cohesion <= 1.0
      && DerivedInRange(territory)
      && ChemInRange(chem)
      && VariantInRange(variant)
      && (amParams.Some? ==> ParamsInRange(amParams.value))
      && MinCount <= |particles| <= MaxCount
      && (!started ==> !paused && amParams.None?)
    }

    /** The globals' initial values, then `setup`'s `initParticles(MAX_PARTICLES_BASE)`. */
    constructor(supply: seq<Particle>)
      requires MaxParticlesBase <= |supply|
      ensures Valid()
      ensures State() == SketchState(supply[..MaxParticlesBase], false, false, 0.68, 0.0, 0.0, Initial(),
                                     InitialChem(), true, 1, InitialVariant(), None)
    {
      started, paused := false, false;
      intensity, cohesion, sessionStartMs := 0.68, 0.0, 0.0;
      territory, chem, chemicalMode := Initial(), InitialChem(), true;
      variantSeed, variant := 1, InitialVariant();
      amParams := None;
      new;
      InitParticles(MaxParticlesBase, supply);
      InitialInRange();
      InitialChemInRange();
    }

    /** `initParticles(n)`: the list becomes exactly n fresh particles, the first n of `supply`. */
    method InitParticles(n: nat, supply: seq<Particle>)
      requires n <= |supply|
      modifies this`particles
      ensures particles == supply[..n]
    {
      particles := [];
      var i := 0;
      while i < n
        invariant 0 <= i <= n
        invariant particles == supply[..i]
      {
        particles := particles + [supply[i]];
        i := i + 1;
      }
    }

    /** `adjustParticleCount(target)`: one bounded step toward the clamped target. */
    method AdjustParticleCount(target: int, supply: seq<Particle>)
      requires FreshNeeded(|particles|, target) <= |supply|
      modifies this`particles
      ensures particles == Adjusted(old(particles), target, supply)
    {
      var c := ConstrainInt(target, MinCount, MaxCount);
      if |particles| < c {
        var add := MinInt(MaxStep, c - |particles|);
        ghost var before := particles;
        var i := 0;
        while i < add
          invariant 0 <= i <= add
          invariant particles == before + supply[..i]
        {
          particles := particles + [supply[i]];
          i := i + 1;
        }
      } else if |particles| > c {
        particles := particles[MinInt(MaxStep, |particles| - c)..];
      }
    }

    /** `deriveChemicalLayer`. */
    method DeriveChemicalLayer()
      modifies this`chem
      ensures chem == ChemistryOf(territory)
      ensures ChemInRange(chem)
    {
      chem := ChemistryOf(territory);
    }

    /** `deriveTerritoryParams`, which ends by re-deriving the chemistry. */
    method DeriveTerritoryParams()
      modifies this`territory, this`chem
      ensures territory == Derived(old(territory)) && chem == ChemistryOf(territory)
      ensures DerivedInRange(territory) && ChemInRange(chem)
    {
      DerivedInRangeAlways(territory);
      territory := Derived(territory);
      DeriveChemicalLayer();
    }

    /** The callbacks of `requestTerritory`: a position is stored (its weather request follows);
        a failure clears the geolocation flag; either a failure or no capability re-derives. */
    method LocationSettled(outcome: LocationOutcome)
      requires Valid()
      modifies this`territory, this`chem
      ensures Valid()
      ensures outcome.Located? ==>
                territory == old(territory).(lat := outcome.lat, lon := outcome.lon, hasGeo := true) && chem == old(chem)
      ensures outcome.LocationFailed? ==>
                territory == Derived(old(territory).(hasGeo := false)) && chem == ChemistryOf(territory)
      ensures outcome.NoGeolocation? ==> territory == Derived(old(territory)) && chem == ChemistryOf(territory)
    {
      match outcome
      case Located(lat, lon) =>
        territory := territory.(lat := lat, lon := lon, hasGeo := true);
      case LocationFailed =>
        territory := territory.(hasGeo := false);
        DeriveTerritoryParams();
      case NoGeolocation =>
        DeriveTerritoryParams();
    }

    /** `fetchWeather` after its request settles: the payload merged and everything re-derived, or
        on a thrown error only the re-derivation. */
    method FetchWeatherSettled(outcome: FetchOutcome)
      requires Valid()
      modifies this`territory, this`chem
      ensures Valid()
      ensures territory == AfterFetch(old(territory), outcome) && chem == ChemistryOf(territory)
    {
      if outcome.Payload? {
        territory := MergeWeather(territory, outcome.current);
      }
      DeriveTerritoryParams();
    }

    /** `reseedVariant`: a new seed, the mode and motion constants for the current temperature and
        coin r, a fresh particle list sized by the density multiplier, and a restarted session clock. */
    method ReseedVariant(seed: int, r: real, nowMs: real, supply: seq<Particle>)
      requires Valid()
      requires TargetCount(territory) <= |supply|
      modifies this`variantSeed, this`variant, this`particles, this`sessionStartMs
      ensures Valid()
      ensures variantSeed == seed && variant == SelectVariant(TempN(territory), r)
      ensures 0 <= TargetCount(territory) && particles == supply[..TargetCount(territory)]
      ensures sessionStartMs == nowMs
    {
      variantSeed := seed;
      SelectVariantInRange(TempN(territory), r);
      variant := SelectVariant(TempN(territory), r);
      InitParticles(TargetCount(territory), supply);
      sessionStartMs := nowMs;
    }

    /** `startInfrasoundProxy(opts)`: the defaulted, clamped parameters become the live ones. */
    method StartInfrasoundProxy(opts: ProxyOptions, nowMs: real)
      modifies this`amParams
      ensures amParams == Some(StartParams(opts, nowMs))
    {
      amParams := Some(StartParams(opts, nowMs));
    }

    /** `stopInfrasoundProxy`, also what the session timeout and a hidden tab call. */
    method StopInfrasoundProxy()
      modifies this`amParams
      ensures amParams == None
    {
      amParams := None;
    }

    /** `mousePressed`: the first click starts the session (unpaused, clock started, a first
        variant, the proxy started by `initAudio`); a later click reseeds unless paused. */
    method MousePressed(nowMs: real, seed: int, r: real, supply: seq<Particle>)
      requires Valid()
      requires !started || !paused ==> TargetCount(territory) <= |supply|
      modifies this
      ensures Valid()
      ensures !old(started) ==>
                State() == old(State()).(started := true, paused := false, sessionStartMs := nowMs,
                                         variantSeed := seed, variant := SelectVariant(TempN(old(territory)), r),
                                         particles := supply[..TargetCount(old(territory))],
                                         amParams := Some(AmParams(PickLfoHz(old(territory)), PickCarrierHz(old(territory)), 0.78, 0.10, nowMs)))
      ensures old(started) && !old(paused) ==>
                State() == old(State()).(sessionStartMs := nowMs, variantSeed := seed,
                                         variant := SelectVariant(TempN(old(territory)), r),
                                         particles := supply[..TargetCount(old(territory))])
      ensures old(started) && old(paused) ==> State() == old(State())
    {
      if !started {
        started := true;
        paused := false;
        sessionStartMs := nowMs;
        ReseedVariant(seed, r, nowMs, supply);
        StartInfrasoundProxy(InitAudioOptions(territory), nowMs);
        InitAudioParamsUnclamped(territory, nowMs);
        return;
      }
      if !paused {
        ReseedVariant(seed, r, nowMs, supply);
      }
    }

    /** `keyPressed`: space toggles pause once started; r/R restarts particles and clock; the arrows
        step the intensity by 0.05 within [0, 1]; c/C toggles the chemistry layer; v/V reseeds. */
    method KeyPressed(key: Key, nowMs: real, seed: int, r: real, supply: seq<Particle>)
      requires Valid()
      requires IsRestartKey(key) || IsReseedKey(key) ==> TargetCount(territory) <= |supply|
      modifies this
      ensures Valid()
      ensures key == Char(' ') ==> State() == old(State()).(paused := if old(started) then !old(paused) else old(paused))
      ensures IsRestartKey(key) ==>
                State() == old(State()).(particles := supply[..TargetCount(old(territory))], sessionStartMs := nowMs)
      ensures key == UpArrow ==> State() == old(State()).(intensity := Constrain(old(intensity) + 0.05, 0.0, 1.0))
      ensures key == DownArrow ==> State() == old(State()).(intensity := Constrain(old(intensity) - 0.05, 0.0, 1.0))
      ensures IsChemistryKey(key) ==> State() == old(State()).(chemicalMode := !old(chemicalMode))
      ensures IsReseedKey(key) ==>
                State() == old(State()).(sessionStartMs := nowMs, variantSeed := seed,
                                         variant := SelectVariant(TempN(old(territory)), r),
                                         particles := supply[..TargetCount(old(territory))])
      ensures !IsCommandKey(key) ==> State() == old(State())
    {
      if key == Char(' ') {
        if !started {
          return;
        }
        paused := !paused;
      }
      if IsRestartKey(key) {
        InitParticles(TargetCount(territory), supply);
        sessionStartMs := nowMs;
      }
      if key == UpArrow {
        intensity := Constrain(intensity + 0.05, 0.0, 1.0);
      }
      if key == DownArrow {
        intensity := Constrain(intensity - 0.05, 0.0, 1.0);
      }
      if IsChemistryKey(key) {
        chemicalMode := !chemicalMode;
      }
      if IsReseedKey(key) {
        ReseedVariant(seed, r, nowMs, supply);
      }
    }

    /** The state-changing part of `draw`: nothing before the first click or while paused; otherwise
        cohesion from the session clock and one resize step toward the density-scaled target. */
    method Draw(nowMs: real, supply: seq<Particle>)
      requires Valid()
      requires FreshNeeded(|particles|, TargetCount(territory)) <= |supply|
      modifies this`cohesion, this`particles
      ensures Valid()
      ensures !started || paused ==> cohesion == old(cohesion) && particles == old(particles)
      ensures started && !paused ==>
                cohesion == Cohesion((nowMs - sessionStartMs) / 1000.0, intensity)
                && particles == Adjusted(old(particles), TargetCount(territory), supply)
      ensures started && !paused ==> 0.0 <= cohesion <= intensity
    {
      if !started || paused {
        return;
      }
      var t := (nowMs - sessionStartMs) / 1000.0;
      CohesionRange(t, intensity);
      cohesion := Cohesion(t, intensity);
      AdjustedLengthInBounds(|particles|, TargetCount(territory));
      AdjustParticleCount(TargetCount(territory), supply);
    }

    /** The proxy re-pick inside `updateAudio`: every 120th frame, while the session runs unpaused
        and the proxy is live, both rates are re-picked from the territory. */
    method RepickProxyRates(frameCount: nat)
      requires Valid()
      modifies this`amParams
      ensures Valid()
      ensures amParams == if started && !paused && frameCount % 120 == 0 && old(amParams).Some?
                          then Some(Repicked(old(amParams).value, territory)) else old(amParams)
    {
      if !started || paused {
        return;
      }
      if frameCount % 120 == 0 && amParams.Some? {
        amParams := Some(Repicked(amParams.value, territory));
      }
    }

    /** `updateInfrasoundProxy` for the current LFO value in [0, 1]: the gain it ramps to, or None
        when the proxy is not live or the sketch is paused. */
    method UpdateInfrasoundProxy(lfo: real) returns (g: Option<real>)
      requires Valid()
      requires 0.0 <= lfo <= 1.0
      ensures g.Some? <==> amParams.Some? && !paused
      ensures g.Some? ==> g.value == Gain(amParams.value, lfo)
      ensures g.Some? ==> amParams.value.baseAmp * (1.0 - amParams.value.depth) <= g.value <= amParams.value.baseAmp
    {
      if amParams.None? || paused {
        return None;
      }
      GainRange(amParams.value, lfo);
      g := Some(Gain(amParams.value, lfo));
    }
  }
}
