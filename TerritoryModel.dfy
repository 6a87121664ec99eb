/** The territory: the weather readings that shape the piece, the merge of a weather payload into
    them, and the secondary multipliers derived from their normalised values. */
module TerritoryModel {
  import opened Wrappers
  import opened P5Math

  datatype Territory = Territory(
    lat: real, lon: real, hasGeo: bool,
    temp: real, humidity: real, wind: real, solar: real,
    densityMul: real, driftMul: real, toneBase: real, subBase: real, noiseAmp: real)

  /** The value of the global `territory` when the page loads. */
  function Initial(): Territory
  {
    Territory(39.47, -0.38, false, 20.0, 55.0, 2.0, 300.0, 1.0, 1.0, 174.0, 38.0, 0.008)
  }

  /** Temperature normalised over [-5, 35] degrees Celsius. */
  function TempN(t: Territory): real { Norm(t.temp, -5.0, 35.0) }
  /** Relative humidity normalised over [10, 90] percent. */
  function HumN(t: Territory): real { Norm(t.humidity, 10.0, 90.0) }
  /** Wind speed normalised over [0, 18] m/s. */
  function WindN(t: Territory): real { Norm(t.wind, 0.0, 18.0) }
  /** Shortwave radiation normalised over [0, 900] W/m2. */
  function SolN(t: Territory): real { Norm(t.solar, 0.0, 900.0) }

  /** The derived fields lie in the ranges that the interpolation bounds allow. */
  ghost predicate DerivedInRange(t: Territory)
  {
    && 0.765 <= t.densityMul <= 1.4375
    && 0.8075 <= t.driftMul <= 1.375
    && 155.8 <= t.toneBase <= 231.0
    && 26.6 <= t.subBase <= 60.9
    && 0.004 <= t.noiseAmp <= 0.014
  }

  // ---------------------------------------------------------------- weather merge

  /** The `current` object of a weather response; a field is None when it is null or undefined. */
  datatype WeatherCurrent = WeatherCurrent(
    temperature2m: Option<real>, windSpeed10m: Option<real>,
    relativeHumidity2m: Option<real>, shortwaveRadiation: Option<real>)

  /** How an awaited weather request ended: the parsed body's `current` member (None when it
      is missing or falsy), or a thrown error (network failure, bad JSON). */
  datatype FetchOutcome = Payload(current: Option<WeatherCurrent>) | Failed

  /** The merge of a weather payload into the territory: `??` per field, then `|| 1` for solar
      (a zero reading, whether received or kept, becomes 1). */
  function MergeWeather(t: Territory, current: Option<WeatherCurrent>): (r: Territory)
    ensures current.Some? && current.value.temperature2m.Some? ==> r.temp == current.value.temperature2m.value
    ensures current.Some? && current.value.windSpeed10m.Some? ==> r.wind == current.value.windSpeed10m.value
    ensures current.Some? && current.value.relativeHumidity2m.Some? ==> r.humidity == current.value.relativeHumidity2m.value
    ensures (current.None? || current.value.temperature2m.None?) ==> r.temp == t.temp
    ensures (current.None? || current.value.windSpeed10m.None?) ==> r.wind == t.wind
    ensures (current.None? || current.value.relativeHumidity2m.None?) ==> r.humidity == t.humidity
    ensures r.solar != 0.0
    ensures current.Some? && current.value.shortwaveRadiation == Some(0.0) ==> r.solar == 1.0
    ensures current.Some? && current.value.shortwaveRadiation.Some? && current.value.shortwaveRadiation.value != 0.0 ==>
              r.solar == current.value.shortwaveRadiation.value
    ensures (current.None? || current.value.shortwaveRadiation.None?) ==> r.solar == (if t.solar == 0.0 then 1.0 else t.solar)
    ensures r.(temp := t.temp, wind := t.wind, humidity := t.humidity, solar := t.solar) == t
  {
    var c := current.GetOr(WeatherCurrent(None, None, None, None));
    var solar := c.shortwaveRadiation.GetOr(t.solar);
    t.(temp := c.temperature2m.GetOr(t.temp),
       wind := c.windSpeed10m.GetOr(t.wind),
       humidity := c.relativeHumidity2m.GetOr(t.humidity),
       solar := if solar == 0.0 then 1.0 else solar)
  }

  /** Applying the same payload a second time changes nothing. */
  lemma MergeIdempotent(t: Territory, current: Option<WeatherCurrent>)
    ensures MergeWeather(MergeWeather(t, current), current) == MergeWeather(t, current)
  {
    var once := MergeWeather(t, current);
    var twice := MergeWeather(once, current);
    assert twice.solar == once.solar;
  }

  // ---------------------------------------------------------------- derived parameters

  /** The territory with its five derived multipliers recomputed from its readings. */
  function Derived(t: Territory): (r: Territory)
    ensures r.(densityMul := t.densityMul, driftMul := t.driftMul, toneBase := t.toneBase,
               subBase := t.subBase, noiseAmp := t.noiseAmp) == t
  {
    var tempN, humN, windN, solN := TempN(t), HumN(t), WindN(t), SolN(t);
    t.(densityMul := Lerp(0.85, 1.25, humN) * Lerp(1.15, 0.9, windN),
       driftMul := Lerp(0.85, 1.25, windN) * Lerp(0.95, 1.10, solN),
       toneBase := Lerp(164.0, 220.0, tempN) * Lerp(0.95, 1.05, humN),
       subBase := Lerp(28.0, 58.0, solN) * Lerp(0.95, 1.05, windN),
       noiseAmp := Lerp(0.004, 0.014, windN))
  }

  /** A product of two lerps over normalised inputs lies between the products of their end points. */
  lemma LerpProductBounds(a0: real, a1: real, x: real, b0: real, b1: real, y: real)
    requires 0.0 <= a0 && 0.0 <= a1 && 0.0 <= b0 && 0.0 <= b1
    requires 0.0 <= x <= 1.0 && 0.0 <= y <= 1.0
    ensures Min(a0, a1) * Min(b0, b1) <= Lerp(a0, a1, x) * Lerp(b0, b1, y) <= Max(a0, a1) * Max(b0, b1)
  {
    LerpBetween(a0, a1, x);
    LerpBetween(b0, b1, y);
    ProductBounds(Lerp(a0, a1, x), Lerp(b0, b1, y), Min(a0, a1), Max(a0, a1), Min(b0, b1), Max(b0, b1));
  }

  lemma DensityMulRange(t: Territory)
    ensures 0.765 <= Derived(t).densityMul <= 1.4375
  {
    LerpProductBounds(0.85, 1.25, HumN(t), 1.15, 0.9, WindN(t));
  }

  lemma DriftMulRange(t: Territory)
    ensures 0.8075 <= Derived(t).driftMul <= 1.375
  {
    LerpProductBounds(0.85, 1.25, WindN(t), 0.95, 1.10, SolN(t));
  }

  lemma ToneBaseRange(t: Territory)
    ensures 155.8 <= Derived(t).toneBase <= 231.0
  {
    LerpProductBounds(164.0, 220.0, TempN(t), 0.95, 1.05, HumN(t));
  }

  lemma SubBaseRange(t: Territory)
    ensures 26.6 <= Derived(t).subBase <= 60.9
  {
    LerpProductBounds(28.0, 58.0, SolN(t), 0.95, 1.05, WindN(t));
  }

  lemma NoiseAmpRange(t: Territory)
    ensures 0.004 <= Derived(t).noiseAmp <= 0.014
  {
    LerpBetween(0.004, 0.014, WindN(t));
  }

  /** Every derived multiplier lies in the range spanned by the products of its interpolation bounds. */
  lemma DerivedInRangeAlways(t: Territory)
    ensures DerivedInRange(Derived(t))
  {
    DensityMulRange(t);
    DriftMulRange(t);
    ToneBaseRange(t);
    SubBaseRange(t);
    NoiseAmpRange(t);
  }

  /** The page's initial derived values already lie in those ranges. */
  lemma InitialInRange()
    ensures DerivedInRange(Initial())
  {
  }

  /** What `fetchWeather` leaves in the territory once its request settles: the merged payload,
      re-derived, or on a thrown error the readings it already had, re-derived. */
  function AfterFetch(t: Territory, outcome: FetchOutcome): (r: Territory)
    ensures DerivedInRange(r)
    ensures outcome.Failed? ==> r == Derived(t)
    ensures outcome.Payload? ==> r == Derived(MergeWeather(t, outcome.current))
    ensures r.solar != 0.0 || outcome.Failed?
  {
    match outcome
    case Failed => DerivedInRangeAlways(t); Derived(t)
    case Payload(c) => DerivedInRangeAlways(MergeWeather(t, c)); Derived(MergeWeather(t, c))
  }

  // ---------------------------------------------------------------- particle target

  /** `Math.floor(MAX_PARTICLES_BASE * territory.densityMul)`, the particle count the field aims for.
      With the derived multipliers in range it lies in [550, 1035], inside the pool's clamp. */
  function TargetCount(t: Territory): (n: int)
    ensures DerivedInRange(t) ==> 550 <= n <= 1035
  {
    assert DerivedInRange(t) ==> 550.0 <= 720.0 * t.densityMul <= 1035.0;
    (720.0 * t.densityMul).Floor
  }
}
