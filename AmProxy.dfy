/** The amplitude-modulation proxy for infrasound: a carrier tone whose gain is modulated at 1-20 Hz,
    with its parameters picked from the territory and clamped when the proxy starts. */
module AmProxy {
  import opened Wrappers
  import opened P5Math
  import opened TerritoryModel

  /** The proxy's parameter record `_amParams`. */
  datatype AmParams = AmParams(lfoHz: real, carrierHz: real, depth: real, baseAmp: real, startMs: real)

  ghost predicate ParamsInRange(p: AmParams)
  {
    && 1.0 <= p.lfoHz <= 20.0
    && 40.0 <= p.carrierHz <= 140.0
    && 0.0 <= p.depth <= 1.0
    && 0.0 <= p.baseAmp <= 0.18
  }

  /** The options object given to `startInfrasoundProxy`; None is an omitted (undefined) option. */
  datatype ProxyOptions = ProxyOptions(lfoHz: Option<real>, carrierHz: Option<real>, depth: Option<real>, baseAmp: Option<real>)

  /** `pickLfoHzFromTerritory`: 3-14 Hz by wind, scaled by +-10% by humidity, clamped to [1, 20]. */
  function PickLfoHz(t: Territory): (hz: real)
    ensures 1.0 <= hz <= 20.0
  {
    Constrain(Lerp(3.0, 14.0, WindN(t)) * Lerp(0.9, 1.1, HumN(t)), 1.0, 20.0)
  }

  /** `pickCarrierHzFromTerritory`: 62-88 Hz by solar radiation, clamped to [50, 110]. */
  function PickCarrierHz(t: Territory): (hz: real)
    ensures 50.0 <= hz <= 110.0
  {
    Constrain(Lerp(62.0, 88.0, SolN(t)), 50.0, 110.0)
  }

  /** The picked LFO rate already lies in [2.7, 15.4], so its clamp to [1, 20] never acts. */
  lemma PickLfoHzUnclamped(t: Territory)
    ensures PickLfoHz(t) == Lerp(3.0, 14.0, WindN(t)) * Lerp(0.9, 1.1, HumN(t))
    ensures 2.7 <= PickLfoHz(t) <= 15.4
  {
    var w, h := WindN(t), HumN(t);
    LerpBetween(3.0, 14.0, w);
    LerpBetween(0.9, 1.1, h);
    ProductBounds(Lerp(3.0, 14.0, w), Lerp(0.9, 1.1, h), 3.0, 14.0, 0.9, 1.1);
  }

  /** The picked carrier lies in [62, 88], so its clamp to [50, 110] never acts. */
  lemma PickCarrierHzUnclamped(t: Territory)
    ensures PickCarrierHz(t) == Lerp(62.0, 88.0, SolN(t))
    ensures 62.0 <= PickCarrierHz(t) <= 88.0
  {
    LerpBetween(62.0, 88.0, SolN(t));
  }

  /** `startInfrasoundProxy`'s parameters: each option defaults when omitted (8 Hz, 80 Hz, 0.6, 0.06)
      and is then clamped to its range. */
  function StartParams(opts: ProxyOptions, nowMs: real): (p: AmParams)
    ensures ParamsInRange(p)
    ensures p.startMs == nowMs
    ensures opts.lfoHz.None? ==> p.lfoHz == 8.0
    ensures opts.carrierHz.None? ==> p.carrierHz == 80.0
    ensures opts.depth.None? ==> p.depth == 0.6
    ensures opts.baseAmp.None? ==> p.baseAmp == 0.06
    ensures opts.lfoHz.Some? && 1.0 <= opts.lfoHz.value <= 20.0 ==> p.lfoHz == opts.lfoHz.value
    ensures opts.carrierHz.Some? && 40.0 <= opts.carrierHz.value <= 140.0 ==> p.carrierHz == opts.carrierHz.value
    ensures opts.depth.Some? && 0.0 <= opts.depth.value <= 1.0 ==> p.depth == opts.depth.value
    ensures opts.baseAmp.Some? && 0.0 <= opts.baseAmp.value <= 0.18 ==> p.baseAmp == opts.baseAmp.value
  {
    AmParams(Constrain(opts.lfoHz.GetOr(8.0), 1.0, 20.0),
             Constrain(opts.carrierHz.GetOr(80.0), 40.0, 140.0),
             Constrain(opts.depth.GetOr(0.6), 0.0, 1.0),
             Constrain(opts.baseAmp.GetOr(0.06), 0.0, 0.18),
             nowMs)
  }

  /** The options `initAudio` passes: both rates picked from the territory, depth 0.78, base amplitude 0.10. */
  function InitAudioOptions(t: Territory): ProxyOptions
  {
    ProxyOptions(Some(PickLfoHz(t)), Some(PickCarrierHz(t)), Some(0.78), Some(0.10))
  }

  /** None of the start clamps acts on the options `initAudio` passes. */
  lemma InitAudioParamsUnclamped(t: Territory, nowMs: real)
    ensures StartParams(InitAudioOptions(t), nowMs) == AmParams(PickLfoHz(t), PickCarrierHz(t), 0.78, 0.10, nowMs)
  {
    PickCarrierHzUnclamped(t);
  }

  /** The every-120-frames re-pick in `updateAudio`: both rates follow the territory, the rest is kept. */
  function Repicked(p: AmParams, t: Territory): (q: AmParams)
    ensures ParamsInRange(p) ==> ParamsInRange(q)
    ensures q.depth == p.depth && q.baseAmp == p.baseAmp && q.startMs == p.startMs
  {
    PickCarrierHzUnclamped(t);
    p.(lfoHz := PickLfoHz(t), carrierHz := PickCarrierHz(t))
  }

  /** The modulated gain for an LFO value in [0, 1]: `baseAmp * ((1 - depth) + depth * lfo)`. */
  function Gain(p: AmParams, lfo: real): real
  {
    p.baseAmp * ((1.0 - p.depth) + p.depth * lfo)
  }

  /** The gain swings between baseAmp * (1 - depth) at the LFO trough and baseAmp at its crest. */
  lemma GainRange(p: AmParams, lfo: real)
    requires ParamsInRange(p) && 0.0 <= lfo <= 1.0
    ensures p.baseAmp * (1.0 - p.depth) <= Gain(p, lfo) <= p.baseAmp
    ensures 0.0 <= Gain(p, lfo) <= 0.18
    ensures Gain(p, 0.0) == p.baseAmp * (1.0 - p.depth) && Gain(p, 1.0) == p.baseAmp
  {
    var m := (1.0 - p.depth) + p.depth * lfo;
    MulNonneg(p.depth, lfo);
    MulNonneg(p.depth, 1.0 - lfo);
    assert 1.0 - p.depth <= m <= 1.0;
    MulNonneg(p.baseAmp, m - (1.0 - p.depth));
    MulNonneg(p.baseAmp, 1.0 - m);
    MulNonneg(p.baseAmp, 1.0 - p.depth);
    assert p.baseAmp * m - p.baseAmp * (1.0 - p.depth) == p.baseAmp * (m - (1.0 - p.depth));
    assert p.baseAmp - p.baseAmp * m == p.baseAmp * (1.0 - m);
  }

  /** A deeper LFO value never lowers the gain. */
  lemma GainMonotone(p: AmParams, lfo1: real, lfo2: real)
    requires ParamsInRange(p) && lfo1 <= lfo2
    ensures Gain(p, lfo1) <= Gain(p, lfo2)
  {
    MulNonneg(p.depth, lfo2 - lfo1);
    MulNonneg(p.baseAmp, p.depth * (lfo2 - lfo1));
    assert Gain(p, lfo2) - Gain(p, lfo1) == p.baseAmp * (p.depth * (lfo2 - lfo1));
  }
}
