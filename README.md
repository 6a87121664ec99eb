# Mandibular Field — parameter layer, in Dafny

Mandibular Field is a p5.js generative audiovisual piece. A particle field drifts around a breathing
arc. The weather at the visitor's location shapes the visuals and the sound. An amplitude-modulated
tone stands in for infrasound. This project models the parameter logic under the drawing and the
audio graph, and proves properties of it. All quantities are exact reals. p5's `map`, `constrain`
and `lerp` are written out with their library definitions in `P5Math`.

- `TerritoryModel`: the territory record and the merge of a weather payload into it. The merge uses
  JavaScript's `??` per field, plus `|| 1` for solar radiation. Also the five derived multipliers
  and the particle-count target.
- `SymbolicChemistry`: hydration, energy, stress, redox and pH, derived from the territory.
- `Variants`: the motion mode, chosen by temperature band and a coin. Also the four motion
  constants, interpolated from temperature.
- `Session`: the cubic ease-in-out and the session cohesion built on it.
- `AmProxy`: the AM proxy's rates picked from the territory, the start-time defaults and clamps,
  the every-120-frames re-pick and the modulated gain.
- `ParticlePool`: the bounded-step resize of the particle list, over an opaque element type. Its
  functions give the result and its lemmas prove convergence.
- `Particles`: a particle and the edge wrap at the end of its update.
- `MandibularField`: class `Sketch`, holding the sketch's globals. Its methods mirror the source's
  handlers. `InitParticles` and `AdjustParticleCount` are loops that push onto the list, and each
  is proved equal to its specification function. `MousePressed` and `KeyPressed` state the whole
  new state for every input, including keys the sketch ignores. `Valid()` is the invariant every
  handler keeps: intensity and cohesion in [0, 1], derived values in range, and 350 to 1100
  particles.

Randomness, clocks and frame counters are parameters: the variant seed, the coin `r`, `millis()`,
`frameCount` and the LFO value. Fresh particles come from the caller as a `supply` sequence.

A solar reading of exactly 0, whether received or kept, becomes 1 (`sketch.js:275`), not the
prior value. An absent reading keeps the prior value unless that value is 0. The model follows
the code on pausing. A pause does not freeze the session clock. `draw` only
returns early, so cohesion and the particle list stay as they were.

## Model

| member | source | states |
|---|---|---|
| P5Math.Norm | sketch.js:284-287 | a normalised reading lies in [0, 1]; it is 0 at or below the range's low end and 1 at or above its high end |
| P5Math.NormMonotone | sketch.js:284-287 | a normalised reading never decreases as the raw reading grows |
| TerritoryModel.InitialInRange | sketch.js:39-44 | the page's initial derived values already lie in the derived ranges |
| TerritoryModel.MergeWeather | sketch.js:270-275 | temperature, wind and humidity take the payload value when present and keep the prior value otherwise; solar is never 0; an explicit 0 becomes 1; an absent solar keeps the prior value unless it is 0, which becomes 1; a missing `current` changes no reading; nothing else changes |
| TerritoryModel.MergeIdempotent | sketch.js:272-275 | merging the same payload twice gives the same territory as merging it once |
| TerritoryModel.DensityMulRange | sketch.js:289 | densityMul lies in [0.765, 1.4375] |
| TerritoryModel.DriftMulRange | sketch.js:290 | driftMul lies in [0.8075, 1.375] |
| TerritoryModel.ToneBaseRange | sketch.js:292 | toneBase lies in [155.8, 231] Hz |
| TerritoryModel.SubBaseRange | sketch.js:293 | subBase lies in [26.6, 60.9] Hz |
| TerritoryModel.NoiseAmpRange | sketch.js:294 | noiseAmp lies in [0.004, 0.014] |
| TerritoryModel.DerivedInRangeAlways | sketch.js:283-297 | whatever the readings, all five derived multipliers lie in their ranges |
| TerritoryModel.AfterFetch | sketch.js:263-281 | a settled fetch leaves the merged payload re-derived, or after a thrown error the old readings re-derived; derived values are in range either way; after a payload solar is non-zero |
| TerritoryModel.TargetCount | sketch.js:108 | with derived values in range the particle target floor(720 * densityMul) lies in [550, 1035] |
| SymbolicChemistry.ChemistryOf | sketch.js:301-315 | hydration, energy, stress and redox lie in [0, 1] and pH in [6.2, 7.8]; energy is the normalised solar reading and stress the normalised wind |
| SymbolicChemistry.HydrationUnclamped | sketch.js:307 | the hydration clamp never acts: the raw blend already lies in [0.1575, 1] |
| SymbolicChemistry.PhUnclamped | sketch.js:313-314 | the pH clamp never acts: the raw pH already lies in [6.3, 7.7] |
| SymbolicChemistry.RedoxSaturates | sketch.js:311 | the redox clamp does act: at 17 degrees, 90% humidity, no wind and 900 W/m2, redox is clamped to 1 |
| SymbolicChemistry.InitialChemInRange | sketch.js:48-54 | the initial chemistry values lie in range |
| Variants.ModeInBand | sketch.js:346-351 | the mode is one of the two adjacent modes of the temperature band, and it is the lower one exactly when r < 0.5 |
| Variants.ModeMonotone | sketch.js:349-351 | colder gives a mode at least as ordered: the mode index is non-decreasing in temperature and in r |
| Variants.SelectVariantInRange | sketch.js:353-356 | flowScale is in [0.0016, 0.0032], swirl in [0.35, 1.10], jitter in [0.08, 0.38] and snapToLocus in [0.85, 1.20] |
| Variants.SelectVariantMonotone | sketch.js:353-356 | flowScale, swirl and jitter are non-decreasing in temperature, and snapToLocus is non-increasing |
| Session.EaseFixedPoints | sketch.js:706-708 | ease(0) = 0, ease(0.5) = 0.5, ease(1) = 1, and both branches give 0.5 at the switch point |
| Session.EaseSymmetric | sketch.js:706-708 | ease(1 - x) = 1 - ease(x) |
| Session.EaseMonotone | sketch.js:706-708 | on [0, 1] the ease stays in [0, 1] and is non-decreasing |
| Session.Progress | sketch.js:97 | progress lies in [0, 1]; it is 0 when no time has elapsed and 1 from 120 s on |
| Session.ProgressMonotone | sketch.js:97 | progress never decreases as time goes on |
| Session.CohesionRange | sketch.js:96-98 | cohesion lies in [0, intensity] |
| Session.CohesionEnds | sketch.js:96-98 | cohesion is 0 at the session start and equals intensity from 120 s on |
| Session.CohesionMonotone | sketch.js:96-98 | for a fixed intensity, cohesion is non-decreasing in elapsed time |
| AmProxy.PickLfoHz | sketch.js:645-650 | the picked LFO rate lies in [1, 20] Hz |
| AmProxy.PickCarrierHz | sketch.js:652-655 | the picked carrier lies in [50, 110] Hz |
| AmProxy.PickLfoHzUnclamped | sketch.js:645-650 | the LFO rate already lies in [2.7, 15.4] Hz, so its clamp never acts |
| AmProxy.PickCarrierHzUnclamped | sketch.js:652-655 | the carrier already lies in [62, 88] Hz, so its clamp never acts |
| AmProxy.StartParams | sketch.js:659-663 | the start parameters are in range: lfoHz in [1, 20], carrierHz in [40, 140], depth in [0, 1], baseAmp in [0, 0.18]; an omitted option takes its default (8, 80, 0.6, 0.06); an in-range option is kept |
| AmProxy.InitAudioParamsUnclamped | sketch.js:573-578 | no start clamp acts on the options `initAudio` passes |
| AmProxy.Repicked | sketch.js:638-642 | a re-pick keeps parameters in range and changes only the two rates |
| AmProxy.GainRange | sketch.js:690 | for an LFO value in [0, 1] the gain lies in [baseAmp * (1 - depth), baseAmp] and within [0, 0.18]; it reaches the low end at the trough and the high end at the crest |
| AmProxy.GainMonotone | sketch.js:690 | the gain is non-decreasing in the LFO value |
| ParticlePool.ClampTarget | sketch.js:441 | the clamped target lies in [350, 1100] |
| ParticlePool.AdjustedLength | sketch.js:440-448 | one call changes the length by exactly min(12, distance to the clamped target), moves it that much closer, and never overshoots |
| ParticlePool.Adjusted | sketch.js:440-448 | growing keeps the old list as a prefix and appends fresh elements in order; shrinking keeps a suffix, dropping the oldest entries; at the target the list is untouched |
| ParticlePool.AdjustedLengthInBounds | sketch.js:440-448 | a length in [350, 1100] stays in [350, 1100] after a call, whatever the target |
| ParticlePool.DistanceAfter | sketch.js:440-448 | after k calls with a fixed target, the distance to it is max(0, d - 12k) |
| ParticlePool.Converges | sketch.js:440-448 | repeated calls with a fixed target reach it exactly after ceil(d / 12) calls |
| ParticlePool.StaysAtTarget | sketch.js:442-446 | once at the target, further calls leave the length unchanged (convergence from distance 0) |
| Particles.WrapCoord | sketch.js:501-504 | a wrapped coordinate lies in [-20, extent + 20]; past -20 it reappears at extent + 20, past extent + 20 at -20; in between it is unchanged |
| Particles.WrapIdempotent | sketch.js:501-504 | wrapping an already wrapped coordinate changes nothing |
| Particles.Particle.constructor | sketch.js:451-456 | a particle starts with the given position, velocity, seed and life factor |
| Particles.Particle.Integrate | sketch.js:494-504 | the new velocity is taken, the position moves by it and each coordinate is wrapped |
| MandibularField.Sketch.constructor | sketch.js:75-80 | the globals take their initial values, the list holds 720 particles, and the invariant holds |
| MandibularField.Sketch.InitParticles | sketch.js:435-438 | the list becomes exactly the n supplied particles, in order |
| MandibularField.Sketch.AdjustParticleCount | sketch.js:440-448 | the list becomes the bounded-step resize of the old list |
| MandibularField.Sketch.DeriveChemicalLayer | sketch.js:301-315 | chem becomes the chemistry of the current territory, in range |
| MandibularField.Sketch.DeriveTerritoryParams | sketch.js:283-297 | the territory is re-derived with its values in range, and chem follows it |
| MandibularField.Sketch.LocationSettled | sketch.js:243-261 | a position is stored with the geolocation flag set; a failure clears the flag and re-derives; no geolocation capability only re-derives |
| MandibularField.Sketch.FetchWeatherSettled | sketch.js:263-281 | the territory becomes the settled-fetch result and chem follows it; the invariant holds |
| MandibularField.Sketch.ReseedVariant | sketch.js:341-360 | the seed is stored; the variant is selected for the current temperature and coin; the list becomes the target count of fresh particles; the clock restarts |
| MandibularField.Sketch.StartInfrasoundProxy | sketch.js:659-682 | the live proxy parameters become the defaulted, clamped options |
| MandibularField.Sketch.StopInfrasoundProxy | sketch.js:694-702 | the proxy is no longer live |
| MandibularField.Sketch.MousePressed | sketch.js:126-153 | the first click starts an unpaused session with a new variant, fresh particles, a restarted clock and the proxy at the picked rates; a later unpaused click only reseeds; a click while paused changes nothing |
| MandibularField.Sketch.KeyPressed | sketch.js:155-171 | space does nothing before the start and toggles pause after it; r/R rebuilds the list and restarts the clock even when not started or paused; the arrows step intensity by 0.05 within [0, 1]; c/C toggles only chemicalMode; v/V reseeds even when not started or paused; every other key, printable or not, changes nothing |
| MandibularField.Sketch.Draw | sketch.js:85-109 | before the start or while paused nothing changes; otherwise cohesion is set from the session clock, within [0, intensity], and the list takes one resize step toward the density target |
| MandibularField.Sketch.RepickProxyRates | sketch.js:638-642 | on every 120th frame of a running, unpaused session, a live proxy's rates are re-picked from the territory; otherwise nothing changes |
| MandibularField.Sketch.UpdateInfrasoundProxy | sketch.js:684-692 | a gain is produced exactly when the proxy is live and the sketch unpaused; it is the modulated gain, within [baseAmp * (1 - depth), baseAmp] |

## Left out

- Rendering: the `draw*` functions, `Particle.render`, the HUD, the signature, the start and pause screens and `windowResized`. These are side effects on a canvas library.
- The audio graph: `initAudio`'s oscillators, noise, gain and compressor, `fadeOutAudio`, `fadeInAudio`, the 440 Hz beep and the tone part of `updateAudio`. These are calls into p5.sound with timed ramps. The model keeps only the proxy parameters and the gain value the proxy ramps to.
- The geolocation request and the HTTP fetch with its JSON parsing. These are I/O. The model starts from their settled outcome (`LocationSettled`, `FetchWeatherSettled`).
- The `await ctx.resume()` in `mousePressed`, the 120 s `setTimeout` and the `visibilitychange` listener. These are asynchronous host scheduling. The timeout and the hidden-tab event only call `fadeOutAudio` and `stopInfrasoundProxy`, and the latter is `StopInfrasoundProxy`.
- The motion part of `Particle.update` (sketch.js:459-497): Perlin noise, trigonometry, random jitter and the speed limit (a square root). Floating-point numerics and library internals are not modelled. `Particle.Integrate` takes the resulting velocity as a parameter.
- The breath and LFO waveforms (`sin`) and `millis()`/`frameCount`. These become parameters.
- `random()`, `randomSeed` and `noiseSeed`. The seed and the coin `r` are parameters. The model does not capture that p5 derives `r` deterministically from the seed.
- Floating-point effects (rounding, NaN, infinities) and non-numeric JSON values. A JSON `null` is treated like an absent field, as `??` does.
- MandibularField.Sketch.StartInfrasoundProxy: an option passed as `null` is not distinguished from `undefined`. JavaScript applies the default only for `undefined`, and `constrain(null, ...)` treats null as 0.
