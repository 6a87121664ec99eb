/** The motion variant chosen on every reseed: a motion mode picked by temperature band and a
    coin, and four motion constants interpolated from the normalised temperature. */
module Variants {
  import opened P5Math

  /** The four motion modes, in the sketch's numbering 0..3 and from most ordered to most chaotic. */
  datatype MotionMode = Lattice | Laminar | Swirl | Burst

  function ModeIndex(m: MotionMode): (i: nat)
    ensures i <= 3
  {
    match m
    case Lattice => 0
    case Laminar => 1
    case Swirl => 2
    case Burst => 3
  }

  datatype Variant = Variant(mode: MotionMode, flowScale: real, swirl: real, jitter: real, snapToLocus: real)

  /** The motion globals when the page loads. */
  function InitialVariant(): Variant { Variant(Lattice, 0.002, 0.6, 0.2, 1.0) }

  ghost predicate VariantInRange(v: Variant)
  {
    && 0.0016 <= v.flowScale <= 0.0032
    && 0.35 <= v.swirl <= 1.10
    && 0.08 <= v.jitter <= 0.38
    && 0.85 <= v.snapToLocus <= 1.20
  }

  /** The temperature band: 0 below 0.35, 1 below 0.7, 2 above. */
  function Band(tempN: real): (b: nat)
    ensures b <= 2
  {
    if tempN < 0.35 then 0 else if tempN < 0.7 then 1 else 2
  }

  /** The mode choice of `reseedVariant`; r is the first `random()` draw after reseeding. */
  function SelectMode(tempN: real, r: real): MotionMode
  {
    if tempN < 0.35 then (if r < 0.5 then Lattice else Laminar)
    else if tempN < 0.7 then (if r < 0.5 then Laminar else Swirl)
    else (if r < 0.5 then Swirl else Burst)
  }

  /** Each band offers two adjacent modes; the coin picks the lower of the two exactly when r < 0.5. */
  lemma ModeInBand(tempN: real, r: real)
    ensures ModeIndex(SelectMode(tempN, r)) == Band(tempN) || ModeIndex(SelectMode(tempN, r)) == Band(tempN) + 1
    ensures ModeIndex(SelectMode(tempN, r)) == Band(tempN) <==> r < 0.5
  {
  }

  /** Colder is more ordered: for a fixed coin, a higher temperature never gives a lower mode, and
      for a fixed temperature a higher coin never does either. */
  lemma ModeMonotone(t1: real, t2: real, r1: real, r2: real)
    requires t1 <= t2 && r1 <= r2
    ensures ModeIndex(SelectMode(t1, r1)) <= ModeIndex(SelectMode(t2, r2))
  {
    ModeInBand(t1, r1);
    ModeInBand(t2, r2);
  }

  /** The variant chosen for normalised temperature tempN and coin r. */
  function SelectVariant(tempN: real, r: real): Variant
  {
    Variant(SelectMode(tempN, r),
            Lerp(0.0016, 0.0032, tempN),
            Lerp(0.35, 1.10, tempN),
            Lerp(0.08, 0.38, tempN),
            Lerp(1.20, 0.85, tempN))
  }

  /** For a normalised temperature the four constants lie between their interpolation bounds. */
  lemma SelectVariantInRange(tempN: real, r: real)
    requires 0.0 <= tempN <= 1.0
    ensures VariantInRange(SelectVariant(tempN, r))
  {
    LerpBetween(0.0016, 0.0032, tempN);
    LerpBetween(0.35, 1.10, tempN);
    LerpBetween(0.08, 0.38, tempN);
    LerpBetween(1.20, 0.85, tempN);
  }

  /** Warmer gives a larger flow scale, more swirl and more jitter, and a weaker pull to the locus. */
  lemma SelectVariantMonotone(t1: real, t2: real, r1: real, r2: real)
    requires t1 <= t2
    ensures SelectVariant(t1, r1).flowScale <= SelectVariant(t2, r2).flowScale
    ensures SelectVariant(t1, r1).swirl <= SelectVariant(t2, r2).swirl
    ensures SelectVariant(t1, r1).jitter <= SelectVariant(t2, r2).jitter
    ensures SelectVariant(t2, r2).snapToLocus <= SelectVariant(t1, r1).snapToLocus
  {
    LerpMonotone(0.0016, 0.0032, t1, t2);
    LerpMonotone(0.35, 1.10, t1, t2);
    LerpMonotone(0.08, 0.38, t1, t2);
    LerpMonotone(1.20, 0.85, t1, t2);
  }
}
