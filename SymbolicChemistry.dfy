/** The symbolic chemistry layer: five metaphorical scalars derived from the territory readings. */
module SymbolicChemistry {
  import opened P5Math
  import opened TerritoryModel

  datatype Chem = Chem(hydration: real, energy: real, stress: real, redox: real, pH: real)

  /** The value of the global `chem` when the page loads. */
  function InitialChem(): Chem { Chem(0.6, 0.5, 0.3, 0.5, 7.0) }

  ghost predicate ChemInRange(c: Chem)
  {
    && 0.0 <= c.hydration <= 1.0 && 0.0 <= c.energy <= 1.0
    && 0.0 <= c.stress <= 1.0 && 0.0 <= c.redox <= 1.0
    && 6.2 <= c.pH <= 7.8
  }

  function Abs(x: real): real { if x < 0.0 then -x else x }

  /** Hydration before its clamp: humidity plus closeness of the temperature to 55% of its range. */
  function RawHydration(tempN: real, humN: real): real
  {
    0.65 * humN + 0.35 * (1.0 - Abs(tempN - 0.55))
  }

  /** pH before its clamp: neutral 7, raised by redox, lowered by stress. */
  function RawPh(redox: real, stress: real): real
  {
    7.0 + (redox - 0.5) * 0.8 - (stress - 0.5) * 0.6
  }

  /** `deriveChemicalLayer`: energy is the solar reading and stress the wind reading, both
      normalised; hydration, redox and pH are clamped blends. */
  function ChemistryOf(t: Territory): (c: Chem)
    ensures ChemInRange(c)
    ensures c.energy == SolN(t) && c.stress == WindN(t)
  {
    var humN, solN, windN, tempN := HumN(t), SolN(t), WindN(t), TempN(t);
    var hydration := Constrain(RawHydration(tempN, humN), 0.0, 1.0);
    var energy := solN;
    var stress := windN;
    var redox := Constrain(0.55 * energy + 0.25 * hydration - 0.35 * stress + 0.25, 0.0, 1.0);
    Chem(hydration, energy, stress, redox, Constrain(RawPh(redox, stress), 6.2, 7.8))
  }

  /** The hydration clamp never acts: the raw blend already lies in [0.1575, 1]. */
  lemma HydrationUnclamped(t: Territory)
    ensures ChemistryOf(t).hydration == RawHydration(TempN(t), HumN(t))
    ensures 0.1575 <= ChemistryOf(t).hydration
  {
    var tempN, humN := TempN(t), HumN(t);
    assert 0.1575 <= RawHydration(tempN, humN) <= 1.0;
  }

  /** The pH clamp never acts either: redox and stress in [0, 1] keep the raw pH in [6.3, 7.7]. */
  lemma PhUnclamped(t: Territory)
    ensures ChemistryOf(t).pH == RawPh(ChemistryOf(t).redox, ChemistryOf(t).stress)
    ensures 6.3 <= ChemistryOf(t).pH <= 7.7
  {
    var c := ChemistryOf(t);
    assert 6.3 <= RawPh(c.redox, c.stress) <= 7.7;
  }

  /** The redox clamp, unlike the other two, does act: a humid, sunny, still day at 17 degrees
      gives a raw redox of 1.05, clamped to 1. */
  lemma RedoxSaturates()
    ensures ChemistryOf(Initial().(temp := 17.0, humidity := 90.0, wind := 0.0, solar := 900.0)).redox == 1.0
  {
    var t := Initial().(temp := 17.0, humidity := 90.0, wind := 0.0, solar := 900.0);
    assert TempN(t) == 0.55;
    assert HumN(t) == 1.0 && SolN(t) == 1.0 && WindN(t) == 0.0;
    assert ChemistryOf(t).hydration == 1.0;
  }

  lemma InitialChemInRange()
    ensures ChemInRange(InitialChem())
  {
  }
}
