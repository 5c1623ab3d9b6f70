/**
 * The two tick tables of main.py and what the resolver makes of them: the
 * labels of the mass and the radius slider, the quantities they denote, and
 * the slider ranges over them.
 */
module TickTables {
  import opened Wrappers
  import opened Ticks

  /** The labels of the mass slider, in slider order. */
  const MassLabels: seq<string> := [
    "0 Me", "1 Me", "2 Me", "5 Me", "10 Me", "20 Me (0.06 Mj)", "0.1 Mj (32 Me)", "0.2 Mj",
    "0.5 Mj", "0.8 Mj", "1 Mj", "1.5 Mj", "2 Mj", "3 Mj", "5 Mj", "8 Mj", "10 Mj", "13 Mj",
    "20 Mj", "30 Mj", "50 Mj"
  ]

  /** The labels of the radius slider, in slider order. */
  const RadiusLabels: seq<string> := [
    "0 Re", "0.5 Re", "1 Re", "1.6 Re", "2 Re", "3 Re (0.27 Rj)", "4 Re (0.36 Rj)",
    "5 Re (0.45 Rj)", "0.5 Rj", "0.8 Rj", "1 Rj", "1.2 Rj", "1.5 Rj", "1.8 Rj", "2 Rj",
    "2.5 Rj", "3 Rj", "5 Rj"
  ]

  /**
   * The text of `mass_ticker`: a line break, the array line
   * `    var v=['0 Me','1 Me',...,'50 Mj'];`, a line break and
   * `    return v[tick]` with its indentation.
   */
  const MassTicker: string := Ticker(MassLabels)

  /** The text of `radius_ticker`, written the same way. */
  const RadiusTicker: string := Ticker(RadiusLabels)

  /** The quantities the mass labels denote, position by position. */
  const MassTable: seq<Quantity> := [
    Quantity(0.0, EarthMass),
    Quantity(1.0, EarthMass),
    Quantity(2.0, EarthMass),
    Quantity(5.0, EarthMass),
    Quantity(10.0, EarthMass),
    Quantity(20.0, EarthMass),
    Quantity(0.1, JupiterMass),
    Quantity(0.2, JupiterMass),
    Quantity(0.5, JupiterMass),
    Quantity(0.8, JupiterMass),
    Quantity(1.0, JupiterMass),
    Quantity(1.5, JupiterMass),
    Quantity(2.0, JupiterMass),
    Quantity(3.0, JupiterMass),
    Quantity(5.0, JupiterMass),
    Quantity(8.0, JupiterMass),
    Quantity(10.0, JupiterMass),
    Quantity(13.0, JupiterMass),
    Quantity(20.0, JupiterMass),
    Quantity(30.0, JupiterMass),
    Quantity(50.0, JupiterMass)
  ]

  /** The quantities the radius labels denote, position by position. */
  const RadiusTable: seq<Quantity> := [
    Quantity(0.0, EarthRadius),
    Quantity(0.5, EarthRadius),
    Quantity(1.0, EarthRadius),
    Quantity(1.6, EarthRadius),
    Quantity(2.0, EarthRadius),
    Quantity(3.0, EarthRadius),
    Quantity(4.0, EarthRadius),
    Quantity(5.0, EarthRadius),
    Quantity(0.5, JupiterRadius),
    Quantity(0.8, JupiterRadius),
    Quantity(1.0, JupiterRadius),
    Quantity(1.2, JupiterRadius),
    Quantity(1.5, JupiterRadius),
    Quantity(1.8, JupiterRadius),
    Quantity(2.0, JupiterRadius),
    Quantity(2.5, JupiterRadius),
    Quantity(3.0, JupiterRadius),
    Quantity(5.0, JupiterRadius)
  ]

  /** The mass slider runs over positions 0 to 20, the radius slider over 0 to 16. */
  const MassSliderEnd: nat := 20
  const RadiusSliderEnd: nat := 16

  /** The radius slider end that reaches the last radius entry, as the mass slider does. */
  const CorrectedRadiusSliderEnd: nat := |RadiusTable| - 1

  /** Reading `mass_ticker` back gives the mass labels, in slider order. */
  lemma MassTickerEntries()
    ensures TickerEntries(MassTicker) == Success(MassLabels)
  {
    assert forall k :: 0 <= k < |MassLabels| ==> Admissible(MassLabels[k]);
    TickerRoundTrip(MassLabels);
  }

  /** Reading `radius_ticker` back gives the radius labels, in slider order. */
  lemma RadiusTickerEntries()
    ensures TickerEntries(RadiusTicker) == Success(RadiusLabels)
  {
    assert forall k :: 0 <= k < |RadiusLabels| ==> Admissible(RadiusLabels[k]);
    TickerRoundTrip(RadiusLabels);
  }

  /** Mass breakpoints grow strictly from position to position: 20 Earth masses are below 0.1 Jupiter masses. */
  lemma MassTableIncreasing(conv: Conversion)
    requires ValidConversion(conv)
    ensures StrictlyIncreasing(MassTable, conv)
  {
    var r := conv.earthMassInJupiterMasses;
    assert 20.0 * r < 0.1;
    assert forall i :: 0 <= i < |MassTable| - 1 ==> Resolve(MassTable, i, conv) < Resolve(MassTable, i + 1, conv);
    IncreasingFromAdjacent(MassTable, conv);
  }

  /** Radius breakpoints grow strictly from position to position: 5 Earth radii are below 0.5 Jupiter radii. */
  lemma RadiusTableIncreasing(conv: Conversion)
    requires ValidConversion(conv)
    ensures StrictlyIncreasing(RadiusTable, conv)
  {
    var r := conv.earthRadiusInJupiterRadii;
    assert 5.0 * r < 0.5;
    assert forall i :: 0 <= i < |RadiusTable| - 1 ==> Resolve(RadiusTable, i, conv) < Resolve(RadiusTable, i + 1, conv);
    IncreasingFromAdjacent(RadiusTable, conv);
  }

  /**
   * The bracketed annotations of the labels agree, to the digits they show,
   * with the value the resolver gives: "20 Me (0.06 Mj)", "0.1 Mj (32 Me)",
   * "3 Re (0.27 Rj)", "4 Re (0.36 Rj)" and "5 Re (0.45 Rj)".
   */
  lemma AnnotationsAgree(conv: Conversion)
    requires ValidConversion(conv)
    ensures 0.055 <= Resolve(MassTable, 5, conv) < 0.065
    ensures 31.5 * conv.earthMassInJupiterMasses <= Resolve(MassTable, 6, conv) < 32.5 * conv.earthMassInJupiterMasses
    ensures 0.265 <= Resolve(RadiusTable, 5, conv) < 0.275
    ensures 0.355 <= Resolve(RadiusTable, 6, conv) < 0.365
    ensures 0.445 <= Resolve(RadiusTable, 7, conv) < 0.455
  {
  }

  lemma ReadsWhole(lbl: string, magnitude: string, unit: string, trailing: string, kind: Kind, q: Quantity)
    requires lbl == magnitude + " " + unit + trailing
    requires ' ' !in magnitude && ' ' !in unit && (trailing == [] || trailing[0] == ' ')
    requires |magnitude| > 0 && AllDigits(magnitude) && DigitsValue(magnitude) as real == q.magnitude
    requires UnitOf(unit, kind) == Some(q.unit)
    ensures ParseLabel(lbl, kind) == Success(q)
  {
    LabelTokens(magnitude, unit, trailing, kind);
    DecimalWithoutPoint(magnitude);
  }

  lemma ReadsFraction(lbl: string, whole: string, frac: string, unit: string, trailing: string, kind: Kind, q: Quantity)
    requires lbl == whole + "." + frac + " " + unit + trailing
    requires ' ' !in whole && ' ' !in frac && ' ' !in unit && (trailing == [] || trailing[0] == ' ')
    requires AllDigits(whole) && AllDigits(frac) && |whole| + |frac| > 0
    requires AllDigits(whole + frac) && DigitsValue(whole + frac) as real / Pow10(|frac|) as real == q.magnitude
    requires UnitOf(unit, kind) == Some(q.unit)
    ensures ParseLabel(lbl, kind) == Success(q)
  {
    assert whole + "." + frac + " " + unit + trailing == (whole + "." + frac) + " " + unit + trailing;
    LabelTokens(whole + "." + frac, unit, trailing, kind);
    DecimalWithPoint(whole, frac);
  }

  /** Each mass label reads as the quantity at the same position of the table. */
  lemma MassLabelsRead()
    ensures |MassLabels| == |MassTable|
    ensures forall i :: 0 <= i < |MassLabels| ==> ParseLabel(MassLabels[i], Mass) == Success(MassTable[i])
  {
    forall i | 0 <= i < |MassLabels|
      ensures ParseLabel(MassLabels[i], Mass) == Success(MassTable[i])
    {
      if i < 5 { MassLabelsReadA(i); }
      else if i < 7 { MassLabelsReadB(i); }
      else if i < 9 { MassLabelsReadC(i); }
      else if i < 11 { MassLabelsReadD(i); }
      else if i < 15 { MassLabelsReadE(i); }
      else if i < 20 { MassLabelsReadF(i); }
      else { MassLabelsReadG(i); }
    }
  }

  lemma MassLabelsReadA(i: nat)
    requires 0 <= i < 5
    ensures ParseLabel(MassLabels[i], Mass) == Success(MassTable[i])
  {
    match i
    case 0 => ReadsWhole(MassLabels[0], "0", "Me", "", Mass, Quantity(0.0, EarthMass));
    case 1 => ReadsWhole(MassLabels[1], "1", "Me", "", Mass, Quantity(1.0, EarthMass));
    case 2 => ReadsWhole(MassLabels[2], "2", "Me", "", Mass, Quantity(2.0, EarthMass));
    case 3 => ReadsWhole(MassLabels[3], "5", "Me", "", Mass, Quantity(5.0, EarthMass));
    case 4 => ReadsWhole(MassLabels[4], "10", "Me", "", Mass, Quantity(10.0, EarthMass));
  }

  lemma MassLabelsReadB(i: nat)
    requires 5 <= i < 7
    ensures ParseLabel(MassLabels[i], Mass) == Success(MassTable[i])
  {
    match i
    case 5 => ReadsWhole(MassLabels[5], "20", "Me", " (0.06 Mj)", Mass, Quantity(20.0, EarthMass));
    case 6 => ReadsFraction(MassLabels[6], "0", "1", "Mj", " (32 Me)", Mass, Quantity(0.1, JupiterMass));
  }

  lemma MassLabelsReadC(i: nat)
    requires 7 <= i < 9
    ensures ParseLabel(MassLabels[i], Mass) == Success(MassTable[i])
  {
    match i
    case 7 => ReadsFraction(MassLabels[7], "0", "2", "Mj", "", Mass, Quantity(0.2, JupiterMass));
    case 8 => ReadsFraction(MassLabels[8], "0", "5", "Mj", "", Mass, Quantity(0.5, JupiterMass));
  }

  lemma MassLabelsReadD(i: nat)
    requires 9 <= i < 11
    ensures ParseLabel(MassLabels[i], Mass) == Success(MassTable[i])
  {
    match i
    case 9 => ReadsFraction(MassLabels[9], "0", "8", "Mj", "", Mass, Quantity(0.8, JupiterMass));
    case 10 => ReadsWhole(MassLabels[10], "1", "Mj", "", Mass, Quantity(1.0, JupiterMass));
  }

  lemma MassLabelsReadE(i: nat)
    requires 11 <= i < 15
    ensures ParseLabel(MassLabels[i], Mass) == Success(MassTable[i])
  {
    match i
    case 11 => ReadsFraction(MassLabels[11], "1", "5", "Mj", "", Mass, Quantity(1.5, JupiterMass));
    case 12 => ReadsWhole(MassLabels[12], "2", "Mj", "", Mass, Quantity(2.0, JupiterMass));
    case 13 => ReadsWhole(MassLabels[13], "3", "Mj", "", Mass, Quantity(3.0, JupiterMass));
    case 14 => ReadsWhole(MassLabels[14], "5", "Mj", "", Mass, Quantity(5.0, JupiterMass));
  }

  lemma MassLabelsReadF(i: nat)
    requires 15 <= i < 20
    ensures ParseLabel(MassLabels[i], Mass) == Success(MassTable[i])
  {
    match i
    case 15 => ReadsWhole(MassLabels[15], "8", "Mj", "", Mass, Quantity(8.0, JupiterMass));
    case 16 => ReadsWhole(MassLabels[16], "10", "Mj", "", Mass, Quantity(10.0, JupiterMass));
    case 17 => ReadsWhole(MassLabels[17], "13", "Mj", "", Mass, Quantity(13.0, JupiterMass));
    case 18 => ReadsWhole(MassLabels[18], "20", "Mj", "", Mass, Quantity(20.0, JupiterMass));
    case 19 => ReadsWhole(MassLabels[19], "30", "Mj", "", Mass, Quantity(30.0, JupiterMass));
  }

  lemma MassLabelsReadG(i: nat)
    requires 20 <= i < 21
    ensures ParseLabel(MassLabels[i], Mass) == Success(MassTable[i])
  {
    match i
    case 20 => ReadsWhole(MassLabels[20], "50", "Mj", "", Mass, Quantity(50.0, JupiterMass));
  }

  /** Each radius label reads as the quantity at the same position of the table. */
  lemma RadiusLabelsRead()
    ensures |RadiusLabels| == |RadiusTable|
    ensures forall i :: 0 <= i < |RadiusLabels| ==> ParseLabel(RadiusLabels[i], Radius) == Success(RadiusTable[i])
  {
    forall i | 0 <= i < |RadiusLabels|
      ensures ParseLabel(RadiusLabels[i], Radius) == Success(RadiusTable[i])
    {
      if i < 3 { RadiusLabelsReadA(i); }
      else if i < 7 { RadiusLabelsReadB(i); }
      else if i < 9 { RadiusLabelsReadC(i); }
      else if i < 11 { RadiusLabelsReadD(i); }
      else if i < 13 { RadiusLabelsReadE(i); }
      else if i < 15 { RadiusLabelsReadF(i); }
      else { RadiusLabelsReadG(i); }
    }
  }

  lemma RadiusLabelsReadA(i: nat)
    requires 0 <= i < 3
    ensures ParseLabel(RadiusLabels[i], Radius) == Success(RadiusTable[i])
  {
    match i
    case 0 => ReadsWhole(RadiusLabels[0], "0", "Re", "", Radius, Quantity(0.0, EarthRadius));
    case 1 => ReadsFraction(RadiusLabels[1], "0", "5", "Re", "", Radius, Quantity(0.5, EarthRadius));
    case 2 => ReadsWhole(RadiusLabels[2], "1", "Re", "", Radius, Quantity(1.0, EarthRadius));
  }

  lemma RadiusLabelsReadB(i: nat)
    requires 3 <= i < 7
    ensures ParseLabel(RadiusLabels[i], Radius) == Success(RadiusTable[i])
  {
    match i
    case 3 => ReadsFraction(RadiusLabels[3], "1", "6", "Re", "", Radius, Quantity(1.6, EarthRadius));
    case 4 => ReadsWhole(RadiusLabels[4], "2", "Re", "", Radius, Quantity(2.0, EarthRadius));
    case 5 => ReadsWhole(RadiusLabels[5], "3", "Re", " (0.27 Rj)", Radius, Quantity(3.0, EarthRadius));
    case 6 => ReadsWhole(RadiusLabels[6], "4", "Re", " (0.36 Rj)", Radius, Quantity(4.0, EarthRadius));
  }

  lemma RadiusLabelsReadC(i: nat)
    requires 7 <= i < 9
    ensures ParseLabel(RadiusLabels[i], Radius) == Success(RadiusTable[i])
  {
    match i
    case 7 => ReadsWhole(RadiusLabels[7], "5", "Re", " (0.45 Rj)", Radius, Quantity(5.0, EarthRadius));
    case 8 => ReadsFraction(RadiusLabels[8], "0", "5", "Rj", "", Radius, Quantity(0.5, JupiterRadius));
  }

  lemma RadiusLabelsReadD(i: nat)
    requires 9 <= i < 11
    ensures ParseLabel(RadiusLabels[i], Radius) == Success(RadiusTable[i])
  {
    match i
    case 9 => ReadsFraction(RadiusLabels[9], "0", "8", "Rj", "", Radius, Quantity(0.8, JupiterRadius));
    case 10 => ReadsWhole(RadiusLabels[10], "1", "Rj", "", Radius, Quantity(1.0, JupiterRadius));
  }

  lemma RadiusLabelsReadE(i: nat)
    requires 11 <= i < 13
    ensures ParseLabel(RadiusLabels[i], Radius) == Success(RadiusTable[i])
  {
    match i
    case 11 => ReadsFraction(RadiusLabels[11], "1", "2", "Rj", "", Radius, Quantity(1.2, JupiterRadius));
    case 12 => ReadsFraction(RadiusLabels[12], "1", "5", "Rj", "", Radius, Quantity(1.5, JupiterRadius));
  }

  lemma RadiusLabelsReadF(i: nat)
    requires 13 <= i < 15
    ensures ParseLabel(RadiusLabels[i], Radius) == Success(RadiusTable[i])
  {
    match i
    case 13 => ReadsFraction(RadiusLabels[13], "1", "8", "Rj", "", Radius, Quantity(1.8, JupiterRadius));
    case 14 => ReadsWhole(RadiusLabels[14], "2", "Rj", "", Radius, Quantity(2.0, JupiterRadius));
  }

  lemma RadiusLabelsReadG(i: nat)
    requires 15 <= i < 18
    ensures ParseLabel(RadiusLabels[i], Radius) == Success(RadiusTable[i])
  {
    match i
    case 15 => ReadsFraction(RadiusLabels[15], "2", "5", "Rj", "", Radius, Quantity(2.5, JupiterRadius));
    case 16 => ReadsWhole(RadiusLabels[16], "3", "Rj", "", Radius, Quantity(3.0, JupiterRadius));
    case 17 => ReadsWhole(RadiusLabels[17], "5", "Rj", "", Radius, Quantity(5.0, JupiterRadius));
  }
}
