/**
 * The tick-table resolver of main.py: the mass and radius range sliders move
 * over list positions, and the labels shown at those positions live in a
 * JavaScript array literal. The resolver reads that literal back, takes each
 * label apart into a magnitude and a unit, and the constraint evaluator later
 * turns the quantity at a slider position into Jupiter units.
 */
module Ticks {
  import opened Wrappers
  import opened Text

  /** The two quantities a tick table is made of. */
  datatype Kind = Mass | Radius

  datatype Unit = EarthMass | JupiterMass | EarthRadius | JupiterRadius

  /** A magnitude with its unit: what the resolver appends for one label. */
  datatype Quantity = Quantity(magnitude: real, unit: Unit)

  datatype TickError =
    | NoArrayLine                  // the ticker text has no line 1
    | MissingUnit(text: string)   // a label without a space, so without a unit token
    | UnknownUnit(token: string)   // a unit token the scale does not recognise
    | BadMagnitude(token: string)  // a magnitude token that is not a decimal number

  /** The units a table of the given kind may use. */
  predicate InFamily(u: Unit, kind: Kind)
  {
    match kind
    case Mass => u == EarthMass || u == JupiterMass
    case Radius => u == EarthRadius || u == JupiterRadius
  }

  /** The unit a label's second token names: Me/Mj for mass, Re/Rj for radius. */
  function UnitOf(token: string, kind: Kind): (r: Option<Unit>)
    ensures r.Some? ==> InFamily(r.value, kind)
    ensures r.Some? <==> (kind == Mass && token in {"Me", "Mj"}) || (kind == Radius && token in {"Re", "Rj"})
    ensures r == Some(EarthMass) <==> kind == Mass && token == "Me"
    ensures r == Some(JupiterMass) <==> kind == Mass && token == "Mj"
    ensures r == Some(EarthRadius) <==> kind == Radius && token == "Re"
    ensures r == Some(JupiterRadius) <==> kind == Radius && token == "Rj"
  {
    match kind
    case Mass =>
      if token == "Me" then Some(EarthMass) else if token == "Mj" then Some(JupiterMass) else None
    case Radius =>
      if token == "Re" then Some(EarthRadius) else if token == "Rj" then Some(JupiterRadius) else None
  }

  predicate AllDigits(s: string)
  {
    forall i :: 0 <= i < |s| ==> '0' <= s[i] <= '9'
  }

  /** The natural number a string of decimal digits denotes. */
  function DigitsValue(s: string): nat
    requires AllDigits(s)
  {
    if |s| == 0 then 0 else DigitsValue(s[..|s| - 1]) * 10 + (s[|s| - 1] as int - '0' as int)
  }

  function Pow10(k: nat): (p: nat)
    ensures p >= 1
  {
    if k == 0 then 1 else 10 * Pow10(k - 1)
  }

  /**
   * The number a magnitude token denotes: digits, optionally a point and more
   * digits, with at least one digit in all ("5", "0.06", "5." and ".5").
   */
  function ParseDecimal(token: string): (r: Option<real>)
    ensures r.Some? ==> r.value >= 0.0
  {
    var parts := Split(token, '.');
    if |parts| > 2 then None
    else
      var whole := parts[0];
      var frac := if |parts| == 2 then parts[1] else [];
      if |whole| + |frac| == 0 || !AllDigits(whole) || !AllDigits(frac) then None
      else if |parts| == 1 then Some(DigitsValue(whole) as real)
      else
        Some(DigitsValue(whole + frac) as real / Pow10(|frac|) as real)
  }

  /** A token of digits alone denotes the number they spell. */
  lemma DecimalWithoutPoint(token: string)
    requires |token| > 0 && AllDigits(token)
    ensures ParseDecimal(token) == Some(DigitsValue(token) as real)
  {
    assert '.' !in token by {
      assert forall k :: 0 <= k < |token| ==> token[k] != '.';
    }
    SplitWithoutSeparator(token, '.');
  }

  /** A token with one decimal point denotes its digits scaled down by the fraction's length. */
  lemma DecimalWithPoint(whole: string, frac: string)
    requires AllDigits(whole) && AllDigits(frac) && |whole| + |frac| > 0
    ensures AllDigits(whole + frac)
    ensures ParseDecimal(whole + "." + frac) == Some(DigitsValue(whole + frac) as real / Pow10(|frac|) as real)
  {
    assert '.' !in whole;
    assert '.' !in frac;
    SplitAtFirstSeparator(whole, frac, '.');
    SplitWithoutSeparator(frac, '.');
    assert whole + "." + frac == whole + ['.'] + frac;
  }

  /**
   * What a label's first two tokens resolve to: an unknown unit token is
   * reported first, then a magnitude that is not a decimal number; otherwise
   * the quantity they spell.
   */
  function ParseTokens(magnitude: string, unit: string, kind: Kind): (r: Result<Quantity, TickError>)
    ensures r.Success? <==> UnitOf(unit, kind).Some? && ParseDecimal(magnitude).Some?
    ensures UnitOf(unit, kind).None? ==> r == Failure(UnknownUnit(unit))
    ensures UnitOf(unit, kind).Some? && ParseDecimal(magnitude).None? ==> r == Failure(BadMagnitude(magnitude))
    ensures r.Success? ==> r.value == Quantity(ParseDecimal(magnitude).value, UnitOf(unit, kind).value)
  {
    match UnitOf(unit, kind)
    case None => Failure(UnknownUnit(unit))
    case Some(u) =>
      match ParseDecimal(magnitude)
      case None => Failure(BadMagnitude(magnitude))
      case Some(m) => Success(Quantity(m, u))
  }

  /**
   * One label of the table: token 0 (before the first space) is the magnitude,
   * token 1 the unit, and whatever follows is not read.
   */
  function ParseLabel(lbl: string, kind: Kind): (r: Result<Quantity, TickError>)
    ensures r.Success? ==> InFamily(r.value.unit, kind) && r.value.magnitude >= 0.0
    ensures ' ' !in lbl ==> r == Failure(MissingUnit(lbl))
  {
    var tokens := Split(lbl, ' ');
    if ' ' !in lbl then
      SplitWithoutSeparator(lbl, ' ');
      Failure(MissingUnit(lbl))
    else ParseTokens(tokens[0], tokens[1], kind)
  }

  /** The first two space-separated tokens of a label decide it; trailing text is ignored. */
  lemma LabelTokens(magnitude: string, unit: string, trailing: string, kind: Kind)
    requires ' ' !in magnitude && ' ' !in unit
    requires trailing == [] || trailing[0] == ' '
    ensures ParseLabel(magnitude + " " + unit + trailing, kind) == ParseTokens(magnitude, unit, kind)
  {
    LabelSplit(magnitude, unit, trailing);
  }

  /** Splitting `magnitude unit trailing` at spaces gives the magnitude and the unit as tokens 0 and 1. */
  lemma LabelSplit(magnitude: string, unit: string, trailing: string)
    requires ' ' !in magnitude && ' ' !in unit
    requires trailing == [] || trailing[0] == ' '
    ensures var lbl := magnitude + " " + unit + trailing;
      var tokens := Split(lbl, ' ');
      ' ' in lbl && |tokens| >= 2 && tokens[0] == magnitude && tokens[1] == unit
  {
    var lbl := magnitude + " " + unit + trailing;
    var after := unit + trailing;
    assert lbl == magnitude + [' '] + after;
    SplitAtFirstSeparator(magnitude, after, ' ');
    var rest := Split(after, ' ');
    if trailing == [] {
      assert after == unit;
      SplitWithoutSeparator(unit, ' ');
    } else {
      assert after == unit + [' '] + trailing[1..];
      SplitAtFirstSeparator(unit, trailing[1..], ' ');
    }
    assert rest[0] == unit;
    assert Split(lbl, ' ') == [magnitude] + rest;
    assert lbl[|magnitude|] == ' ';
  }

  /** A label whose unit token is not one of its table's units is reported with that token. */
  lemma UnknownUnitRejected(magnitude: string, unit: string, trailing: string, kind: Kind)
    requires ' ' !in magnitude && ' ' !in unit
    requires trailing == [] || trailing[0] == ' '
    requires UnitOf(unit, kind).None?
    ensures ParseLabel(magnitude + " " + unit + trailing, kind) == Failure(UnknownUnit(unit))
  {
    LabelTokens(magnitude, unit, trailing, kind);
  }

  /** The written symbol of each unit: Me, Mj, Re and Rj. */
  function Symbol(u: Unit): string
  {
    match u
    case EarthMass => "Me"
    case JupiterMass => "Mj"
    case EarthRadius => "Re"
    case JupiterRadius => "Rj"
  }

  /** Each unit's symbol reads back as that unit in the tables of its family, and in no other. */
  lemma SymbolRoundTrip(u: Unit, kind: Kind)
    ensures UnitOf(Symbol(u), kind) == (if InFamily(u, kind) then Some(u) else None)
  {
  }

  /** An Earth-to-Jupiter conversion: how many Jupiter masses (radii) one Earth mass (radius) is. */
  datatype Conversion = Conversion(earthMassInJupiterMasses: real, earthRadiusInJupiterRadii: real)

  /**
   * The ratios lie close around their physical values: an Earth mass is about
   * 0.003146 Jupiter masses and an Earth (equatorial) radius about 0.08921
   * Jupiter radii.
   */
  predicate ValidConversion(c: Conversion)
  {
    && 0.0031 < c.earthMassInJupiterMasses < 0.00317
    && 0.089 < c.earthRadiusInJupiterRadii < 0.0905
  }

  /** A tick quantity in Jupiter masses or Jupiter radii, the unit of the catalog's columns. */
  function InJupiterUnits(q: Quantity, conv: Conversion): (v: real)
    requires ValidConversion(conv)
    ensures v >= 0.0 <==> q.magnitude >= 0.0
    ensures q.unit == EarthMass || q.unit == EarthRadius ==> (q.magnitude > 0.0 ==> v < q.magnitude)
    ensures q.unit == JupiterMass || q.unit == JupiterRadius ==> v == q.magnitude
    ensures q.unit == EarthMass ==> v == q.magnitude * conv.earthMassInJupiterMasses
    ensures q.unit == EarthRadius ==> v == q.magnitude * conv.earthRadiusInJupiterRadii
  {
    match q.unit
    case EarthMass => q.magnitude * conv.earthMassInJupiterMasses
    case JupiterMass => q.magnitude
    case EarthRadius => q.magnitude * conv.earthRadiusInJupiterRadii
    case JupiterRadius => q.magnitude
  }

  const ArrayPrefix: string := "    var v=["
  const ArraySuffix: string := "];"
  const Epilogue: string := "    return v[tick]\n    "

  /**
   * The array entries of a ticker: line 1 of the text with the prefix, the
   * suffix and every quote removed, split at the commas.
   */
  function TickerEntries(ticker: string): (r: Result<seq<string>, TickError>)
    ensures r.Success? ==> |r.value| > 0 && forall k :: 0 <= k < |r.value| ==> ',' !in r.value[k]
    ensures r.Failure? <==> '\n' !in ticker
  {
    var lines := Split(ticker, '\n');
    if |lines| < 2 then Failure(NoArrayLine)
    else Success(Split(Replace(Replace(Replace(lines[1], ArrayPrefix, ""), ArraySuffix, ""), "'", ""), ','))
  }

  /** The quoted, comma-separated entries of a JavaScript array literal. */
  function QuotedList(labels: seq<string>): string
  {
    if |labels| == 0 then []
    else if |labels| == 1 then "'" + labels[0] + "'"
    else "'" + labels[0] + "'," + QuotedList(labels[1..])
  }

  /** The line that declares the JavaScript array of the labels. */
  function ArrayLine(labels: seq<string>): string
  {
    ArrayPrefix + QuotedList(labels) + ArraySuffix
  }

  /** The ticker text a list of labels is written as: the array line is line 1. */
  function Ticker(labels: seq<string>): string
  {
    "\n" + ArrayLine(labels) + "\n" + Epilogue
  }

  /** A label that can stand in the array literal without changing how the line is read. */
  predicate Admissible(lbl: string)
  {
    '\'' !in lbl && ',' !in lbl && '\n' !in lbl && '[' !in lbl && ']' !in lbl
  }

  lemma {:induction false} QuotedListAvoids(labels: seq<string>, c: char)
    requires c != '\'' && c != ','
    requires forall k :: 0 <= k < |labels| ==> c !in labels[k]
    ensures c !in QuotedList(labels)
    decreases |labels|
  {
    if |labels| > 1 {
      QuotedListAvoids(labels[1..], c);
    }
  }

  /** Removing the quotes from the quoted list leaves the labels joined by commas. */
  lemma {:induction false} Unquote(labels: seq<string>)
    requires forall k :: 0 <= k < |labels| ==> '\'' !in labels[k]
    ensures Replace(QuotedList(labels), "'", "") == Join(labels, ',')
    decreases |labels|
  {
    if |labels| == 1 {
      UnquoteOne(labels[0]);
      ReplaceCharConcat(UnquotedOne(labels[0]), [], '\'', "");
    } else if |labels| > 1 {
      var rest := QuotedList(labels[1..]);
      assert QuotedList(labels) == UnquotedOne(labels[0]) + "," + rest;
      UnquoteOne(labels[0]);
      ReplaceCharConcat(UnquotedOne(labels[0]) + ",", rest, '\'', "");
      ReplaceCharConcat(UnquotedOne(labels[0]), ",", '\'', "");
      ReplaceAbsent(",", "'", "", 0);
      Unquote(labels[1..]);
    }
  }

  /** One label between quotes. */
  function UnquotedOne(lbl: string): string
  {
    "'" + lbl + "'"
  }

  /** Removing the quotes around one quote-free label leaves the label. */
  lemma UnquoteOne(lbl: string)
    requires '\'' !in lbl
    ensures Replace(UnquotedOne(lbl), "'", "") == lbl
  {
    var q := "'";
    ReplaceAbsent(lbl, q, "", 0);
    ReplaceAtStart([], q, "");
    assert Replace(q, q, "") == "" by {
      assert q + [] == q;
    }
    ReplaceCharConcat(q + lbl, q, '\'', "");
    ReplaceCharConcat(q, lbl, '\'', "");
  }

  /**
   * Reading a ticker back gives exactly the labels it was written from, in the
   * same order, so list position i is the label the slider shows at i.
   */
  lemma TickerRoundTrip(labels: seq<string>)
    requires |labels| > 0
    requires forall k :: 0 <= k < |labels| ==> Admissible(labels[k])
    ensures TickerEntries(Ticker(labels)) == Success(labels)
  {
    ArrayLineOfTicker(labels);
    StripArrayLine(QuotedList(labels), labels);
    Unquote(labels);
    SplitJoin(labels, ',');
  }

  /** Line 1 of a ticker is its array line. */
  lemma ArrayLineOfTicker(labels: seq<string>)
    requires forall k :: 0 <= k < |labels| ==> '\n' !in labels[k]
    ensures var lines := Split(Ticker(labels), '\n');
      |lines| > 1 && lines[1] == ArrayLine(labels)
  {
    QuotedListAvoids(labels, '\n');
    LineOne(QuotedList(labels));
  }

  lemma LineOne(body: string)
    requires '\n' !in body
    ensures var line := ArrayPrefix + body + ArraySuffix;
      var lines := Split("\n" + line + "\n" + Epilogue, '\n');
      |lines| > 1 && lines[1] == line
  {
    var line := ArrayPrefix + body + ArraySuffix;
    ArrayLineAvoidsBreak(body);
    assert "\n" + line + "\n" + Epilogue == [] + ['\n'] + (line + ['\n'] + Epilogue);
    SecondLine(line, Epilogue);
  }

  lemma ArrayLineAvoidsBreak(body: string)
    requires '\n' !in body
    ensures '\n' !in ArrayPrefix + body + ArraySuffix
  {
  }

  /** Removing the prefix and the suffix from an array line leaves its quoted list. */
  lemma StripArrayLine(body: string, labels: seq<string>)
    requires body == QuotedList(labels)
    requires forall k :: 0 <= k < |labels| ==> '[' !in labels[k] && ']' !in labels[k]
    ensures Replace(Replace(ArrayPrefix + body + ArraySuffix, ArrayPrefix, ""), ArraySuffix, "") == body
  {
    QuotedListAvoids(labels, '[');
    QuotedListAvoids(labels, ']');
    StripArrayLineOf(body);
  }

  lemma StripArrayLineOf(body: string)
    requires '[' !in body && ']' !in body
    ensures Replace(Replace(ArrayPrefix + body + ArraySuffix, ArrayPrefix, ""), ArraySuffix, "") == body
  {
    assert ArrayPrefix[|ArrayPrefix| - 1] == '[' && '[' !in ArraySuffix;
    StripAround(ArrayPrefix, body, ArraySuffix);
  }

  /**
   * The resolver: the ticker's entries in order, each replaced by the
   * quantity its label denotes; the first label that cannot be read stops it
   * with that label's error.
   */
  method ResolveTicker(ticker: string, kind: Kind) returns (r: Result<seq<Quantity>, TickError>)
    ensures TickerEntries(ticker).Failure? ==> r == Failure(NoArrayLine)
    ensures r.Success? ==>
      && TickerEntries(ticker).Success?
      && var labels := TickerEntries(ticker).value;
      && |r.value| == |labels|
      && forall i :: 0 <= i < |labels| ==> ParseLabel(labels[i], kind) == Success(r.value[i])
    ensures r.Success? ==> forall i :: 0 <= i < |r.value| ==> InFamily(r.value[i].unit, kind)
    ensures r.Failure? && TickerEntries(ticker).Success? ==>
      var labels := TickerEntries(ticker).value;
      exists i :: 0 <= i < |labels| && ParseLabel(labels[i], kind) == Failure(r.error)
        && forall j :: 0 <= j < i ==> ParseLabel(labels[j], kind).Success?
  {
    var entries := TickerEntries(ticker);
    if entries.Failure? {
      return Failure(NoArrayLine);
    }
    r := ResolveLabels(entries.value, kind);
  }

  /**
   * The two resolving loops: each label in order becomes its quantity, and
   * the first label that does not parse ends the loop with its error.
   */
  method ResolveLabels(labels: seq<string>, kind: Kind) returns (r: Result<seq<Quantity>, TickError>)
    ensures r.Success? ==>
      && |r.value| == |labels|
      && forall i :: 0 <= i < |labels| ==> ParseLabel(labels[i], kind) == Success(r.value[i])
    ensures r.Success? ==> forall i :: 0 <= i < |r.value| ==> InFamily(r.value[i].unit, kind)
    ensures r.Failure? ==>
      exists i :: 0 <= i < |labels| && ParseLabel(labels[i], kind) == Failure(r.error)
        && forall j :: 0 <= j < i ==> ParseLabel(labels[j], kind).Success?
  {
    var values: seq<Quantity> := [];
    var i := 0;
    while i < |labels|
      invariant 0 <= i <= |labels| && |values| == i
      invariant forall j :: 0 <= j < i ==> ParseLabel(labels[j], kind) == Success(values[j])
      invariant forall j :: 0 <= j < i ==> InFamily(values[j].unit, kind)
    {
      var tick := ParseLabel(labels[i], kind);
      if tick.Failure? {
        assert forall j :: 0 <= j < i ==> ParseLabel(labels[j], kind).Success?;
        return Failure(tick.error);
      }
      values := values + [tick.value];
      i := i + 1;
    }
    return Success(values);
  }

  /**
   * The quantity at a slider position, in Jupiter units: the slider only ever
   * reports positions inside the table.
   */
  function Resolve(ticks: seq<Quantity>, index: int, conv: Conversion): (v: real)
    requires 0 <= index < |ticks|
    requires ValidConversion(conv)
    ensures v >= 0.0 <==> ticks[index].magnitude >= 0.0
  {
    InJupiterUnits(ticks[index], conv)
  }

  /** The tick values, in Jupiter units, grow strictly from each position to the next. */
  ghost predicate StrictlyIncreasing(ticks: seq<Quantity>, conv: Conversion)
    requires ValidConversion(conv)
  {
    forall i, j :: 0 <= i < j < |ticks| ==> Resolve(ticks, i, conv) < Resolve(ticks, j, conv)
  }

  /** Growth from each position to the next is growth from any position to any later one. */
  lemma {:induction false} IncreasingFromAdjacent(ticks: seq<Quantity>, conv: Conversion)
    requires ValidConversion(conv)
    requires forall i :: 0 <= i < |ticks| - 1 ==> Resolve(ticks, i, conv) < Resolve(ticks, i + 1, conv)
    ensures StrictlyIncreasing(ticks, conv)
  {
    forall i, j | 0 <= i < j < |ticks|
      ensures Resolve(ticks, i, conv) < Resolve(ticks, j, conv)
    {
      var k := i + 1;
      while k < j
        invariant i < k <= j
        invariant Resolve(ticks, i, conv) < Resolve(ticks, k, conv)
      {
        k := k + 1;
      }
    }
  }

  /**
   * On a strictly increasing table, slider positions and the bounds they
   * resolve to are in the same order, so a range slider with lower position
   * at most its upper position always yields a non-empty range.
   */
  lemma ResolveOrder(ticks: seq<Quantity>, conv: Conversion, i: int, j: int)
    requires ValidConversion(conv) && StrictlyIncreasing(ticks, conv)
    requires 0 <= i < |ticks| && 0 <= j < |ticks|
    ensures i <= j <==> Resolve(ticks, i, conv) <= Resolve(ticks, j, conv)
    ensures i == j <==> Resolve(ticks, i, conv) == Resolve(ticks, j, conv)
  {
    if i < j {
      assert Resolve(ticks, i, conv) < Resolve(ticks, j, conv);
    } else if j < i {
      assert Resolve(ticks, j, conv) < Resolve(ticks, i, conv);
    }
  }
}
