/**
 * `update_selection` and the projection of `update`: eight inclusive range
 * constraints ANDed into one mask over the table, and the two point tables
 * the figures draw, all planets and the selected planets.
 */
module Selection {
  import opened Wrappers
  import opened Tables
  import opened Ticks
  import opened Catalog
  import opened TickTables

  /** The eight attributes a range slider constrains. */
  datatype Attribute =
    | MassAttr | RadiusAttr | PeriodAttr | EccentricityAttr
    | TeqAttr | TeffAttr | GmagAttr | JmagAttr

  /**
   * The column each constraint reads. Mass and radius are read from the
   * archive's Jupiter columns `pl_massj` and `pl_radj`, not from the derived
   * `planetmass` and `planetradius` that the unit switch rewrites.
   */
  function AttributeValue(row: Row, a: Attribute): Option<real>
  {
    match a
    case MassAttr => row.planet.massJ
    case RadiusAttr => row.planet.radiusJ
    case PeriodAttr => row.planet.period
    case EccentricityAttr => row.planet.eccentricity
    case TeqAttr => row.planet.teq
    case TeffAttr => row.planet.teff
    case GmagAttr => row.planet.gmag
    case JmagAttr => row.planet.jmag
  }

  /** A closed interval [lo, hi]. */
  datatype Range = Range(lo: real, hi: real)

  /**
   * The `value_throttled` pair of every range slider. Mass and radius report
   * positions in their tick tables; the period slider's two values are taken
   * here as the day counts `10**value` it stands for; the other four report
   * the bounds themselves.
   */
  datatype Sliders = Sliders(
    massLo: int, massHi: int,
    radiusLo: int, radiusHi: int,
    period: Range, eccentricity: Range, teq: Range, teff: Range, gmag: Range, jmag: Range)

  /** The slider positions index the tick tables. */
  predicate PositionsInTables(s: Sliders, massTicks: seq<Quantity>, radiusTicks: seq<Quantity>)
  {
    0 <= s.massLo < |massTicks| && 0 <= s.massHi < |massTicks| &&
    0 <= s.radiusLo < |radiusTicks| && 0 <= s.radiusHi < |radiusTicks|
  }

  /** The bounds of all eight constraints, in the units of the columns they are compared with. */
  datatype Bounds = Bounds(
    mass: Range, radius: Range, period: Range, eccentricity: Range,
    teq: Range, teff: Range, gmag: Range, jmag: Range)

  function Bound(b: Bounds, a: Attribute): Range
  {
    match a
    case MassAttr => b.mass
    case RadiusAttr => b.radius
    case PeriodAttr => b.period
    case EccentricityAttr => b.eccentricity
    case TeqAttr => b.teq
    case TeffAttr => b.teff
    case GmagAttr => b.gmag
    case JmagAttr => b.jmag
  }

  /**
   * The bounds the sliders stand for: the mass and radius positions look up
   * their tick quantities, converted to Jupiter units; the rest pass through.
   */
  function SliderBounds(s: Sliders, massTicks: seq<Quantity>, radiusTicks: seq<Quantity>, conv: Conversion): (b: Bounds)
    requires PositionsInTables(s, massTicks, radiusTicks)
    requires ValidConversion(conv)
    ensures b.period == s.period && b.eccentricity == s.eccentricity && b.teq == s.teq
    ensures b.teff == s.teff && b.gmag == s.gmag && b.jmag == s.jmag
  {
    Bounds(
      Range(Resolve(massTicks, s.massLo, conv), Resolve(massTicks, s.massHi, conv)),
      Range(Resolve(radiusTicks, s.radiusLo, conv), Resolve(radiusTicks, s.radiusHi, conv)),
      s.period, s.eccentricity, s.teq, s.teff, s.gmag, s.jmag)
  }

  /**
   * Over increasing tick tables the mass and radius ranges are non-empty
   * exactly when the lower handle is not right of the upper one.
   */
  lemma SliderBoundsOrdered(s: Sliders, massTicks: seq<Quantity>, radiusTicks: seq<Quantity>, conv: Conversion)
    requires PositionsInTables(s, massTicks, radiusTicks)
    requires ValidConversion(conv)
    requires StrictlyIncreasing(massTicks, conv) && StrictlyIncreasing(radiusTicks, conv)
    ensures var b := SliderBounds(s, massTicks, radiusTicks, conv);
      (s.massLo <= s.massHi <==> b.mass.lo <= b.mass.hi) &&
      (s.radiusLo <= s.radiusHi <==> b.radius.lo <= b.radius.hi)
  {
    ResolveOrder(massTicks, conv, s.massLo, s.massHi);
    ResolveOrder(radiusTicks, conv, s.radiusLo, s.radiusHi);
  }

  /** `(column >= lo) & (column <= hi)` for one cell; a missing value fails both comparisons. */
  predicate InRange(v: Option<real>, r: Range)
  {
    v.Some? && r.lo <= v.value <= r.hi
  }

  /** One constraint vector of `update_selection`, one entry per row. */
  function ConstraintVector(rows: seq<Row>, a: Attribute, r: Range): (v: seq<bool>)
    ensures |v| == |rows|
    ensures forall i :: 0 <= i < |rows| ==>
      (v[i] <==> AttributeValue(rows[i], a).Some? && r.lo <= AttributeValue(rows[i], a).value <= r.hi)
    ensures r.hi < r.lo ==> forall i :: 0 <= i < |rows| ==> !v[i]
  {
    seq(|rows|, i requires 0 <= i < |rows| => InRange(AttributeValue(rows[i], a), r))
  }

  /** Element-wise `&` of two vectors of the same length. */
  function And(u: seq<bool>, v: seq<bool>): (w: seq<bool>)
    requires |u| == |v|
    ensures |w| == |u|
  {
    seq(|u|, i requires 0 <= i < |u| => u[i] && v[i])
  }

  /** `v0 & v1 & ... & vk`, evaluated left to right; all-true for no vectors. */
  function AndAll(vs: seq<seq<bool>>, n: nat): (w: seq<bool>)
    requires forall k :: 0 <= k < |vs| ==> |vs[k]| == n
    ensures |w| == n
  {
    if |vs| == 0 then seq(n, _ => true)
    else And(AndAll(vs[..|vs| - 1], n), vs[|vs| - 1])
  }

  /** An entry of the conjunction is true exactly when that entry is true in every vector. */
  lemma {:induction false} AndAllAt(vs: seq<seq<bool>>, n: nat, i: nat)
    requires forall k :: 0 <= k < |vs| ==> |vs[k]| == n
    requires i < n
    ensures AndAll(vs, n)[i] <==> forall k :: 0 <= k < |vs| ==> vs[k][i]
  {
    if |vs| > 0 {
      var m := |vs| - 1;
      AndAllAt(vs[..m], n, i);
      assert forall k :: 0 <= k < m ==> vs[..m][k] == vs[k];
    }
  }

  /** The constraint vectors for a list of attributes, in that order. */
  function Vectors(rows: seq<Row>, b: Bounds, order: seq<Attribute>): (vs: seq<seq<bool>>)
    ensures |vs| == |order|
    ensures forall k :: 0 <= k < |vs| ==> |vs[k]| == |rows|
  {
    seq(|order|, k requires 0 <= k < |order| => ConstraintVector(rows, order[k], Bound(b, order[k])))
  }

  /** The order in which `update_selection` writes the eight constraints into the conjunction. */
  const SourceOrder: seq<Attribute> :=
    [MassAttr, RadiusAttr, PeriodAttr, TeqAttr, TeffAttr, GmagAttr, EccentricityAttr, JmagAttr]

  /** Each of the eight attributes occurs in the source order. */
  lemma SourceOrderNamesAll()
    ensures forall a: Attribute :: a in SourceOrder
  {
    forall a: Attribute
      ensures a in SourceOrder
    {
      match a
      case MassAttr => assert SourceOrder[0] == a;
      case RadiusAttr => assert SourceOrder[1] == a;
      case PeriodAttr => assert SourceOrder[2] == a;
      case TeqAttr => assert SourceOrder[3] == a;
      case TeffAttr => assert SourceOrder[4] == a;
      case GmagAttr => assert SourceOrder[5] == a;
      case EccentricityAttr => assert SourceOrder[6] == a;
      case JmagAttr => assert SourceOrder[7] == a;
    }
  }

  /** The reference definition: every attribute of the row lies within its bound. */
  predicate Selected(row: Row, b: Bounds)
  {
    forall a: Attribute :: InRange(AttributeValue(row, a), Bound(b, a))
  }

  /** Conjoining the vectors of any list of attributes tests exactly the attributes in the list. */
  lemma ConjunctionOfOrder(rows: seq<Row>, b: Bounds, order: seq<Attribute>, i: nat)
    requires i < |rows|
    ensures AndAll(Vectors(rows, b, order), |rows|)[i] <==>
      forall a :: a in order ==> InRange(AttributeValue(rows[i], a), Bound(b, a))
  {
    var vs := Vectors(rows, b, order);
    AndAllAt(vs, |rows|, i);
    assert forall k :: 0 <= k < |order| ==> vs[k][i] == InRange(AttributeValue(rows[i], order[k]), Bound(b, order[k]));
    if AndAll(vs, |rows|)[i] {
      forall a | a in order
        ensures InRange(AttributeValue(rows[i], a), Bound(b, a))
      {
        var k :| 0 <= k < |order| && order[k] == a;
        assert vs[k][i];
      }
    }
  }

  /** The source's order of the conjuncts tests all eight attributes of every row. */
  lemma SourceOrderConjunction(rows: seq<Row>, b: Bounds)
    ensures forall i :: 0 <= i < |rows| ==>
      (AndAll(Vectors(rows, b, SourceOrder), |rows|)[i] <==> Selected(rows[i], b))
  {
    SourceOrderNamesAll();
    forall i | 0 <= i < |rows|
      ensures AndAll(Vectors(rows, b, SourceOrder), |rows|)[i] <==> Selected(rows[i], b)
    {
      ConjunctionOfOrder(rows, b, SourceOrder, i);
    }
  }

  /**
   * The mask of `update_selection` for the given bounds: a row is selected
   * exactly when each of the eight attributes lies within its bounds, both
   * ends included.
   */
  function SelectionMask(rows: seq<Row>, b: Bounds): (m: seq<bool>)
    ensures |m| == |rows|
    ensures forall i :: 0 <= i < |rows| ==> (m[i] <==> Selected(rows[i], b))
  {
    SourceOrderConjunction(rows, b);
    AndAll(Vectors(rows, b, SourceOrder), |rows|)
  }

  /**
   * The order of the conjuncts does not matter: any list that names all
   * eight attributes, in any order and with repeats, gives the same mask.
   */
  lemma MaskOrderIrrelevant(rows: seq<Row>, b: Bounds, order: seq<Attribute>)
    requires forall a: Attribute :: a in order
    ensures AndAll(Vectors(rows, b, order), |rows|) == SelectionMask(rows, b)
  {
    forall i | 0 <= i < |rows|
      ensures AndAll(Vectors(rows, b, order), |rows|)[i] == SelectionMask(rows, b)[i]
    {
      ConjunctionOfOrder(rows, b, order, i);
    }
  }

  /** A row with a missing value in any constrained attribute is never selected. */
  lemma MissingValueExcluded(rows: seq<Row>, b: Bounds, i: nat, a: Attribute)
    requires i < |rows| && AttributeValue(rows[i], a).None?
    ensures !SelectionMask(rows, b)[i]
  {
  }

  /** The selection does not depend on the unit system of the derived columns. */
  lemma MaskIgnoresUnits(rows: seq<Row>, b: Bounds, system: UnitSystem)
    ensures SelectionMask(WithUnits(rows, system), b) == SelectionMask(rows, b)
  {
    var moved := WithUnits(rows, system);
    forall i | 0 <= i < |rows|
      ensures SelectionMask(moved, b)[i] == SelectionMask(rows, b)[i]
    {
      assert forall a :: AttributeValue(moved[i], a) == AttributeValue(rows[i], a);
    }
  }

  /** A table before and after a unit switch, or a switch that changed nothing, has the same mask for every bound. */
  lemma UnitSwitchKeepsMask(before: seq<Row>, after: seq<Row>)
    requires after == before || after == WithUnits(before, Jupiter) || after == WithUnits(before, Earth)
    ensures forall b :: SelectionMask(after, b) == SelectionMask(before, b)
  {
    forall b
      ensures SelectionMask(after, b) == SelectionMask(before, b)
    {
      MaskIgnoresUnits(before, b, Jupiter);
      MaskIgnoresUnits(before, b, Earth);
    }
  }

  /** Which colour column a point layer takes: `colour` for all planets, `selcolour` for the selection. */
  datatype Layer = AllPoints | SelectedPoints

  /** One point of a point table: the plotted x and y and the tooltip fields. */
  datatype PlotPoint = PlotPoint(
    x: Option<real>, y: Option<real>,
    period: Option<real>, mass: Option<real>, radius: Option<real>,
    teq: Option<real>, gmag: Option<real>, jmag: Option<real>,
    colour: string, alpha: real, name: string,
    density: Option<real>, eccentricity: Option<real>, metallicity: Option<real>)

  /** The point a row contributes to a layer for the chosen axis columns. */
  function Point(row: Row, x: Column, y: Column, layer: Layer): PlotPoint
  {
    PlotPoint(
      ColumnValue(row, x), ColumnValue(row, y),
      row.planet.period, row.planetMass, row.planetRadius,
      row.planet.teq, row.planet.gmag, row.planet.jmag,
      if layer == AllPoints then row.colour else row.selColour,
      row.alpha, row.planet.name,
      row.planet.density, row.planet.eccentricity, row.planet.metallicity)
  }

  /** The point table of a layer: one point per row, in row order. */
  function Project(rows: seq<Row>, x: Column, y: Column, layer: Layer): (pts: seq<PlotPoint>)
    ensures |pts| == |rows|
    ensures forall i :: 0 <= i < |rows| ==> pts[i].x == ColumnValue(rows[i], x) && pts[i].y == ColumnValue(rows[i], y)
    ensures forall i :: 0 <= i < |rows| ==> pts[i].name == rows[i].planet.name
    ensures forall i :: 0 <= i < |rows| ==>
      pts[i].mass == rows[i].planetMass && pts[i].radius == rows[i].planetRadius &&
      pts[i].colour == (if layer == AllPoints then rows[i].colour else rows[i].selColour) &&
      pts[i].alpha == rows[i].alpha
    ensures forall i :: 0 <= i < |rows| ==>
      pts[i].period == rows[i].planet.period && pts[i].teq == rows[i].planet.teq &&
      pts[i].gmag == rows[i].planet.gmag && pts[i].jmag == rows[i].planet.jmag &&
      pts[i].density == rows[i].planet.density && pts[i].eccentricity == rows[i].planet.eccentricity &&
      pts[i].metallicity == rows[i].planet.metallicity
  {
    seq(|rows|, i requires 0 <= i < |rows| => Point(rows[i], x, y, layer))
  }

  /**
   * After a switch to `system` the tooltips show each planet's mass and
   * radius as the archive gives them in that system, whatever the layer.
   */
  lemma ProjectShowsUnits(rows: seq<Row>, system: UnitSystem, x: Column, y: Column, layer: Layer)
    ensures var pts := Project(WithUnits(rows, system), x, y, layer);
      |pts| == |rows| &&
      forall i :: 0 <= i < |rows| ==>
        pts[i].name == rows[i].planet.name &&
        pts[i].mass == (if system == Jupiter then rows[i].planet.massJ else rows[i].planet.massE) &&
        pts[i].radius == (if system == Jupiter then rows[i].planet.radiusJ else rows[i].planet.radiusE)
  {
  }

  /** `seltable`: the selected layer of the rows the mask keeps. */
  function SelectedTable(rows: seq<Row>, b: Bounds, x: Column, y: Column): (r: seq<PlotPoint>)
    ensures var idx := Indices(SelectionMask(rows, b));
      |r| == |idx| &&
      (forall k :: 0 <= k < |r| ==> r[k] == Point(rows[idx[k]], x, y, SelectedPoints) && Selected(rows[idx[k]], b)) &&
      (forall i :: 0 <= i < |rows| && Selected(rows[i], b) ==> i in idx)
  {
    FilterAt(rows, SelectionMask(rows, b));
    Project(Filter(rows, SelectionMask(rows, b)), x, y, SelectedPoints)
  }

  /**
   * The selected table is the all-points table restricted to the masked rows:
   * same x and y columns, original order, never longer, and each point equal
   * to the all-points entry of its row except for the highlight colour.
   */
  lemma SelectedIsRestriction(rows: seq<Row>, b: Bounds, x: Column, y: Column)
    ensures var idx := Indices(SelectionMask(rows, b));
      var all := Project(rows, x, y, AllPoints);
      var sel := SelectedTable(rows, b, x, y);
      |sel| == |idx| <= |all| &&
      forall k :: 0 <= k < |sel| ==> sel[k] == all[idx[k]].(colour := rows[idx[k]].selColour)
  {
  }

  /** Projecting the kept rows is the same as keeping the projected points. */
  lemma ProjectCommutesWithFilter(rows: seq<Row>, mask: seq<bool>, x: Column, y: Column, layer: Layer)
    requires |mask| == |rows|
    ensures Project(Filter(rows, mask), x, y, layer) == Filter(Project(rows, x, y, layer), mask)
  {
    var pts := Project(rows, x, y, layer);
    FilterAt(rows, mask);
    FilterAt(pts, mask);
    var lhs := Project(Filter(rows, mask), x, y, layer);
    var rhs := Filter(pts, mask);
    forall k | 0 <= k < |lhs|
      ensures lhs[k] == rhs[k]
    {
    }
  }

  /**
   * With the mass handles on "0.1 Mj" and "10 Mj", planets of 0.5 and 1
   * Jupiter masses meet the mass constraint and one of 12 Jupiter masses
   * does not, so it is never selected.
   */
  lemma MassRangeScenario(rows: seq<Row>, s: Sliders, conv: Conversion)
    requires ValidConversion(conv)
    requires PositionsInTables(s, MassTable, RadiusTable) && s.massLo == 6 && s.massHi == 16
    requires |rows| == 3
    requires rows[0].planet.massJ == Some(0.5) && rows[1].planet.massJ == Some(1.0) && rows[2].planet.massJ == Some(12.0)
    ensures var b := SliderBounds(s, MassTable, RadiusTable, conv);
      ConstraintVector(rows, MassAttr, b.mass) == [true, true, false] && !SelectionMask(rows, b)[2]
  {
    var b := SliderBounds(s, MassTable, RadiusTable, conv);
    assert b.mass == Range(0.1, 10.0);
  }

  /**
   * As written, the radius slider ends at position 16, "3 Rj": whatever the
   * handles, a planet of 4 Jupiter radii, below the last label "5 Rj", fails
   * the radius constraint.
   */
  lemma RadiusSliderMissesLastTick(s: Sliders, conv: Conversion)
    requires ValidConversion(conv)
    requires PositionsInTables(s, MassTable, RadiusTable) && s.radiusHi <= RadiusSliderEnd
    ensures RadiusSliderEnd == |RadiusTable| - 2 && MassSliderEnd == |MassTable| - 1
    ensures !InRange(Some(4.0), SliderBounds(s, MassTable, RadiusTable, conv).radius)
  {
    RadiusTableIncreasing(conv);
    ResolveOrder(RadiusTable, conv, s.radiusHi, RadiusSliderEnd);
    assert Resolve(RadiusTable, RadiusSliderEnd, conv) == 3.0;
  }

  /**
   * With the slider end at the last radius position, the handles at both
   * ends admit every radius from 0 to 5 Jupiter radii, just as the mass
   * handles at both ends admit every mass from 0 to 50 Jupiter masses.
   */
  lemma FullRangeAdmitsTable(s: Sliders, conv: Conversion, mass: real, radius: real)
    requires ValidConversion(conv)
    requires s.massLo == 0 && s.massHi == MassSliderEnd
    requires s.radiusLo == 0 && s.radiusHi == CorrectedRadiusSliderEnd
    requires 0.0 <= mass <= 50.0 && 0.0 <= radius <= 5.0
    ensures PositionsInTables(s, MassTable, RadiusTable)
    ensures var b := SliderBounds(s, MassTable, RadiusTable, conv);
      InRange(Some(mass), b.mass) && InRange(Some(radius), b.radius)
  {
    var b := SliderBounds(s, MassTable, RadiusTable, conv);
    assert b.mass == Range(0.0, 50.0);
    assert b.radius == Range(0.0, 5.0);
  }
}
