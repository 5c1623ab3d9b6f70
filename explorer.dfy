/**
 * The state the explorer's callbacks change in place: the four figures and
 * their axes, the prepared table with its derived columns, the unit labels,
 * and the two point tables the figures draw. The values of the widgets a
 * callback reads (the axis menus, the sliders, the log toggles and the unit
 * radio buttons) are passed to it as parameters.
 */
module Explorer {
  import opened Wrappers
  import opened Ticks
  import opened TickTables
  import opened Catalog
  import opened Selection
  import opened Display

  /** One of the four figures: its fixed axis types and what the callbacks set on it. */
  class Figure {
    const xScale: Scale
    const yScale: Scale
    var visible: bool
    var xFormatter: Formatter
    var yFormatter: Formatter
    var xLabel: string
    var yLabel: string

    /** A figure as created: hidden, unlabelled, with Bokeh's own tick formatters. */
    constructor (xScale: Scale, yScale: Scale)
      ensures this.xScale == xScale && this.yScale == yScale
      ensures !visible && xFormatter == DefaultFormatter && yFormatter == DefaultFormatter
      ensures xLabel == "" && yLabel == ""
    {
      this.xScale := xScale;
      this.yScale := yScale;
      visible := false;
      xFormatter := DefaultFormatter;
      yFormatter := DefaultFormatter;
      xLabel := "";
      yLabel := "";
    }
  }

  /**
   * Resolving a ticker whose array line reads back as `labels`, each of which
   * parses to the quantity at its position in `table`, gives that table.
   */
  method ResolveKnownTicker(ticker: string, kind: Kind, ghost labels: seq<string>, ghost table: seq<Quantity>)
    returns (t: seq<Quantity>)
    requires TickerEntries(ticker) == Success(labels)
    requires |labels| == |table|
    requires forall i :: 0 <= i < |labels| ==> ParseLabel(labels[i], kind) == Success(table[i])
    ensures t == table
  {
    var r := ResolveTicker(ticker, kind);
    assert forall i :: 0 <= i < |labels| ==> ParseLabel(labels[i], kind).Success?;
    assert r.Success?;
    assert forall i :: 0 <= i < |table| ==> r.value[i] == table[i];
    t := r.value;
  }

  /** Resolving `mass_ticker` at start-up gives the mass table. */
  method ResolveMassTicks() returns (t: seq<Quantity>)
    ensures t == MassTable
  {
    MassTickerEntries();
    MassLabelsRead();
    t := ResolveKnownTicker(MassTicker, Mass, MassLabels, MassTable);
  }

  /** Resolving `radius_ticker` at start-up gives the radius table. */
  method ResolveRadiusTicks() returns (t: seq<Quantity>)
    ensures t == RadiusTable
  {
    RadiusTickerEntries();
    RadiusLabelsRead();
    t := ResolveKnownTicker(RadiusTicker, Radius, RadiusLabels, RadiusTable);
  }

  /** The axis names the menus start on: the third and the second name of `axis_map`. */
  const InitialXKey: string := "Orbital period"
  const InitialYKey: string := "Planet radius"

  /** The log toggles as the program starts: only "log(x)" is on. */
  const InitialToggles: seq<int> := [0]

  /** The initial axis names are menu entries, and their labels carry the initial units. */
  lemma InitialAxisLabels()
    ensures InitialXKey in AxisMap && AxisMap[InitialXKey] == OrbitalPeriod
    ensures InitialYKey in AxisMap && AxisMap[InitialYKey] == PlanetRadius
    ensures InitialXKey in InitialUnitMap && InitialXKey + " " + InitialUnitMap[InitialXKey] == "Orbital period (d)"
    ensures InitialYKey in InitialUnitMap && InitialYKey + " " + InitialUnitMap[InitialYKey] == "Planet radius (Rj)"
  {
  }

  class App {
    const p1: Figure
    const p2: Figure
    const p3: Figure
    const p4: Figure
    /** The Earth to Jupiter ratios the unit library supplies. */
    const conv: Conversion
    /** `mass_tick_values` and `radius_tick_values`. */
    const massTicks: seq<Quantity>
    const radiusTicks: seq<Quantity>
    /** `DF`, the prepared table. */
    var rows: seq<Row>
    /** `unit_map`. */
    var unitMap: map<string, string>
    /** `datatable.data` and `seltable.data`. */
    var datatable: seq<PlotPoint>
    var seltable: seq<PlotPoint>
    /** The table `prep_table` returned, before any unit switch. */
    ghost const prepared: seq<Row>
    /** The unit system the last handled switch chose. */
    ghost var system: UnitSystem

    /** The figure object behind each figure name. */
    function Fig(id: FigureId): Figure
    {
      match id
      case P1 => p1
      case P2 => p2
      case P3 => p3
      case P4 => p4
    }

    /**
     * Four distinct figures, each with the axis types of its name; tick
     * tables resolved from the two tickers; a unit label for every axis name.
     */
    ghost predicate Valid()
      reads this
    {
      p1 != p2 && p1 != p3 && p1 != p4 && p2 != p3 && p2 != p4 && p3 != p4 &&
      p1.xScale == XScale(P1) && p1.yScale == YScale(P1) &&
      p2.xScale == XScale(P2) && p2.yScale == YScale(P2) &&
      p3.xScale == XScale(P3) && p3.yScale == YScale(P3) &&
      p4.xScale == XScale(P4) && p4.yScale == YScale(P4) &&
      ValidConversion(conv) &&
      massTicks == MassTable && radiusTicks == RadiusTable &&
      unitMap.Keys == AxisMap.Keys
    }

    /**
     * The derived columns and the mass and radius labels are both in the
     * unit system last chosen, so an axis labelled in Earth units plots the
     * Earth-unit archive column (LabelsNameColumns).
     */
    ghost predicate UnitsAgree()
      reads this`rows, this`unitMap, this`system
    {
      rows == WithUnits(prepared, system) && unitMap == Relabel(InitialUnitMap, system)
    }

    /** Figure `id` is the only visible one. */
    predicate ShowsOnly(id: FigureId)
      reads p1, p2, p3, p4
    {
      p1.visible == (id == P1) && p2.visible == (id == P2) &&
      p3.visible == (id == P3) && p4.visible == (id == P4)
    }

    /** Every figure carries the same x and y axis labels. */
    predicate Labelled(xText: string, yText: string)
      reads p1, p2, p3, p4
    {
      p1.xLabel == xText && p2.xLabel == xText && p3.xLabel == xText && p4.xLabel == xText &&
      p1.yLabel == yText && p2.yLabel == yText && p3.yLabel == yText && p4.yLabel == yText
    }

    /**
     * The log x axes (of p2 and p4) carry the formatter for column `x`, the
     * log y axes (of p3 and p4) the formatter for column `y`.
     */
    predicate LogAxesFormatted(x: Column, y: Column)
      reads p2, p3, p4
    {
      p2.xFormatter == LogAxisFormatter(x) && p4.xFormatter == LogAxisFormatter(x) &&
      p3.yFormatter == LogAxisFormatter(y) && p4.yFormatter == LogAxisFormatter(y)
    }

    /** The text of an axis label: the axis name followed by its unit. */
    function AxisLabel(key: string): string
      reads this
      requires key in unitMap
    {
      key + " " + unitMap[key]
    }

    /**
     * The state as the module is loaded: the prepared table in Jupiter
     * units, both tickers resolved, the initial unit labels, four hidden
     * and unlabelled figures with Bokeh's own tick formatters, and two empty
     * point tables.
     */
    constructor (raw: seq<Planet>, conv: Conversion)
      requires ValidConversion(conv)
      ensures Valid() && UnitsAgree()
      ensures fresh(p1) && fresh(p2) && fresh(p3) && fresh(p4)
      ensures rows == PrepTable(raw) && unitMap == InitialUnitMap
      ensures prepared == PrepTable(raw) && system == Jupiter
      ensures !p1.visible && !p2.visible && !p3.visible && !p4.visible
      ensures p1.xFormatter == DefaultFormatter && p1.yFormatter == DefaultFormatter
      ensures p2.xFormatter == DefaultFormatter && p2.yFormatter == DefaultFormatter
      ensures p3.xFormatter == DefaultFormatter && p3.yFormatter == DefaultFormatter
      ensures p4.xFormatter == DefaultFormatter && p4.yFormatter == DefaultFormatter
      ensures Labelled("", "")
      ensures datatable == [] && seltable == []
    {
      var mt := ResolveMassTicks();
      var rt := ResolveRadiusTicks();
      p1 := new Figure(Linear, Linear);
      p2 := new Figure(Log, Linear);
      p3 := new Figure(Linear, Log);
      p4 := new Figure(Log, Log);
      this.conv := conv;
      massTicks := mt;
      radiusTicks := rt;
      rows := PrepTable(raw);
      unitMap := InitialUnitMap;
      prepared := PrepTable(raw);
      system := Jupiter;
      datatable := [];
      seltable := [];
      UnitMapCoversAxes(Jupiter);
      PrepTableInJupiterUnits(raw);
      RelabelLastSwitchWins(Jupiter, Jupiter);
    }

    /**
     * The first load: show the figure for the initial toggles (only
     * "log(x)", so p2) and fill both point tables for the initial axes,
     * orbital period against planet radius, and the given slider values.
     */
    method Start(s: Sliders)
      requires Valid() && unitMap == InitialUnitMap
      requires PositionsInTables(s, massTicks, radiusTicks)
      modifies p1`visible, p2`visible, p3`visible, p4`visible
      modifies this`datatable, this`seltable
      modifies p1`xLabel, p2`xLabel, p3`xLabel, p4`xLabel
      modifies p1`yLabel, p2`yLabel, p3`yLabel, p4`yLabel
      modifies p2`xFormatter, p4`xFormatter, p3`yFormatter, p4`yFormatter
      ensures Valid()
      ensures ShowsOnly(P2)
      ensures Labelled(AxisLabel(InitialXKey), AxisLabel(InitialYKey))
      ensures LogAxesFormatted(AxisMap[InitialXKey], AxisMap[InitialYKey])
      ensures datatable == Project(rows, AxisMap[InitialXKey], AxisMap[InitialYKey], AllPoints)
      ensures seltable == SelectedTable(rows, SliderBounds(s, massTicks, radiusTicks, conv), AxisMap[InitialXKey], AxisMap[InitialYKey])
    {
      assert InitialXKey in AxisMap && InitialYKey in AxisMap;
      ChangeLogscale(InitialToggles);
      Update(InitialXKey, InitialYKey, s);
      UpdateSelection(InitialXKey, InitialYKey, s);
    }

    /**
     * `change_logscale`: hide every figure, then show the one the toggles
     * select. Exactly one figure ends up visible, and when the toggles are a
     * state the checkbox group can report, its axes are logarithmic exactly
     * where the toggles say so. Nothing else changes.
     */
    method ChangeLogscale(active: seq<int>)
      requires Valid()
      modifies p1`visible, p2`visible, p3`visible, p4`visible
      ensures Valid()
      ensures unchanged(this)
      ensures ShowsOnly(VisibleFigure(active))
      ensures ToggleSet(active) ==>
        Fig(VisibleFigure(active)).xScale == ScaleOf(0 in active) &&
        Fig(VisibleFigure(active)).yScale == ScaleOf(1 in active)
    {
      var figs := [p1, p2, p3, p4];
      var i := 0;
      while i < |figs|
        invariant 0 <= i <= |figs|
        invariant forall j :: 0 <= j < i ==> !figs[j].visible
      {
        figs[i].visible := false;
        i := i + 1;
      }
      assert p1 == figs[0] && p2 == figs[1] && p3 == figs[2] && p4 == figs[3];
      if |active| == 0 {
        p1.visible := true;
      } else if |active| == 2 {
        p4.visible := true;
      } else if 0 in active {
        p2.visible := true;
      } else {
        p3.visible := true;
      }
    }

    /**
     * `update`: label every axis with the chosen names and their units,
     * rebuild the all-points table for the chosen columns, give the log axes
     * the exponent formatter when their column spans orders of magnitude and
     * the plain one otherwise, and then rebuild the selection.
     */
    method Update(xKey: string, yKey: string, s: Sliders)
      requires Valid()
      requires xKey in AxisMap && yKey in AxisMap
      requires PositionsInTables(s, massTicks, radiusTicks)
      modifies this`datatable, this`seltable
      modifies p1`xLabel, p2`xLabel, p3`xLabel, p4`xLabel
      modifies p1`yLabel, p2`yLabel, p3`yLabel, p4`yLabel
      modifies p2`xFormatter, p4`xFormatter, p3`yFormatter, p4`yFormatter
      ensures Valid()
      ensures Labelled(AxisLabel(xKey), AxisLabel(yKey))
      ensures LogAxesFormatted(AxisMap[xKey], AxisMap[yKey])
      ensures datatable == Project(rows, AxisMap[xKey], AxisMap[yKey], AllPoints)
      ensures seltable == SelectedTable(rows, SliderBounds(s, massTicks, radiusTicks, conv), AxisMap[xKey], AxisMap[yKey])
      ensures |seltable| <= |datatable|
    {
      LabelAxes(AxisLabel(xKey), AxisLabel(yKey));
      var x := AxisMap[xKey];
      var y := AxisMap[yKey];
      datatable := Project(rows, x, y, AllPoints);
      SetLogFormatters(x, y);
      UpdateSelection(xKey, yKey, s);
    }

    /** Put the same x and y label on all four figures. */
    method LabelAxes(xText: string, yText: string)
      requires Valid()
      modifies p1`xLabel, p2`xLabel, p3`xLabel, p4`xLabel
      modifies p1`yLabel, p2`yLabel, p3`yLabel, p4`yLabel
      ensures Labelled(xText, yText)
    {
      var figs := [p1, p2, p3, p4];
      var i := 0;
      while i < |figs|
        invariant 0 <= i <= |figs|
        invariant forall j :: 0 <= j < i ==> figs[j].xLabel == xText && figs[j].yLabel == yText
      {
        figs[i].xLabel := xText;
        figs[i].yLabel := yText;
        i := i + 1;
      }
      assert p1 == figs[0] && p2 == figs[1] && p3 == figs[2] && p4 == figs[3];
    }

    /**
     * The formatter choice of `update`: the log x axes (p2, p4) and the log
     * y axes (p3, p4) get the exponent formatter when their column spans
     * orders of magnitude, the plain one otherwise.
     */
    method SetLogFormatters(x: Column, y: Column)
      requires Valid()
      modifies p2`xFormatter, p4`xFormatter, p3`yFormatter, p4`yFormatter
      ensures LogAxesFormatted(x, y)
    {
      if x == PlanetMass || x == PlanetRadius || x == OrbitalPeriod {
        p4.xFormatter := ExponentFormatter;
        p2.xFormatter := ExponentFormatter;
      } else {
        p4.xFormatter := PlainFormatter;
        p2.xFormatter := PlainFormatter;
      }
      if y == PlanetMass || y == PlanetRadius || y == OrbitalPeriod {
        p3.yFormatter := ExponentFormatter;
        p4.yFormatter := ExponentFormatter;
      } else {
        p3.yFormatter := PlainFormatter;
        p4.yFormatter := PlainFormatter;
      }
    }

    /**
     * `update_selection`: rebuild the selected table from the rows that meet
     * all eight slider constraints, in table order.
     */
    method UpdateSelection(xKey: string, yKey: string, s: Sliders)
      requires Valid()
      requires xKey in AxisMap && yKey in AxisMap
      requires PositionsInTables(s, massTicks, radiusTicks)
      modifies this`seltable
      ensures Valid()
      ensures seltable == SelectedTable(rows, SliderBounds(s, massTicks, radiusTicks, conv), AxisMap[xKey], AxisMap[yKey])
    {
      var b := SliderBounds(s, massTicks, radiusTicks, conv);
      seltable := SelectedTable(rows, b, AxisMap[xKey], AxisMap[yKey]);
    }

    /**
     * The switch `change_units` makes for the label of the active radio
     * button: "Jupiter" and "Earth" copy that system's archive columns into
     * the derived columns and relabel mass and radius; any other label
     * changes neither. The labels keep describing the columns, and the
     * selection mask is the same before and after.
     */
    method SwitchUnits(choice: string)
      requires Valid() && UnitsAgree()
      modifies this`rows, this`unitMap, this`system
      ensures Valid() && UnitsAgree()
      ensures choice == "Jupiter" ==> rows == WithUnits(old(rows), Jupiter) && unitMap == Relabel(old(unitMap), Jupiter)
      ensures choice == "Earth" ==> rows == WithUnits(old(rows), Earth) && unitMap == Relabel(old(unitMap), Earth)
      ensures choice != "Jupiter" && choice != "Earth" ==> rows == old(rows) && unitMap == old(unitMap)
      ensures system == (if choice == "Jupiter" then Jupiter else if choice == "Earth" then Earth else old(system))
      ensures forall b :: SelectionMask(rows, b) == SelectionMask(old(rows), b)
    {
      if choice == "Jupiter" {
        rows := WithUnits(rows, Jupiter);
        unitMap := Relabel(unitMap, Jupiter);
        system := Jupiter;
      } else if choice == "Earth" {
        rows := WithUnits(rows, Earth);
        unitMap := Relabel(unitMap, Earth);
        system := Earth;
      }
      LastSwitchWins(prepared, old(system), system);
      RelabelLastSwitchWins(old(system), system);
      UnitMapCoversAxes(system);
      UnitSwitchKeepsMask(old(rows), rows);
    }

    /**
     * `change_units`: the unit switch for the active radio button's label,
     * then `update` for the current axes and sliders.
     */
    method ChangeUnits(choice: string, xKey: string, yKey: string, s: Sliders)
      requires Valid() && UnitsAgree()
      requires xKey in AxisMap && yKey in AxisMap
      requires PositionsInTables(s, massTicks, radiusTicks)
      modifies this`rows, this`unitMap, this`system, this`datatable, this`seltable
      modifies p1`xLabel, p2`xLabel, p3`xLabel, p4`xLabel
      modifies p1`yLabel, p2`yLabel, p3`yLabel, p4`yLabel
      modifies p2`xFormatter, p4`xFormatter, p3`yFormatter, p4`yFormatter
      ensures Valid() && UnitsAgree()
      ensures choice == "Jupiter" ==> rows == WithUnits(old(rows), Jupiter) && unitMap == Relabel(old(unitMap), Jupiter)
      ensures choice == "Earth" ==> rows == WithUnits(old(rows), Earth) && unitMap == Relabel(old(unitMap), Earth)
      ensures choice != "Jupiter" && choice != "Earth" ==> rows == old(rows) && unitMap == old(unitMap)
      ensures system == (if choice == "Jupiter" then Jupiter else if choice == "Earth" then Earth else old(system))
      ensures forall b :: SelectionMask(rows, b) == SelectionMask(old(rows), b)
      ensures Labelled(AxisLabel(xKey), AxisLabel(yKey))
      ensures LogAxesFormatted(AxisMap[xKey], AxisMap[yKey])
      ensures datatable == Project(rows, AxisMap[xKey], AxisMap[yKey], AllPoints)
      ensures seltable == SelectedTable(rows, SliderBounds(s, massTicks, radiusTicks, conv), AxisMap[xKey], AxisMap[yKey])
      ensures |datatable| == |prepared| &&
        forall i :: 0 <= i < |prepared| ==>
          datatable[i].mass == (if system == Jupiter then prepared[i].planet.massJ else prepared[i].planet.massE) &&
          datatable[i].radius == (if system == Jupiter then prepared[i].planet.radiusJ else prepared[i].planet.radiusE)
    {
      SwitchUnits(choice);
      Update(xKey, yKey, s);
      ProjectShowsUnits(prepared, system, AxisMap[xKey], AxisMap[yKey], AllPoints);
    }
  }
}
