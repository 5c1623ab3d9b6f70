/**
 * The display choices the explorer makes: which of its four figures is shown
 * for the log toggles, and which tick formatter a log axis gets.
 */
module Display {
  import opened Catalog

  /** The axis type of a figure axis. */
  datatype Scale = Linear | Log

  /** The four figures, one per combination of x and y axis types. */
  datatype FigureId = P1 | P2 | P3 | P4

  /** The x axis type each figure is created with. */
  function XScale(f: FigureId): Scale
  {
    if f == P2 || f == P4 then Log else Linear
  }

  /** The y axis type each figure is created with. */
  function YScale(f: FigureId): Scale
  {
    if f == P3 || f == P4 then Log else Linear
  }

  /** Each combination of axis types belongs to exactly one figure. */
  lemma FiguresCoverScales(xs: Scale, ys: Scale)
    ensures exists f :: XScale(f) == xs && YScale(f) == ys
    ensures forall f, g :: XScale(f) == xs && YScale(f) == ys && XScale(g) == xs && YScale(g) == ys ==> f == g
  {
    var f := if xs == Linear then (if ys == Linear then P1 else P3) else (if ys == Linear then P2 else P4);
    assert XScale(f) == xs && YScale(f) == ys;
  }

  /** What a checkbox group of the two log toggles can report: each toggle at most once. */
  predicate ToggleSet(active: seq<int>)
  {
    active == [] || active == [0] || active == [1] || active == [0, 1] || active == [1, 0]
  }

  function ScaleOf(on: bool): Scale
  {
    if on then Log else Linear
  }

  /**
   * The figure `change_logscale` makes visible for the active entries of the
   * log checkbox group (0 is "log(x)", 1 is "log(y)"). For any state the
   * group can report, it is the figure whose x axis is logarithmic exactly
   * when "log(x)" is on and whose y axis is logarithmic exactly when
   * "log(y)" is on.
   */
  function VisibleFigure(active: seq<int>): (f: FigureId)
    ensures ToggleSet(active) ==> XScale(f) == ScaleOf(0 in active) && YScale(f) == ScaleOf(1 in active)
  {
    if |active| == 0 then P1
    else if |active| == 2 then P4
    else if 0 in active then P2
    else P3
  }

  /** The tick formatter of an axis. */
  datatype Formatter =
    | DefaultFormatter  // Bokeh's own, as the figures are created
    | ExponentFormatter // writes a tick as 10 with a superscript exponent
    | PlainFormatter    // writes a tick as it is

  /** The columns spanning orders of magnitude: planet mass, planet radius and orbital period. */
  predicate SpansDecades(c: Column)
  {
    c == PlanetMass || c == PlanetRadius || c == OrbitalPeriod
  }

  /** The formatter `update` puts on the log axes that show column `c`. */
  function LogAxisFormatter(c: Column): (f: Formatter)
    ensures f != DefaultFormatter
    ensures f == ExponentFormatter <==> SpansDecades(c)
  {
    if c == PlanetMass || c == PlanetRadius || c == OrbitalPeriod then ExponentFormatter else PlainFormatter
  }
}
