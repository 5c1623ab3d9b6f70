# Exoplanet population explorer: a Dafny model of its filtering-and-projection engine

The explorer is a Bokeh server application (`main.py`). It shows the
transiting planets of the NASA Exoplanet Archive on four figures. Eight
range sliders pick out a subset of planets, which is drawn highlighted over
the rest. The user chooses which two columns go on the axes, whether each
axis is logarithmic, and whether planet masses and radii are shown in Jupiter
or Earth units.

This project models the engine behind it:

- **Tick tables** (`ticks.dfy`, `tick_tables.dfy`). The mass and radius
  sliders move over positions in a hand-written list of breakpoints. That
  list exists once, as a JavaScript array literal inside the slider's tick
  formatter (`mass_ticker`, `radius_ticker`). At start-up the program reads
  the array back out of that text: line 1, minus the `    var v=[` prefix,
  the `];` suffix and the quotes, split at commas. It then resolves each label
  (`"0.1 Mj (32 Me)"`) to a quantity from its first two space-separated
  tokens. The string operations this uses (`str.split`, `str.replace`) are
  modelled in `text.dfy`.
- **Catalog** (`catalog.dfy`, `tables.dfy`). `prep_table` keeps the transiting
  planets and adds the appearance columns and the derived `planetmass` and
  `planetradius` columns. Boolean-mask indexing keeps the masked rows in
  order. The unit switch rewrites the derived columns and two entries of
  `unit_map`.
- **Selection** (`selection.dfy`). `update_selection` ANDs eight inclusive
  range constraints into one mask. Mass and radius slider positions are
  looked up in the tick tables and converted to Jupiter units. `update`
  projects the table onto the chosen axes twice: once for all planets
  (`datatable`) and once for the selected ones (`seltable`).
- **Display** (`display.dfy`). The log toggles decide which of the four
  figures is shown, and the axis column decides which tick formatter a log
  axis gets.
- **Explorer** (`explorer.dfy`). The callbacks change state in place, so they
  are methods of a class `App`. Its fields are the four `Figure` objects, the
  table, the unit labels and both point tables. The widget values a callback
  reads are its parameters.

## Model

| member | source | states |
|---|---|---|
| Text.Split | main.py:159 | Python `split` on one separator: the result is never empty, it has more than one piece exactly when the separator occurs, and no piece contains the separator |
| Text.JoinSplit | main.py:159 | joining the pieces of a split with the separator gives back the original text |
| Text.SplitJoin | main.py:159 | splitting a join of separator-free pieces gives back the pieces in order |
| Text.Replace | main.py:159 | Python `replace`, scanning left to right and replacing non-overlapping occurrences: a text in which the pattern does not occur is returned unchanged |
| Ticks.UnitOf | main.py:165-178 | a unit is recognised exactly for `Me`/`Mj` on the mass table and `Re`/`Rj` on the radius table, and it always belongs to that table's family; `Me`, `Mj`, `Re` and `Rj` name the Earth mass, Jupiter mass, Earth radius and Jupiter radius |
| Ticks.SymbolRoundTrip | main.py:165-178 | the written symbol of each unit reads back as that unit on a table of its family, and as no unit on the other table |
| Ticks.ParseDecimal | main.py:164 | a magnitude token that reads as a decimal number denotes a non-negative value |
| Ticks.DecimalWithoutPoint | main.py:164 | a token of digits denotes the integer they spell |
| Ticks.DecimalWithPoint | main.py:164 | a token `whole.frac` denotes its digits divided by 10 to the power of the fraction's length |
| Ticks.ParseTokens | main.py:164-172 | a label's two tokens resolve exactly when the unit token names a unit of the table and the magnitude is a decimal; an unknown unit is reported as `UnknownUnit` with that token, an unreadable magnitude after a known unit as `BadMagnitude`; otherwise the quantity is the magnitude's value in the named unit |
| Ticks.ParseLabel | main.py:163-172 | a label that resolves has a unit of the table's family and a non-negative magnitude; a label with no space has no unit token and is an error |
| Ticks.UnknownUnitRejected | main.py:165-171 | a label whose second token is not a unit of its table is an `UnknownUnit` error naming that token, whatever follows it |
| Ticks.LabelTokens | main.py:164-167 | token 0 and token 1 alone decide a label; text after the second token, such as `(0.06 Mj)`, is ignored |
| Ticks.InJupiterUnits | main.py:353 | conversion to Jupiter units leaves Jupiter-unit magnitudes as they are and multiplies Earth-unit magnitudes by the Earth/Jupiter mass or radius ratio; it keeps the sign and shrinks positive Earth-unit magnitudes |
| Ticks.TickerEntries | main.py:159 | reading a ticker fails exactly when the text has no line 1; otherwise it yields at least one entry, and no entry contains a comma |
| Ticks.Unquote | main.py:159 | removing the quotes from a quoted, comma-separated list leaves the labels joined by commas |
| Ticks.TickerRoundTrip | main.py:148-160 | reading back a ticker written from non-empty admissible labels yields exactly those labels in the same order, so list position i is the label the slider displays at i |
| Ticks.ResolveTicker | main.py:159-182 | reading the array back and resolving its labels: a ticker without line 1 is a `NoArrayLine` error; on success it returns one quantity per array entry, in order, each the quantity its label resolves to, all of the table's family; on failure it returns the error of the first label that does not resolve, and every label before it resolves |
| Ticks.ResolveLabels | main.py:163-182 | the loop over the labels: on success one quantity per label, in order, each what its label resolves to and of the table's family; on failure the error of the first label that does not resolve, every label before it resolving |
| Ticks.Resolve | main.py:351-355 | a slider position inside the table resolves to a Jupiter-unit bound with the sign of its breakpoint |
| Ticks.ResolveOrder | main.py:351-356 | on a strictly increasing table, positions and resolved bounds are in the same order and distinct positions give distinct bounds, so lower handle at or below upper handle is a non-empty range |
| TickTables.MassTickerEntries | main.py:148-159 | the text of `mass_ticker` reads back as the 21 mass labels in slider order |
| TickTables.RadiusTickerEntries | main.py:152-160 | the text of `radius_ticker` reads back as the 18 radius labels in slider order |
| TickTables.MassLabelsRead | main.py:163-172 | each mass label resolves to the breakpoint at its position, e.g. `"20 Me (0.06 Mj)"` to 20 Earth masses |
| TickTables.RadiusLabelsRead | main.py:173-182 | each radius label resolves to the breakpoint at its position |
| TickTables.MassTableIncreasing | main.py:149 | the mass breakpoints grow strictly in Jupiter masses for any plausible Earth/Jupiter ratio |
| TickTables.RadiusTableIncreasing | main.py:153 | the radius breakpoints grow strictly in Jupiter radii for any plausible Earth/Jupiter ratio |
| TickTables.AnnotationsAgree | main.py:149-153 | the bracketed conversions in the labels ("20 Me (0.06 Mj)", "0.1 Mj (32 Me)", "3 Re (0.27 Rj)", "4 Re (0.36 Rj)", "5 Re (0.45 Rj)") agree with the resolved values to the digits shown |
| Tables.Indices | main.py:381 | the true positions of a mask, strictly increasing, each one true, and every true position listed |
| Tables.Filter | main.py:381 | mask indexing never lengthens a table |
| Tables.FilterAt | main.py:381 | the k-th kept row is the row at the k-th true position, so mask indexing keeps exactly the masked rows in their original order |
| Catalog.TransitMask | main.py:36 | one entry per archive planet, true exactly where `pl_tranflag` is non-zero |
| Catalog.PrepTable | main.py:36-49 | the prepared table is no longer than the archive table, every row is a transiting planet, and every row has colour gray, highlight orange and alpha 0.5 |
| Catalog.PrepTableKeepsTransiting | main.py:36 | row k of the prepared table is the k-th transiting archive planet, and every transiting planet has a row |
| Catalog.PrepTableInJupiterUnits | main.py:48-49 | the prepared table's derived columns are already the Jupiter columns |
| Catalog.InUnits | main.py:321-328 | a row in a unit system keeps the planet and the appearance columns, and its derived mass and radius are that system's archive columns |
| Catalog.WithUnits | main.py:321-328 | a unit switch changes only the derived mass and radius columns, copying the archive columns of the chosen system |
| Catalog.LastSwitchWins | main.py:319-330 | after any two switches the derived columns are those of the last one, so Jupiter, Earth, Jupiter restores the table |
| Catalog.Relabel | main.py:324-330 | a unit switch sets the mass and radius unit labels for the chosen system and keeps every other label |
| Catalog.UnitMapCoversAxes | main.py:66-91 | every axis name has a unit label, before and after a unit switch |
| Catalog.RelabelLastSwitchWins | main.py:79-81 | the initial unit labels are the Jupiter ones, and after any two switches the labels are those of the last one, so a switch back to Jupiter restores them |
| Catalog.LabelsNameColumns | main.py:246-248 | after a switch to either system, a mass or radius label in Earth units goes with derived columns holding the Earth-unit archive values, and a label in Jupiter units with the Jupiter-unit values |
| Selection.SliderBounds | main.py:351-374 | the period, eccentricity, temperature and magnitude sliders pass their values through as bounds unchanged |
| Selection.SliderBoundsOrdered | main.py:351-356 | over increasing tick tables, the mass and radius ranges are non-empty exactly when the lower handle is not right of the upper one |
| Selection.AndAllAt | main.py:381 | an entry of a chain of `&` is true exactly when it is true in every vector |
| Selection.ConjunctionOfOrder | main.py:381 | ANDing the vectors of any list of attributes tests exactly the attributes in the list |
| Selection.SourceOrderNamesAll | main.py:381 | the conjunction names all eight constraints |
| Selection.ConstraintVector | main.py:353-374 | a constraint vector has one entry per row, true exactly when the row's value is present and lies between the bounds, both ends included; an empty range admits no row |
| Selection.SelectionMask | main.py:351-381 | a row is selected exactly when every one of the eight attributes lies within its bounds, both ends included |
| Selection.MaskOrderIrrelevant | main.py:381 | any order of the conjuncts, with repeats, gives the same mask |
| Selection.MissingValueExcluded | main.py:353-374 | a row with a missing value in any constrained attribute is never selected |
| Selection.MaskIgnoresUnits | main.py:351-356 | the mask reads `pl_massj` and `pl_radj`, so it is the same whichever unit system the derived columns are in |
| Selection.UnitSwitchKeepsMask | main.py:321-328 | a unit switch, or a switch that changes nothing, leaves the mask the same for every bound |
| Selection.Project | main.py:252 | the projection has one point per row, in row order: x and y from the chosen columns; mass and radius from the derived columns; period, T_eq, Gmag, Jmag, density, eccentricity, metallicity and name from the archive columns; the row's alpha; the row's colour in the all-points layer and its selection colour in the selected layer |
| Selection.ProjectShowsUnits | main.py:252 | after the derived columns are set for a unit system, every point's tooltip mass and radius are the archive's columns in that system |
| Selection.SelectedTable | main.py:381-382 | the selected table holds one highlighted point per masked row, in row order; each comes from a row meeting all eight constraints, and every such row has a point |
| Selection.SelectedIsRestriction | main.py:381-382 | the selected table is the all-points table restricted to the masked rows: same columns, original order, never longer, differing only in colour |
| Selection.ProjectCommutesWithFilter | main.py:381-382 | projecting the kept rows equals keeping the projected points |
| Selection.MassRangeScenario | main.py:351-353 | with the mass handles on "0.1 Mj" and "10 Mj", planets of 0.5 and 1 Jupiter masses meet the mass constraint and one of 12 does not, so it is never selected |
| Selection.RadiusSliderMissesLastTick | main.py:205-207 | the mass slider ends on the last of 21 entries but the radius slider one short of the last of 18; with the radius slider as written, no handle position admits a planet of 4 Jupiter radii |
| Selection.FullRangeAdmitsTable | main.py:205-207 | with the radius slider ending on the last entry, handles at both ends admit every radius up to 5 Jupiter radii, as the mass handles admit every mass up to 50 Jupiter masses |
| Display.FiguresCoverScales | main.py:227-230 | each combination of x and y axis types belongs to exactly one of the four figures |
| Display.VisibleFigure | main.py:306-317 | for every state of the two toggles, the visible figure's x axis is logarithmic exactly when "log(x)" is on, and its y axis exactly when "log(y)" is on |
| Display.LogAxisFormatter | main.py:281-292 | a log axis gets the exponent formatter exactly for planet mass, planet radius and orbital period, and the plain formatter otherwise |
| Explorer.ResolveKnownTicker | main.py:159-182 | resolving a ticker whose labels all resolve yields exactly their quantities |
| Explorer.ResolveMassTicks | main.py:159-172 | resolving `mass_ticker` yields the mass table |
| Explorer.ResolveRadiusTicks | main.py:160-182 | resolving `radius_ticker` yields the radius table |
| Explorer.InitialAxisLabels | main.py:219-220 | the axis menus start on orbital period (x) and planet radius (y), labelled "(d)" and "(Rj)" |
| Explorer.Figure.constructor | main.py:227-230 | a figure is created hidden, with its axis types and the default formatters |
| Explorer.App.constructor | main.py:56-91 | at load the table is prepared in Jupiter units, both tickers resolve to their tables, the unit labels are the initial ones and agree with the derived columns, all four figures are hidden, unlabelled and carry the default tick formatters, and both point tables are empty |
| Explorer.App.Start | main.py:423-425 | the first load shows p2 only, labels every axis, formats the log axes, and fills both point tables for orbital period against planet radius; its frame leaves the linear axes' formatters, the table and the unit labels untouched |
| Explorer.App.ChangeLogscale | main.py:296-317 | exactly one figure is visible afterwards, the one the toggles select; for every toggle state it is the figure with the matching axis types; the table and point tables are untouched |
| Explorer.App.Update | main.py:244-294 | every figure is labelled `name + " " + unit`; the all-points table is the projection on the chosen columns; the log axes get their formatters; the selected table is rebuilt and is never longer than the all-points table |
| Explorer.App.LabelAxes | main.py:246-248 | the loop over the figures gives all four the same x and y labels |
| Explorer.App.SetLogFormatters | main.py:281-292 | the log x axes of p2 and p4 and the log y axes of p3 and p4 get the formatters for their columns |
| Explorer.App.UpdateSelection | main.py:334-382 | the selected table becomes the projection of the rows meeting all eight constraints |
| Explorer.App.SwitchUnits | main.py:321-331 | "Jupiter" and "Earth" rewrite the derived columns and the two unit labels for that system; any other label changes neither; the labels keep agreeing with the derived columns; the selection mask is unchanged |
| Explorer.App.ChangeUnits | main.py:319-333 | the unit switch for the radio label, after which the labels still agree with the derived columns and the mask is unchanged; the axes and point tables are then rebuilt as `update` does, so every all-points tooltip shows the archive mass and radius of the active unit system |

## Left out

- The fetch of the confirmed-planets table from the archive (main.py:35) is network I/O. The archive rows are the constructor's `raw` parameter.
- The equilibrium temperature formula (main.py:39) uses floating-point square roots and unit decomposition. `teq` is a given column of `Planet`, and a missing or non-finite result is `None`.
- Astropy's Earth/Jupiter mass and radius constants are not modelled. They are a `Conversion` parameter, constrained by narrow ranges around the real ratios (`ValidConversion`: 0.0031 to 0.00317 for the mass ratio, 0.089 to 0.0905 for the radius ratio).
- Ticks.ParseDecimal: only unsigned decimals (digits with at most one point) are read. Astropy would also accept signs and exponents, which no tick label uses.
- Ticks.ResolveTicker: an unknown unit token makes the program print an error and append the value with the unit of the previous label (main.py:169-172, 179-182). Only on the first mass label does it raise, since `unit` is not yet bound. `unit` is one module-level name, so an unknown unit on the first radius label takes the unit of the last mass label, and the error surfaces only when that quantity is converted to Jupiter radii (main.py:356). The model stops at the first such label and returns an `UnknownUnit` error.
- Ticks.TickerEntries: `split('\n')[1]` (main.py:159) raises an IndexError on a ticker text without a line break. The model returns a `NoArrayLine` error instead. Both tickers contain line breaks, so the program never takes this path.
- Ticks.ParseLabel: a label without a space makes `split(' ')[1]` raise. The model returns a `MissingUnit` error.
- The period slider works in log10 space, and `10**value` (main.py:357-358) is floating-point. `Sliders.period` holds the resolved day bounds.
- The rounding of `teq`, `gaia_gmag` and `st_j` for the tooltips (main.py:252, 382) is floating-point. The point tables carry the unrounded values.
- The computation of the slider limits (main.py:123-131) is left out, as are the slider steps. Slider values arrive as parameters. The model requires only that mass and radius positions lie inside their tables.
- The Bokeh widgets, figures' drawing, layout, callback registration, `curdoc` and the description page (main.py:203-240, 398-427) are not modelled, except for the state the callbacks write.
- The JavaScript formatter bodies (main.py:209, 255-279) run in the browser. Only which formatter an axis gets is modelled.
- TickTables.MassTicker: the ticker texts are stated as the text `Ticker` writes for the label lists. The characters are the same as in main.py:148-155, but equality with a character-by-character literal is not proved.
- Ticks.ResolveOrder: the source has no reverse lookup from a quantity to a tick position. The model proves that resolution is strictly monotone and injective instead.
- `plot.py` is not part of this model. It is a one-shot plotting script with its own fixed mask.
- Commented-out code (main.py:436-455) is not modelled.

## Findings

| source | as written | input that shows it | evidently intended | confidence | as-written member | corrected member |
|---|---|---|---|---|---|---|
| main.py:207 | the radius slider ends at position 16 (`end=16`, `value=(0,16)`), but the radius list has 18 entries, so position 17, "5 Rj", is never reached | a planet with `pl_radj` = 4.0, other attributes within bounds, is never selected, even with both radius handles at the ends | end at the last position, `len(list)-1` = 17, as the mass slider does (`end=20` for its 21 entries); the comment at main.py:143 gives the range as "0 and len(list)", but position len(list) is past the list, so the last reachable index, len(list)-1, is what is meant | medium, not executed | Selection.RadiusSliderMissesLastTick | Selection.FullRangeAdmitsTable |

The explorer model uses the corrected range: `TickTables.CorrectedRadiusSliderEnd` is the last radius position. `App` accepts any radius position inside the table.
