/**
 * The planet table the explorer works on: the archive rows it reads, the
 * transit filter and derived columns of `prep_table`, the two unit systems of
 * the derived mass and radius columns, and the axis and unit-label maps.
 */
module Catalog {
  import opened Wrappers
  import opened Tables

  /**
   * One planet of the archive's confirmed-planets table, restricted to the
   * columns the explorer reads. A missing or NaN cell is None.
   */
  datatype Planet = Planet(
    name: string,               // pl_name
    period: Option<real>,       // pl_orbper, days
    eccentricity: Option<real>, // pl_orbeccen
    massJ: Option<real>,        // pl_massj, Jupiter masses
    radiusJ: Option<real>,      // pl_radj, Jupiter radii
    massE: Option<real>,        // pl_masse, Earth masses
    radiusE: Option<real>,      // pl_rade, Earth radii
    density: Option<real>,      // pl_dens, g/cm3
    teff: Option<real>,         // st_teff, K
    gmag: Option<real>,         // gaia_gmag
    jmag: Option<real>,         // st_j
    metallicity: Option<real>,  // st_metfe, dex
    discoveryYear: Option<real>, // pl_disc
    teq: Option<real>,          // teq, K (derived from st_teff, st_rad and pl_orbsmax)
    transitFlag: int)           // pl_tranflag

  /** A row of the prepared table `DF`: a planet plus the columns `prep_table` adds. */
  datatype Row = Row(
    planet: Planet,
    colour: string,             // colour of the point in the all-points layer
    selColour: string,          // colour of the point in the selected layer
    alpha: real,
    planetMass: Option<real>,   // planetmass, in the active unit system
    planetRadius: Option<real>) // planetradius, in the active unit system

  /** The two unit systems the derived mass and radius columns can be in. */
  datatype UnitSystem = Jupiter | Earth

  /** `pl_tranflag` read as a boolean: the planet transits its star. */
  predicate Transiting(p: Planet)
  {
    p.transitFlag != 0
  }

  /** `pl_tranflag` cast to booleans over the fetched planets: true where the flag is non-zero. */
  function TransitMask(raw: seq<Planet>): (m: seq<bool>)
    ensures |m| == |raw|
    ensures forall i :: 0 <= i < |raw| ==> (m[i] <==> raw[i].transitFlag != 0)
  {
    seq(|raw|, i requires 0 <= i < |raw| => Transiting(raw[i]))
  }

  /** The row `prep_table` makes from a transiting planet. */
  function Prepare(p: Planet): Row
  {
    Row(p, "gray", "orange", 0.5, p.massJ, p.radiusJ)
  }

  /**
   * `prep_table` after the fetch: keep the transiting planets, in archive
   * order, and add the appearance columns and the derived mass and radius
   * columns in Jupiter units.
   */
  function PrepTable(raw: seq<Planet>): (rows: seq<Row>)
    ensures |rows| <= |raw|
    ensures forall i :: 0 <= i < |rows| ==> Transiting(rows[i].planet)
    ensures forall i :: 0 <= i < |rows| ==>
      rows[i].colour == "gray" && rows[i].selColour == "orange" && rows[i].alpha == 0.5
  {
    var kept := Filter(raw, TransitMask(raw));
    FilterAt(raw, TransitMask(raw));
    seq(|kept|, k requires 0 <= k < |kept| => Prepare(kept[k]))
  }

  /**
   * The prepared table holds exactly the transiting planets, in archive
   * order: row k is the planet at the k-th transiting position, and every
   * transiting planet has a row.
   */
  lemma PrepTableKeepsTransiting(raw: seq<Planet>)
    ensures var rows := PrepTable(raw); var idx := Indices(TransitMask(raw));
      |rows| == |idx| &&
      (forall k :: 0 <= k < |rows| ==> rows[k] == Prepare(raw[idx[k]])) &&
      (forall i :: 0 <= i < |raw| && Transiting(raw[i]) ==> i in idx)
  {
    FilterAt(raw, TransitMask(raw));
  }

  /** The derived columns of one row, copied from the archive columns of `system`. */
  function InUnits(row: Row, system: UnitSystem): (r: Row)
    ensures r.planet == row.planet && r.colour == row.colour && r.selColour == row.selColour && r.alpha == row.alpha
    ensures system == Jupiter ==> r.planetMass == row.planet.massJ && r.planetRadius == row.planet.radiusJ
    ensures system == Earth ==> r.planetMass == row.planet.massE && r.planetRadius == row.planet.radiusE
  {
    match system
    case Jupiter => row.(planetMass := row.planet.massJ, planetRadius := row.planet.radiusJ)
    case Earth => row.(planetMass := row.planet.massE, planetRadius := row.planet.radiusE)
  }

  /**
   * The table after the derived columns are overwritten for `system`: only
   * the two derived columns change, and they hold the archive values of that
   * system.
   */
  function WithUnits(rows: seq<Row>, system: UnitSystem): (r: seq<Row>)
    ensures |r| == |rows|
    ensures forall i :: 0 <= i < |rows| ==>
      r[i].planet == rows[i].planet && r[i].colour == rows[i].colour &&
      r[i].selColour == rows[i].selColour && r[i].alpha == rows[i].alpha
    ensures forall i :: 0 <= i < |rows| ==>
      r[i].planetMass == (if system == Jupiter then rows[i].planet.massJ else rows[i].planet.massE) &&
      r[i].planetRadius == (if system == Jupiter then rows[i].planet.radiusJ else rows[i].planet.radiusE)
  {
    seq(|rows|, i requires 0 <= i < |rows| => InUnits(rows[i], system))
  }

  /**
   * The derived columns depend only on the last system chosen, since they
   * are copied from archive columns no switch writes to. In particular a
   * switch to Earth and back to Jupiter restores the table.
   */
  lemma LastSwitchWins(rows: seq<Row>, first: UnitSystem, second: UnitSystem)
    ensures WithUnits(WithUnits(rows, first), second) == WithUnits(rows, second)
  {
  }

  /** The prepared table is already in Jupiter units. */
  lemma PrepTableInJupiterUnits(raw: seq<Planet>)
    ensures WithUnits(PrepTable(raw), Jupiter) == PrepTable(raw)
  {
  }

  /** The columns that can be put on an axis. */
  datatype Column =
    | PlanetMass | PlanetRadius | OrbitalPeriod | Eccentricity | EquilibriumTemp
    | StellarTeff | Density | GaiaMag | JMag | Metallicity | DiscoveryYear

  /** The value of an axis column in a row; the mass and radius columns are the derived ones. */
  function ColumnValue(row: Row, c: Column): Option<real>
  {
    match c
    case PlanetMass => row.planetMass
    case PlanetRadius => row.planetRadius
    case OrbitalPeriod => row.planet.period
    case Eccentricity => row.planet.eccentricity
    case EquilibriumTemp => row.planet.teq
    case StellarTeff => row.planet.teff
    case Density => row.planet.density
    case GaiaMag => row.planet.gmag
    case JMag => row.planet.jmag
    case Metallicity => row.planet.metallicity
    case DiscoveryYear => row.planet.discoveryYear
  }

  /** `axis_map`: the names offered in the axis menus and the column each one shows. */
  const AxisMap: map<string, Column> := map[
    "Planet mass" := PlanetMass,
    "Planet radius" := PlanetRadius,
    "Orbital period" := OrbitalPeriod,
    "Eccentricity" := Eccentricity,
    "Equilibrium temperature" := EquilibriumTemp,
    "Stellar Effective Temperature" := StellarTeff,
    "Density" := Density,
    "Gaia magnitude" := GaiaMag,
    "2MASS J magnitude" := JMag,
    "Metallicity [Fe/H]" := Metallicity,
    "Year of discovery" := DiscoveryYear]

  /** `unit_map` as the program starts: the unit text shown after each axis name. */
  const InitialUnitMap: map<string, string> := map[
    "Planet mass" := "(Mj)",
    "Planet radius" := "(Rj)",
    "Orbital period" := "(d)",
    "Eccentricity" := "",
    "Equilibrium temperature" := "(K)",
    "Stellar Effective Temperature" := "(K)",
    "Density" := "(g/cm3)",
    "Gaia magnitude" := "",
    "2MASS J magnitude" := "",
    "Metallicity [Fe/H]" := "(dex)",
    "Year of discovery" := ""]

  /** The two unit labels that follow the unit system. */
  function MassUnitLabel(system: UnitSystem): string
  {
    if system == Jupiter then "(Mj)" else "(Me)"
  }

  function RadiusUnitLabel(system: UnitSystem): string
  {
    if system == Jupiter then "(Rj)" else "(Re)"
  }

  /**
   * `unit_map` after a switch to `system`: the mass and radius labels name
   * the system, every other label is kept.
   */
  function Relabel(m: map<string, string>, system: UnitSystem): (r: map<string, string>)
    ensures r.Keys == m.Keys + {"Planet mass", "Planet radius"}
    ensures r["Planet mass"] == MassUnitLabel(system) && r["Planet radius"] == RadiusUnitLabel(system)
    ensures forall k :: k in m && k != "Planet mass" && k != "Planet radius" ==> r[k] == m[k]
  {
    m["Planet mass" := MassUnitLabel(system)]["Planet radius" := RadiusUnitLabel(system)]
  }

  /** Every axis name has a unit label, before and after any unit switch. */
  lemma UnitMapCoversAxes(system: UnitSystem)
    ensures InitialUnitMap.Keys == AxisMap.Keys
    ensures Relabel(InitialUnitMap, system).Keys == AxisMap.Keys
  {
  }

  /**
   * After any switch the unit labels describe the derived columns: a mass
   * (radius) axis labelled "(Me)" ("(Re)") plots the Earth-unit archive
   * column, one labelled "(Mj)" ("(Rj)") the Jupiter-unit column.
   */
  lemma LabelsNameColumns(prepared: seq<Row>, system: UnitSystem)
    ensures var rows := WithUnits(prepared, system);
      var m := Relabel(InitialUnitMap, system);
      (m["Planet mass"] == "(Me)" ==> forall i :: 0 <= i < |rows| ==> rows[i].planetMass == rows[i].planet.massE) &&
      (m["Planet mass"] == "(Mj)" ==> forall i :: 0 <= i < |rows| ==> rows[i].planetMass == rows[i].planet.massJ) &&
      (m["Planet radius"] == "(Re)" ==> forall i :: 0 <= i < |rows| ==> rows[i].planetRadius == rows[i].planet.radiusE) &&
      (m["Planet radius"] == "(Rj)" ==> forall i :: 0 <= i < |rows| ==> rows[i].planetRadius == rows[i].planet.radiusJ)
  {
  }

  /**
   * The initial labels are the Jupiter ones, and a second switch relabels
   * as if the first had not happened: a switch to Earth and back to Jupiter
   * restores the initial labels.
   */
  lemma RelabelLastSwitchWins(first: UnitSystem, second: UnitSystem)
    ensures Relabel(InitialUnitMap, Jupiter) == InitialUnitMap
    ensures Relabel(Relabel(InitialUnitMap, first), second) == Relabel(InitialUnitMap, second)
  {
  }
}
