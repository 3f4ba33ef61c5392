/**
 * The parameter resolver of interactive.py: `retrieve_system_parameters` and its nested
 * `get_parameter`. The catalog query itself is network I/O; its answer (the rows that match
 * the planet name, or the exception the query raised) is an input here.
 */
module Interactive {
  import opened Wrappers
  import opened Values

  /**
   * One catalog cell, `parameters[column][0]`, classified by how Python's `float` treats it.
   * Wrapped: a unit-carrying quantity whose `.value` converts (a masked entry converts to NaN).
   * Plain: reading `.value` raises, but `float(cell)` converts.
   * NonNumeric: both conversions raise ValueError or TypeError.
   */
  datatype Cell = Wrapped(quantity: Float) | Plain(number: Float) | NonNumeric

  /** A catalog row: column name to cell. */
  type Row = map<string, Cell>

  /** The exception the catalog query raises; it is not caught by the resolver. */
  datatype QueryFailure = QueryFailure(reason: string)

  const Zero: Float := Finite(0.0)
  const OmegaDefault: Float := Finite(90.0)
  const YerrLc: Float := Finite(0.004)
  const YerrRv: int := 10

  /** The keys of the resolver's dictionary, in the order the source writes them. */
  const OutputKeys: set<string> :=
    {"planet_name", "period", "ecc", "omega", "aRs", "orbinc", "RpRs", "K", "vsys", "T14",
     "yerr_lc", "yerr_rv"}

  /** The number the catalog holds for `column`, when the answer is a single row and the cell converts. */
  function CatalogNumber(rows: seq<Row>, column: string): Option<Float> {
    if |rows| == 1 && column in rows[0] then
      match rows[0][column]
      case Wrapped(x) => Some(x)
      case Plain(x) => Some(x)
      case NonNumeric => None
    else None
  }

  /** True when `get_parameter` would return the catalog's value rather than the default. */
  predicate Usable(rows: seq<Row>, column: string) {
    CatalogNumber(rows, column).Some? && !IsNaN(CatalogNumber(rows, column).value)
  }

  /**
   * `get_parameter`: the unit-wrapped conversion is tried first, the plain one second; a NaN
   * from either is replaced by the default, and so is every caught failure (not exactly one
   * row, missing column, value that does not convert). Only NaN is rejected: infinities pass.
   */
  function GetParameter(rows: seq<Row>, column: string, default: Float): (r: Float)
    ensures |rows| != 1 ==> r == default
    ensures r == default || (|rows| == 1 && column in rows[0] && !IsNaN(r) &&
                             (rows[0][column] == Wrapped(r) || rows[0][column] == Plain(r)))
    ensures !IsNaN(default) ==> !IsNaN(r)
  {
    if |rows| != 1 then
      default                                   // ValueError("Multiple parameters found"), caught
    else if column !in rows[0] then
      default                                   // KeyError on both attempts, caught
    else
      match rows[0][column]
      case Wrapped(x) => if IsNaN(x) then default else x
      case Plain(x) => if IsNaN(x) then default else x
      case NonNumeric => default                // ValueError or TypeError, caught
  }

  /** A usable catalog value is returned unchanged, whichever form it is stored in, infinities included. */
  lemma GetParameterReturnsCatalogNumber(rows: seq<Row>, column: string, default: Float)
    requires Usable(rows, column)
    ensures GetParameter(rows, column, default) == CatalogNumber(rows, column).value
  {
  }

  /** An unusable column, for whatever reason, yields the default. */
  lemma GetParameterFallsBack(rows: seq<Row>, column: string, default: Float)
    requires !Usable(rows, column)
    ensures GetParameter(rows, column, default) == default
  {
  }

  /** The resolver's dictionary as a record: the fixed schema, one field per key. */
  datatype ParameterSet = ParameterSet(
    planetName: string, period: Float, ecc: Float, omega: Float, aRs: Float, orbinc: Float,
    rpRs: Float, k: Float, vsys: Float, t14: Float, yerrLc: Float, yerrRv: int)

  /** The dictionary the source returns, keyed as the forward models read it. */
  function AsDict(p: ParameterSet): (d: map<string, Value>)
    ensures d.Keys == OutputKeys
    ensures d["planet_name"] == Text(p.planetName)
    ensures d["period"] == Number(p.period) && d["ecc"] == Number(p.ecc) && d["omega"] == Number(p.omega)
    ensures d["aRs"] == Number(p.aRs) && d["orbinc"] == Number(p.orbinc) && d["RpRs"] == Number(p.rpRs)
    ensures d["K"] == Number(p.k) && d["vsys"] == Number(p.vsys) && d["T14"] == Number(p.t14)
    ensures d["yerr_lc"] == Number(p.yerrLc) && d["yerr_rv"] == Integer(p.yerrRv)
  {
    map["planet_name" := Text(p.planetName), "period" := Number(p.period), "ecc" := Number(p.ecc),
        "omega" := Number(p.omega), "aRs" := Number(p.aRs), "orbinc" := Number(p.orbinc),
        "RpRs" := Number(p.rpRs), "K" := Number(p.k), "vsys" := Number(p.vsys),
        "T14" := Number(p.t14), "yerr_lc" := Number(p.yerrLc), "yerr_rv" := Integer(p.yerrRv)]
  }

  /** No numeric field of the record is NaN. */
  predicate NaNFree(p: ParameterSet) {
    !IsNaN(p.period) && !IsNaN(p.ecc) && !IsNaN(p.omega) && !IsNaN(p.aRs) && !IsNaN(p.orbinc) &&
    !IsNaN(p.rpRs) && !IsNaN(p.k) && !IsNaN(p.vsys) && !IsNaN(p.t14) && !IsNaN(p.yerrLc)
  }

  /**
   * `retrieve_system_parameters`: one query, then each field read through `get_parameter`
   * (planet mass, semi-major axis and stellar mass are fetched and dropped, so they are not
   * computed here), `pl_rvamp` rescaled by 1/1000 and two constant noise levels. A failing
   * query propagates.
   */
  function RetrieveSystemParameters(systemId: string, answer: Result<seq<Row>, QueryFailure>)
    : (r: Result<ParameterSet, QueryFailure>)
    ensures r.Err? <==> answer.Err?
    ensures r.Err? ==> r.error == answer.error
    ensures r.Ok? ==> r.value.planetName == systemId
    ensures r.Ok? ==> r.value.yerrLc == YerrLc && r.value.yerrRv == YerrRv
    ensures r.Ok? ==> NaNFree(r.value)
  {
    match answer
    case Err(failure) => Err(failure)
    case Ok(rows) =>
      Ok(ParameterSet(
        planetName := systemId,
        period := GetParameter(rows, "pl_orbper", Zero),
        ecc := GetParameter(rows, "pl_orbeccen", Zero),
        omega := GetParameter(rows, "pl_orblper", OmegaDefault),
        aRs := GetParameter(rows, "pl_ratdor", Zero),
        orbinc := GetParameter(rows, "pl_orbincl", Zero),
        rpRs := GetParameter(rows, "pl_ratror", Zero),
        k := DivThousand(GetParameter(rows, "pl_rvamp", Zero)),
        vsys := GetParameter(rows, "st_radv", Zero),
        t14 := GetParameter(rows, "pl_trandur", Zero),
        yerrLc := YerrLc,
        yerrRv := YerrRv))
  }

  /** A field's value: the column's catalog number when usable, the default otherwise. */
  function Resolved(rows: seq<Row>, column: string, default: Float): Float {
    if Usable(rows, column) then CatalogNumber(rows, column).value else default
  }

  /** Every extracted field follows its column: usable value or default; `K` is `pl_rvamp`/1000. */
  lemma ResolvedFieldsFollowTheirColumns(systemId: string, rows: seq<Row>)
    ensures var p := RetrieveSystemParameters(systemId, Ok(rows)).value;
      && p.period == Resolved(rows, "pl_orbper", Zero)
      && p.ecc == Resolved(rows, "pl_orbeccen", Zero)
      && p.omega == Resolved(rows, "pl_orblper", OmegaDefault)
      && p.aRs == Resolved(rows, "pl_ratdor", Zero)
      && p.orbinc == Resolved(rows, "pl_orbincl", Zero)
      && p.rpRs == Resolved(rows, "pl_ratror", Zero)
      && p.k == DivThousand(Resolved(rows, "pl_rvamp", Zero))
      && p.vsys == Resolved(rows, "st_radv", Zero)
      && p.t14 == Resolved(rows, "pl_trandur", Zero)
  {
  }

  /** The all-defaults record: every number 0.0 except `omega`, which is 90.0. */
  function Defaults(systemId: string): ParameterSet {
    ParameterSet(systemId, Zero, Zero, OmegaDefault, Zero, Zero, Zero, Zero, Zero, Zero, YerrLc, YerrRv)
  }

  /** No match, or an ambiguous one: every extracted field takes its default. */
  lemma NoSingleMatchGivesDefaults(systemId: string, rows: seq<Row>)
    requires |rows| != 1
    ensures RetrieveSystemParameters(systemId, Ok(rows)) == Ok(Defaults(systemId))
  {
  }

  /**
   * `omega` depends on `pl_orblper` alone: two answers that agree on that column give the
   * same `omega`, whatever their eccentricities.
   */
  lemma OmegaIgnoresEccentricity(systemId: string, rows1: seq<Row>, rows2: seq<Row>)
    requires |rows1| == |rows2|
    requires |rows1| == 1 ==> ("pl_orblper" in rows1[0] <==> "pl_orblper" in rows2[0])
    requires |rows1| == 1 && "pl_orblper" in rows1[0] ==> rows1[0]["pl_orblper"] == rows2[0]["pl_orblper"]
    ensures RetrieveSystemParameters(systemId, Ok(rows1)).value.omega ==
            RetrieveSystemParameters(systemId, Ok(rows2)).value.omega
  {
  }

  /** Removes the given columns from every row. */
  function DropColumns(rows: seq<Row>, columns: set<string>): (r: seq<Row>)
    ensures |r| == |rows|
    ensures forall i :: 0 <= i < |r| ==> r[i] == rows[i] - columns
  {
    seq(|rows|, i requires 0 <= i < |rows| => rows[i] - columns)
  }

  /** Planet mass, semi-major axis and stellar mass are fetched but never reach the output. */
  lemma UnusedColumnsIgnored(systemId: string, rows: seq<Row>)
    ensures RetrieveSystemParameters(systemId, Ok(DropColumns(rows, {"pl_bmassj", "pl_orbsmax", "st_mass"}))) ==
            RetrieveSystemParameters(systemId, Ok(rows))
  {
  }
}
