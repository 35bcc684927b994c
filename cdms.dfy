/** CDMS in-situ records and the filter conditions the query planner pushes
    down to the scan engine.

    Conditions are kept as an algebraic datatype. `Render` produces the
    filter-expression text that the Python code builds with f-strings, and
    `Holds` gives the meaning the scan engine attaches to that text for one
    record, so that the planner's clauses can be checked against what the
    query asks for. */
module Cdms {
  import opened Wrappers
  import opened Text

  /** The columns named through the repository's CDMS constants.
      The constants file is not part of this model; the names below stand
      in for its values. */
  datatype Column = TimeObj | Time | Year | Month | Lat | Lon | Depth | Provider | Project

  function ColumnName(c: Column): (r: string)
    ensures r != ""
  {
    match c
    case TimeObj => "time_obj"
    case Time => "time"
    case Year => "year"
    case Month => "month"
    case Lat => "latitude"
    case Lon => "longitude"
    case Depth => "depth"
    case Provider => "provider"
    case Project => "project"
  }

  datatype Op = Ge | Le | Eq

  function OpText(op: Op): string
  {
    match op
    case Ge => ">="
    case Le => "<="
    case Eq => "=="
  }

  /** The value interpolated on the right of a comparison: a quoted string
      (`'{value}'`), a number rendered by Python's `str` of a float, or an
      integer year. */
  datatype Literal = Quoted(text: string) | Number(x: real) | Whole(n: int)

  datatype Comparison = Comparison(col: Column, op: Op, lit: Literal)

  /** One entry of a condition list.
      - `Compare`: a single comparison.
      - `DepthRange`: the parenthesised AND of the depth bounds, wrapped in
        `( … OR depth == <missing> )` when `missing` is present.
      - `AnyNotNull`: the parenthesised OR of `v IS NOT NULL`. */
  datatype Condition =
    | Compare(cmp: Comparison)
    | DepthRange(bounds: seq<Comparison>, missing: Option<real>)
    | AnyNotNull(variables: seq<string>)

  // ---------------------------------------------------------------------
  // Rendering. Python's `str` of a float is not modelled: `num` renders
  // a number, whatever it does.
  // ---------------------------------------------------------------------

  function LiteralText(lit: Literal, num: real -> string): string
  {
    match lit
    case Quoted(s) => "'" + s + "'"
    case Number(x) => num(x)
    case Whole(n) => IntToString(n)
  }

  function RenderComparison(c: Comparison, num: real -> string): (r: string)
    ensures |r| >= |ColumnName(c.col)| > 0
    ensures r[..|ColumnName(c.col)|] == ColumnName(c.col)
  {
    ColumnName(c.col) + " " + OpText(c.op) + " " + LiteralText(c.lit, num)
  }

  function RenderComparisons(cs: seq<Comparison>, num: real -> string): (r: seq<string>)
    ensures |r| == |cs|
    ensures forall i :: 0 <= i < |r| ==> r[i] == RenderComparison(cs[i], num)
  {
    seq(|cs|, i requires 0 <= i < |cs| => RenderComparison(cs[i], num))
  }

  function NotNullTexts(vs: seq<string>): (r: seq<string>)
    ensures |r| == |vs|
    ensures forall i :: 0 <= i < |r| ==> r[i] == vs[i] + " IS NOT NULL"
  {
    seq(|vs|, i requires 0 <= i < |vs| => vs[i] + " IS NOT NULL")
  }

  /** The text of one condition. A single comparison begins with its
      column name; a depth range or a variable filter is enclosed in
      parentheses, so the `OR` inside it never mixes with the `AND` that
      joins the conditions. */
  function Render(c: Condition, num: real -> string): (r: string)
    ensures r != ""
    ensures c.Compare? ==> |r| >= |ColumnName(c.cmp.col)| && r[..|ColumnName(c.cmp.col)|] == ColumnName(c.cmp.col)
    ensures !c.Compare? ==> |r| >= 2 && r[0] == '(' && r[|r| - 1] == ')'
  {
    match c
    case Compare(cmp) => RenderComparison(cmp, num)
    case DepthRange(bounds, missing) =>
      var inner := "(" + Join(" AND ", RenderComparisons(bounds, num)) + ")";
      if missing.Some? then
        "( " + inner + " OR " + ColumnName(Depth) + " == " + num(missing.value) + " )"
      else inner
    case AnyNotNull(vs) => "(" + Join(" OR ", NotNullTexts(vs)) + ")"
  }

  // ---------------------------------------------------------------------
  // Records and the meaning of a condition.
  // ---------------------------------------------------------------------

  /** One in-situ record: position, depth, time in epoch seconds, and the
      observation columns that are not null in it. */
  datatype Row = Row(lat: real, lon: real, depth: real, time: int, obs: map<string, real>)

  function Compares(op: Op, lhs: real, rhs: real): bool
  {
    match op
    case Ge => lhs >= rhs
    case Le => lhs <= rhs
    case Eq => lhs == rhs
  }

  /** The comparisons the V4 planner emits: time against a quoted timestamp,
      latitude, longitude and depth against a number. */
  predicate Evaluable(c: Comparison)
  {
    match c.col
    case TimeObj => c.lit.Quoted?
    case Lat => c.lit.Number?
    case Lon => c.lit.Number?
    case Depth => c.lit.Number?
    case _ => false
  }

  predicate EvaluableCondition(c: Condition)
  {
    match c
    case Compare(cmp) => Evaluable(cmp)
    case DepthRange(bounds, _) => forall i :: 0 <= i < |bounds| ==> Evaluable(bounds[i])
    case AnyNotNull(_) => true
  }

  /** The engine casts a quoted timestamp to epoch seconds with `parseTime`. */
  predicate HoldsComparison(c: Comparison, row: Row, parseTime: string -> int)
    requires Evaluable(c)
  {
    match c.col
    case TimeObj => Compares(c.op, row.time as real, parseTime(c.lit.text) as real)
    case Lat => Compares(c.op, row.lat, c.lit.x)
    case Lon => Compares(c.op, row.lon, c.lit.x)
    case Depth => Compares(c.op, row.depth, c.lit.x)
  }

  predicate Holds(c: Condition, row: Row, parseTime: string -> int)
    requires EvaluableCondition(c)
  {
    match c
    case Compare(cmp) => HoldsComparison(cmp, row, parseTime)
    case DepthRange(bounds, missing) =>
      (forall i :: 0 <= i < |bounds| ==> HoldsComparison(bounds[i], row, parseTime))
      || (missing.Some? && row.depth == missing.value)
    case AnyNotNull(vs) => exists i :: 0 <= i < |vs| && vs[i] in row.obs
  }

  /** A list of conditions is their conjunction. */
  predicate AllHold(cs: seq<Condition>, row: Row, parseTime: string -> int)
    requires forall i :: 0 <= i < |cs| ==> EvaluableCondition(cs[i])
  {
    forall i :: 0 <= i < |cs| ==> Holds(cs[i], row, parseTime)
  }

  /** Conjunction distributes over concatenation of condition lists. */
  lemma AllHoldAppend(a: seq<Condition>, b: seq<Condition>, row: Row, parseTime: string -> int)
    requires forall i :: 0 <= i < |a| ==> EvaluableCondition(a[i])
    requires forall i :: 0 <= i < |b| ==> EvaluableCondition(b[i])
    ensures forall i :: 0 <= i < |a + b| ==> EvaluableCondition((a + b)[i])
    ensures AllHold(a + b, row, parseTime) <==> AllHold(a, row, parseTime) && AllHold(b, row, parseTime)
  {
    assert forall i :: 0 <= i < |a| ==> (a + b)[i] == a[i];
    assert forall i :: 0 <= i < |b| ==> (a + b)[|a| + i] == b[i];
  }
}
