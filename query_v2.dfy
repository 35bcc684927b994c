/** The legacy query path: the query properties object, its population from
    a JSON request, the AND-joined condition string and the count-only and
    paging rule applied to the engine's filtered rows. */
module QueryV2 {
  import opened Wrappers
  import opened Text
  import opened Cdms

  /** A `[lat, lon]` pair; the request schema fixes it at two numbers. */
  datatype LatLon = LatLon(lat: real, lon: real)

  /** The value held by a `QueryProps` object. `variable` and `qualityFlag`
      are read by the V4 planner; they default to no variables and no
      quality columns. */
  datatype Props = Props(
    project: Option<string>,
    provider: Option<string>,
    device: Option<string>,
    platformId: Option<string>,
    minDepth: Option<real>,
    maxDepth: Option<real>,
    minDatetime: Option<string>,
    maxDatetime: Option<string>,
    minLatLon: Option<LatLon>,
    maxLatLon: Option<LatLon>,
    startAt: int,
    size: int,
    columns: seq<string>,
    variable: seq<string>,
    qualityFlag: bool)

  /** A freshly constructed `QueryProps`. */
  const DefaultProps: Props :=
    Props(None, None, None, None, None, None, None, None, None, None, 0, 0, [], [], false)

  /** A JSON request as `from_json` sees it. The outer `Option` says whether
      the key is present; an inner `Option` is a value that may be `null`. */
  datatype QueryJson = QueryJson(
    startFrom: Option<int>,
    size: Option<int>,
    minDepth: Option<Option<real>>,
    maxDepth: Option<Option<real>>,
    minTime: Option<Option<string>>,
    maxTime: Option<Option<string>>,
    minLatLon: Option<Option<LatLon>>,
    maxLatLon: Option<Option<LatLon>>,
    project: Option<Option<string>>,
    provider: Option<Option<string>>,
    device: Option<Option<string>>,
    platformId: Option<Option<string>>,
    columns: Option<seq<string>>)

  /** The keys `from_json` reads unconditionally, in the order it reads them. */
  const RequiredKeys: seq<string> :=
    ["start_from", "size", "min_depth", "max_depth", "min_time", "max_time", "min_lat_lon", "max_lat_lon"]

  predicate HasRequired(j: QueryJson, i: nat)
    requires i < 8
  {
    match i
    case 0 => j.startFrom.Some?
    case 1 => j.size.Some?
    case 2 => j.minDepth.Some?
    case 3 => j.maxDepth.Some?
    case 4 => j.minTime.Some?
    case 5 => j.maxTime.Some?
    case 6 => j.minLatLon.Some?
    case _ => j.maxLatLon.Some?
  }

  /** The outcome of `from_json`: the properties afterwards and, when a
      required key is absent, the key whose lookup raised `KeyError`. */
  datatype Applied = Applied(props: Props, missingKey: Option<string>)

  /** The eight unconditional lookups of `from_json`. A missing key stops
      it with the assignments made so far kept. */
  function ApplyRequired(p: Props, j: QueryJson): Applied
  {
    if j.startFrom.None? then Applied(p, Some("start_from")) else
    var p1 := p.(startAt := j.startFrom.value);
    if j.size.None? then Applied(p1, Some("size")) else
    var p2 := p1.(size := j.size.value);
    if j.minDepth.None? then Applied(p2, Some("min_depth")) else
    var p3 := p2.(minDepth := j.minDepth.value);
    if j.maxDepth.None? then Applied(p3, Some("max_depth")) else
    ApplyRequiredTail(p3.(maxDepth := j.maxDepth.value), j)
  }

  function ApplyRequiredTail(p: Props, j: QueryJson): Applied
  {
    if j.minTime.None? then Applied(p, Some("min_time")) else
    var p1 := p.(minDatetime := j.minTime.value);
    if j.maxTime.None? then Applied(p1, Some("max_time")) else
    var p2 := p1.(maxDatetime := j.maxTime.value);
    if j.minLatLon.None? then Applied(p2, Some("min_lat_lon")) else
    var p3 := p2.(minLatLon := j.minLatLon.value);
    if j.maxLatLon.None? then Applied(p3, Some("max_lat_lon")) else
    Applied(p3.(maxLatLon := j.maxLatLon.value), None)
  }

  /** The conditional assignments of `from_json`; `device` is stored into
      `provider`. */
  function ApplyOptional(p: Props, j: QueryJson): Props
  {
    var p1 := if j.project.Some? then p.(project := j.project.value) else p;
    var p2 := if j.provider.Some? then p1.(provider := j.provider.value) else p1;
    var p3 := if j.device.Some? then p2.(provider := j.device.value) else p2;
    var p4 := if j.platformId.Some? then p3.(platformId := j.platformId.value) else p3;
    if j.columns.Some? then p4.(columns := j.columns.value) else p4
  }

  /** `from_json` as a whole. */
  function ApplyJson(p: Props, j: QueryJson): Applied
  {
    var a := ApplyRequired(p, j);
    if a.missingKey.Some? then a else Applied(ApplyOptional(a.props, j), None)
  }

  /** With every required key present, `from_json` copies the eight required
      values, copies project, platform_id and columns only when present,
      lets `device` win over `provider`, and never sets `device` itself. */
  lemma ApplyJsonComplete(p: Props, j: QueryJson)
    requires forall i :: 0 <= i < 8 ==> HasRequired(j, i)
    ensures var a := ApplyJson(p, j);
      && a.missingKey == None
      && a.props.startAt == j.startFrom.value
      && a.props.size == j.size.value
      && a.props.minDepth == j.minDepth.value
      && a.props.maxDepth == j.maxDepth.value
      && a.props.minDatetime == j.minTime.value
      && a.props.maxDatetime == j.maxTime.value
      && a.props.minLatLon == j.minLatLon.value
      && a.props.maxLatLon == j.maxLatLon.value
      && a.props.project == (if j.project.Some? then j.project.value else p.project)
      && a.props.provider == (if j.device.Some? then j.device.value
                              else if j.provider.Some? then j.provider.value
                              else p.provider)
      && a.props.device == p.device
      && a.props.platformId == (if j.platformId.Some? then j.platformId.value else p.platformId)
      && a.props.columns == (if j.columns.Some? then j.columns.value else p.columns)
      && a.props.variable == p.variable
      && a.props.qualityFlag == p.qualityFlag
  {
    assert HasRequired(j, 0) && HasRequired(j, 1) && HasRequired(j, 2) && HasRequired(j, 3);
    assert HasRequired(j, 4) && HasRequired(j, 5) && HasRequired(j, 6) && HasRequired(j, 7);
  }

  /** A missing required key raises `KeyError` naming the first such key in
      reading order; the optional keys are then never looked at. */
  lemma ApplyJsonMissing(p: Props, j: QueryJson, k: nat)
    requires k < 8 && !HasRequired(j, k)
    requires forall i :: 0 <= i < k ==> HasRequired(j, i)
    ensures var a := ApplyJson(p, j);
      && a.missingKey == Some(RequiredKeys[k])
      && a.props.project == p.project
      && a.props.provider == p.provider
      && a.props.device == p.device
      && a.props.platformId == p.platformId
      && a.props.columns == p.columns
      && (k == 0 ==> a.props == p)
  {
    if k > 0 { assert HasRequired(j, 0); }
    if k > 1 { assert HasRequired(j, 1); }
    if k > 2 { assert HasRequired(j, 2); }
    if k > 3 { assert HasRequired(j, 3); }
    if k > 4 { assert HasRequired(j, 4); }
    if k > 5 { assert HasRequired(j, 5); }
    if k > 6 { assert HasRequired(j, 6); }
  }

  /** The query properties object; every setter of the source is a field
      assignment here. */
  class QueryProps {
    var project: Option<string>
    var provider: Option<string>
    var device: Option<string>
    var platformId: Option<string>
    var minDepth: Option<real>
    var maxDepth: Option<real>
    var minDatetime: Option<string>
    var maxDatetime: Option<string>
    var minLatLon: Option<LatLon>
    var maxLatLon: Option<LatLon>
    var startAt: int
    var size: int
    var columns: seq<string>
    var variable: seq<string>
    var qualityFlag: bool

    function View(): Props
      reads this
    {
      Props(project, provider, device, platformId, minDepth, maxDepth, minDatetime, maxDatetime,
            minLatLon, maxLatLon, startAt, size, columns, variable, qualityFlag)
    }

    /** start_at and size are 0, columns is empty, everything else is None. */
    constructor ()
      ensures View() == DefaultProps
    {
      project, provider, device, platformId := None, None, None, None;
      minDepth, maxDepth, minDatetime, maxDatetime := None, None, None, None;
      minLatLon, maxLatLon := None, None;
      startAt, size, columns := 0, 0, [];
      variable, qualityFlag := [], false;
    }

    /** Copies the request into the properties; `missingKey` is the key whose
        lookup raised `KeyError`, after the assignments before it were made. */
    method FromJson(j: QueryJson) returns (missingKey: Option<string>)
      modifies this
      ensures View() == ApplyJson(old(View()), j).props
      ensures missingKey == ApplyJson(old(View()), j).missingKey
    {
      missingKey := SetRequired(j);
      if missingKey.Some? { return; }
      SetOptional(j);
    }

    method SetRequired(j: QueryJson) returns (missingKey: Option<string>)
      modifies this
      ensures View() == ApplyRequired(old(View()), j).props
      ensures missingKey == ApplyRequired(old(View()), j).missingKey
    {
      if j.startFrom.None? { return Some("start_from"); }
      startAt := j.startFrom.value;
      if j.size.None? { return Some("size"); }
      size := j.size.value;
      if j.minDepth.None? { return Some("min_depth"); }
      minDepth := j.minDepth.value;
      if j.maxDepth.None? { return Some("max_depth"); }
      maxDepth := j.maxDepth.value;
      missingKey := SetRequiredTail(j);
    }

    method SetRequiredTail(j: QueryJson) returns (missingKey: Option<string>)
      modifies this
      ensures View() == ApplyRequiredTail(old(View()), j).props
      ensures missingKey == ApplyRequiredTail(old(View()), j).missingKey
    {
      if j.minTime.None? { return Some("min_time"); }
      minDatetime := j.minTime.value;
      if j.maxTime.None? { return Some("max_time"); }
      maxDatetime := j.maxTime.value;
      if j.minLatLon.None? { return Some("min_lat_lon"); }
      minLatLon := j.minLatLon.value;
      if j.maxLatLon.None? { return Some("max_lat_lon"); }
      maxLatLon := j.maxLatLon.value;
      missingKey := None;
    }

    method SetOptional(j: QueryJson)
      modifies this
      ensures View() == ApplyOptional(old(View()), j)
    {
      if j.project.Some? { project := j.project.value; }
      if j.provider.Some? { provider := j.provider.value; }
      if j.device.Some? { provider := j.device.value; }
      if j.platformId.Some? { platformId := j.platformId.value; }
      if j.columns.Some? { columns := j.columns.value; }
    }
  }

  // -----------------------------------------------------------------------
  // The condition string.
  // -----------------------------------------------------------------------

  /** The conditions `__add_conditions` collects, in its order. The year of a
      timestamp comes from `yearOf`, standing for the datetime parser. */
  function LegacyConditions(p: Props, yearOf: string -> int): seq<Comparison>
  {
    ProviderConditions(p) + ProjectConditions(p)
    + MinTimeConditions(p, yearOf) + MaxTimeConditions(p, yearOf)
    + MinBoxConditions(p) + MaxBoxConditions(p)
    + MinDepthConditions(p) + MaxDepthConditions(p)
  }

  function ProviderConditions(p: Props): seq<Comparison>
  {
    if p.provider.Some? then [Comparison(Provider, Eq, Quoted(p.provider.value))] else []
  }

  function ProjectConditions(p: Props): seq<Comparison>
  {
    if p.project.Some? then [Comparison(Project, Eq, Quoted(p.project.value))] else []
  }

  function MinTimeConditions(p: Props, yearOf: string -> int): seq<Comparison>
  {
    if p.minDatetime.Some?
    then [Comparison(Year, Ge, Whole(yearOf(p.minDatetime.value))),
          Comparison(TimeObj, Ge, Quoted(p.minDatetime.value))]
    else []
  }

  function MaxTimeConditions(p: Props, yearOf: string -> int): seq<Comparison>
  {
    if p.maxDatetime.Some?
    then [Comparison(Year, Le, Whole(yearOf(p.maxDatetime.value))),
          Comparison(TimeObj, Le, Quoted(p.maxDatetime.value))]
    else []
  }

  function MinBoxConditions(p: Props): seq<Comparison>
  {
    if p.minLatLon.Some?
    then [Comparison(Lat, Ge, Number(p.minLatLon.value.lat)),
          Comparison(Lon, Ge, Number(p.minLatLon.value.lon))]
    else []
  }

  function MaxBoxConditions(p: Props): seq<Comparison>
  {
    if p.maxLatLon.Some?
    then [Comparison(Lat, Le, Number(p.maxLatLon.value.lat)),
          Comparison(Lon, Le, Number(p.maxLatLon.value.lon))]
    else []
  }

  function MinDepthConditions(p: Props): seq<Comparison>
  {
    if p.minDepth.Some? then [Comparison(Depth, Ge, Number(p.minDepth.value))] else []
  }

  function MaxDepthConditions(p: Props): seq<Comparison>
  {
    if p.maxDepth.Some? then [Comparison(Depth, Le, Number(p.maxDepth.value))] else []
  }

  function Count(b: bool, n: nat): nat { if b then n else 0 }

  /** Each present field contributes its fixed number of conditions and each
      absent one none. */
  lemma LegacyConditionsCount(p: Props, yearOf: string -> int)
    ensures |LegacyConditions(p, yearOf)|
         == Count(p.provider.Some?, 1) + Count(p.project.Some?, 1)
            + Count(p.minDatetime.Some?, 2) + Count(p.maxDatetime.Some?, 2)
            + Count(p.minLatLon.Some?, 2) + Count(p.maxLatLon.Some?, 2)
            + Count(p.minDepth.Some?, 1) + Count(p.maxDepth.Some?, 1)
  {
    assert |ProviderConditions(p)| == Count(p.provider.Some?, 1);
    assert |ProjectConditions(p)| == Count(p.project.Some?, 1);
    assert |MinTimeConditions(p, yearOf)| == Count(p.minDatetime.Some?, 2);
    assert |MaxTimeConditions(p, yearOf)| == Count(p.maxDatetime.Some?, 2);
    assert |MinBoxConditions(p)| == Count(p.minLatLon.Some?, 2);
    assert |MaxBoxConditions(p)| == Count(p.maxLatLon.Some?, 2);
    assert |MinDepthConditions(p)| == Count(p.minDepth.Some?, 1);
    assert |MaxDepthConditions(p)| == Count(p.maxDepth.Some?, 1);
  }

  /** With every field set, the twelve conditions come in the fixed order
      provider, project, min year and time, max year and time, min latitude
      and longitude, max latitude and longitude, min depth, max depth. */
  lemma LegacyConditionsOrder(p: Props, yearOf: string -> int)
    requires p.provider.Some? && p.project.Some? && p.minDatetime.Some? && p.maxDatetime.Some?
    requires p.minLatLon.Some? && p.maxLatLon.Some? && p.minDepth.Some? && p.maxDepth.Some?
    ensures LegacyConditions(p, yearOf) == [
      Comparison(Provider, Eq, Quoted(p.provider.value)),
      Comparison(Project, Eq, Quoted(p.project.value)),
      Comparison(Year, Ge, Whole(yearOf(p.minDatetime.value))),
      Comparison(TimeObj, Ge, Quoted(p.minDatetime.value)),
      Comparison(Year, Le, Whole(yearOf(p.maxDatetime.value))),
      Comparison(TimeObj, Le, Quoted(p.maxDatetime.value)),
      Comparison(Lat, Ge, Number(p.minLatLon.value.lat)),
      Comparison(Lon, Ge, Number(p.minLatLon.value.lon)),
      Comparison(Lat, Le, Number(p.maxLatLon.value.lat)),
      Comparison(Lon, Le, Number(p.maxLatLon.value.lon)),
      Comparison(Depth, Ge, Number(p.minDepth.value)),
      Comparison(Depth, Le, Number(p.maxDepth.value))]
  {
  }

  /** Nothing set, no conditions: the joined string is empty exactly when no
      field that contributes a condition is set. */
  lemma ConditionStringEmptyIff(p: Props, yearOf: string -> int, num: real -> string)
    ensures Join(" AND ", RenderComparisons(LegacyConditions(p, yearOf), num)) == ""
        <==> (p.provider.None? && p.project.None? && p.minDatetime.None? && p.maxDatetime.None?
              && p.minLatLon.None? && p.maxLatLon.None? && p.minDepth.None? && p.maxDepth.None?)
  {
    var cs := LegacyConditions(p, yearOf);
    LegacyConditionsCount(p, yearOf);
    JoinEmptyIff(" AND ", RenderComparisons(cs, num));
  }

  // -----------------------------------------------------------------------
  // The count-only and paging rule.
  // -----------------------------------------------------------------------

  /** A returned row, as `Row.asDict()` gives it. */
  type Record<V> = map<string, V>

  datatype Response<V> = Response(total: nat, results: seq<Record<V>>)

  /** Failures of `search` after filtering: the engine refuses a negative
      `limit`, and `result[0]` raises `IndexError` on an empty page. */
  datatype SearchError = NegativeLimit | EmptyPage

  /** `select(columns)` on one record. */
  function Select<V>(r: Record<V>, columns: seq<string>): Record<V>
  {
    map k | k in r && k in columns :: r[k]
  }

  /** The columns `search` drops from returned rows. */
  function RemovedColumns(): set<string>
  {
    {ColumnName(TimeObj), ColumnName(Year), ColumnName(Month)}
  }

  /** What happens to one record between the filter and the response: with
      a projection only its columns are kept, without one every column is;
      time_obj, year and month are dropped either way, and a kept column
      keeps its value. */
  function Shape<V>(r: Record<V>, columns: seq<string>): (s: Record<V>)
    ensures forall k :: k in s <==> k in r && k !in RemovedColumns() && (|columns| > 0 ==> k in columns)
    ensures forall k :: k in s ==> s[k] == r[k]
  {
    var selected := if |columns| > 0 then Select(r, columns) else r;
    selected - RemovedColumns()
  }

  function ShapeAll<V>(rows: seq<Record<V>>, columns: seq<string>): (r: seq<Record<V>>)
    ensures |r| == |rows|
    ensures forall i :: 0 <= i < |r| ==> r[i] == Shape(rows[i], columns)
  {
    seq(|rows|, i requires 0 <= i < |rows| => Shape(rows[i], columns))
  }

  /** `limit(n)`: the first `n` rows, or all of them when there are fewer. */
  function Limit<T>(rows: seq<T>, n: nat): (r: seq<T>)
  {
    if n <= |rows| then rows[..n] else rows
  }

  /** `tail(n)`: the last `n` rows, or all of them when there are fewer. */
  function Tail<T>(rows: seq<T>, n: nat): (r: seq<T>)
  {
    if n <= |rows| then rows[|rows| - n..] else rows
  }

  /** The response of `search` for the rows the engine returned for the
      condition string, in the engine's order. */
  function Page<V>(p: Props, filtered: seq<Record<V>>): Result<Response<V>, SearchError>
  {
    if p.size < 1 then Ok(Response(|filtered|, []))
    else if p.startAt + p.size < 0 then Err(NegativeLimit)
    else
      var page := Tail(ShapeAll(Limit(filtered, p.startAt + p.size), p.columns), p.size);
      if |page| == 0 then Err(EmptyPage) else Ok(Response(|filtered|, page))
  }

  /** A size below one only counts: no row is returned. */
  lemma CountOnly<V>(p: Props, filtered: seq<Record<V>>)
    requires p.size < 1
    ensures Page(p, filtered) == Ok(Response(|filtered|, []))
  {
  }

  /** A page that lies inside the filtered rows is exactly that slice. */
  lemma PageInside<V>(p: Props, filtered: seq<Record<V>>)
    requires p.size >= 1 && p.startAt >= 0 && p.startAt + p.size <= |filtered|
    ensures Page(p, filtered)
         == Ok(Response(|filtered|, ShapeAll(filtered[p.startAt..p.startAt + p.size], p.columns)))
  {
    var lim := Limit(filtered, p.startAt + p.size);
    var page := Tail(ShapeAll(lim, p.columns), p.size);
    assert page == ShapeAll(filtered[p.startAt..p.startAt + p.size], p.columns);
  }

  /** A page that runs past the end is the last `size` rows: it starts
      before `startAt` whenever fewer than `startAt + size` rows matched. */
  lemma PagePastEnd<V>(p: Props, filtered: seq<Record<V>>)
    requires p.size >= 1 && p.startAt + p.size > |filtered| > 0
    ensures var from := if |filtered| >= p.size then |filtered| - p.size else 0;
      Page(p, filtered) == Ok(Response(|filtered|, ShapeAll(filtered[from..], p.columns)))
  {
    var from := if |filtered| >= p.size then |filtered| - p.size else 0;
    var page := Tail(ShapeAll(filtered, p.columns), p.size);
    assert page == ShapeAll(filtered[from..], p.columns);
  }

  /** Three matching rows, `start_from` 2 and `size` 2: the page holds rows
      1 and 2, so row 1, which precedes the requested offset, is returned. */
  lemma PageRepeatsEarlierRow(a: Record<int>, b: Record<int>, c: Record<int>)
    ensures var p := DefaultProps.(startAt := 2, size := 2);
      Page(p, [a, b, c]) == Ok(Response(3, [Shape(b, []), Shape(c, [])]))
  {
    PagePastEnd(DefaultProps.(startAt := 2, size := 2), [a, b, c]);
    assert [a, b, c][1..] == [b, c];
    assert ShapeAll([b, c], []) == [Shape(b, []), Shape(c, [])];
  }

  /** With a size of at least one, `result[0]` raises exactly when the page
      is empty: no row matched, or the limit `startAt + size` is zero. */
  lemma EmptyPageIff<V>(p: Props, filtered: seq<Record<V>>)
    requires p.size >= 1 && p.startAt + p.size >= 0
    ensures Page(p, filtered) == Err(EmptyPage) <==> (|filtered| == 0 || p.startAt + p.size == 0)
  {
  }

  /** Returned rows carry only requested columns when a projection is given,
      and never the time_obj, year or month columns. */
  lemma PageColumns<V>(p: Props, filtered: seq<Record<V>>)
    requires Page(p, filtered).Ok?
    ensures forall i, k :: 0 <= i < |Page(p, filtered).value.results| && k in Page(p, filtered).value.results[i] ==>
      k !in RemovedColumns() && (|p.columns| > 0 ==> k in p.columns)
  {
  }

  /** The query object: its properties, read when searching. */
  class Query {
    const props: QueryProps

    constructor (props: QueryProps)
      ensures this.props == props
    {
      this.props := props;
    }

    /** `__add_conditions`: the `' AND '`-join of the collected conditions. */
    method AddConditions(yearOf: string -> int, num: real -> string) returns (r: string)
      ensures r == Join(" AND ", RenderComparisons(LegacyConditions(props.View(), yearOf), num))
    {
      var p := props.View();
      var conditions: seq<Comparison> := [];
      if p.provider.Some? {
        conditions := conditions + [Comparison(Provider, Eq, Quoted(p.provider.value))];
      }
      assert conditions == ProviderConditions(p);
      if p.project.Some? {
        conditions := conditions + [Comparison(Project, Eq, Quoted(p.project.value))];
      }
      ghost var acc := ProviderConditions(p) + ProjectConditions(p);
      assert conditions == acc;
      if p.minDatetime.Some? {
        conditions := conditions + [Comparison(Year, Ge, Whole(yearOf(p.minDatetime.value)))];
        conditions := conditions + [Comparison(TimeObj, Ge, Quoted(p.minDatetime.value))];
      }
      acc := acc + MinTimeConditions(p, yearOf);
      assert conditions == acc;
      if p.maxDatetime.Some? {
        conditions := conditions + [Comparison(Year, Le, Whole(yearOf(p.maxDatetime.value)))];
        conditions := conditions + [Comparison(TimeObj, Le, Quoted(p.maxDatetime.value))];
      }
      acc := acc + MaxTimeConditions(p, yearOf);
      assert conditions == acc;
      if p.minLatLon.Some? {
        conditions := conditions + [Comparison(Lat, Ge, Number(p.minLatLon.value.lat))];
        conditions := conditions + [Comparison(Lon, Ge, Number(p.minLatLon.value.lon))];
      }
      acc := acc + MinBoxConditions(p);
      assert conditions == acc;
      if p.maxLatLon.Some? {
        conditions := conditions + [Comparison(Lat, Le, Number(p.maxLatLon.value.lat))];
        conditions := conditions + [Comparison(Lon, Le, Number(p.maxLatLon.value.lon))];
      }
      acc := acc + MaxBoxConditions(p);
      assert conditions == acc;
      if p.minDepth.Some? {
        conditions := conditions + [Comparison(Depth, Ge, Number(p.minDepth.value))];
      }
      if p.maxDepth.Some? {
        conditions := conditions + [Comparison(Depth, Le, Number(p.maxDepth.value))];
      }
      assert conditions == LegacyConditions(p, yearOf);
      r := Join(" AND ", RenderComparisons(conditions, num));
    }

    /** `search`: the engine filters `table` with the condition string
        (`where`), then the count-only or paging rule applies. */
    method Search<V>(table: seq<Record<V>>, where: (string, seq<Record<V>>) -> seq<Record<V>>,
                     yearOf: string -> int, num: real -> string)
      returns (r: Result<Response<V>, SearchError>)
      ensures r == Page(props.View(),
                        where(Join(" AND ", RenderComparisons(LegacyConditions(props.View(), yearOf), num)), table))
    {
      var conditions := AddConditions(yearOf, num);
      var filtered := where(conditions, table);
      r := Page(props.View(), filtered);
    }
  }
}
