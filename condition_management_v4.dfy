/** The V4 query planner: it enumerates the year/month partitions a time
    range needs, and turns the query properties into the condition list and
    the column projection handed to the scan engine. */
module ConditionManagementV4 {
  import opened Wrappers
  import opened Text
  import opened Cdms
  import QueryV2

  // -----------------------------------------------------------------------
  // Partition paths and their enumeration.
  // -----------------------------------------------------------------------

  /** A partitioned parquet path. `root` stands for every attribute other
      than the year and the month; how a path renders as a string is not
      part of this model. */
  datatype PartitionPath = PartitionPath(root: string, year: Option<int>, month: Option<int>)

  /** `duplicate().set_year(y)`: a copy with the year replaced. */
  function WithYear(p: PartitionPath, y: int): PartitionPath
  {
    p.(year := Some(y))
  }

  /** `duplicate().set_month(m)`: a copy with the month replaced. */
  function WithMonth(p: PartitionPath, m: int): PartitionPath
  {
    p.(month := Some(m))
  }

  /** A path with its year and month cleared. */
  function Unstamped(p: PartitionPath): PartitionPath
  {
    p.(year := None, month := None)
  }

  /** Templates naming whole datasets: no year, no month. */
  predicate Bare(ts: seq<PartitionPath>)
  {
    forall i :: 0 <= i < |ts| ==> ts[i].year.None? && ts[i].month.None?
  }

  /** The year and month of a time bound. */
  datatype YearMonth = YearMonth(year: int, month: int)

  predicate ValidMonth(t: YearMonth)
  {
    1 <= t.month <= 12
  }

  /** Chronological order of months. */
  predicate NotAfter(a: YearMonth, b: YearMonth)
  {
    a.year < b.year || (a.year == b.year && a.month <= b.month)
  }

  predicate Within(lo: YearMonth, t: YearMonth, hi: YearMonth)
  {
    NotAfter(lo, t) && NotAfter(t, hi)
  }

  /** The months a partition spans all lie inside `[lo, hi]`. */
  predicate Inside(p: PartitionPath, lo: YearMonth, hi: YearMonth)
  {
    p.year.Some? &&
    if p.month.Some? then Within(lo, YearMonth(p.year.value, p.month.value), hi)
    else Within(lo, YearMonth(p.year.value, 1), hi) && Within(lo, YearMonth(p.year.value, 12), hi)
  }

  /** The list comprehension stamping every template with a year. */
  function YearStamped(ts: seq<PartitionPath>, y: int): (r: seq<PartitionPath>)
    ensures |r| == |ts|
    ensures forall i :: 0 <= i < |ts| ==> r[i] == WithYear(ts[i], y)
  {
    seq(|ts|, i requires 0 <= i < |ts| => WithYear(ts[i], y))
  }

  /** The list comprehension stamping every template with a year and month. */
  function MonthStamped(ts: seq<PartitionPath>, y: int, m: int): (r: seq<PartitionPath>)
    ensures |r| == |ts|
    ensures forall i :: 0 <= i < |ts| ==> r[i] == WithMonth(WithYear(ts[i], y), m)
  {
    seq(|ts|, i requires 0 <= i < |ts| => WithMonth(WithYear(ts[i], y), m))
  }

  /** Months `from..to` of year `y`: month-major, templates in order inside. */
  function Months(ts: seq<PartitionPath>, y: int, from: int, to: int): seq<PartitionPath>
    decreases to - from
  {
    if to < from then [] else Months(ts, y, from, to - 1) + MonthStamped(ts, y, to)
  }

  /** Whole-year partitions for the years `from..to-1`. */
  function WholeYears(ts: seq<PartitionPath>, from: int, to: int): seq<PartitionPath>
    decreases to - from
  {
    if to <= from then [] else WholeYears(ts, from, to - 1) + YearStamped(ts, to - 1)
  }

  /** The partitions `__generate_time_partition_list` produces: by month
      within one year; across years the years strictly between come first,
      then the start year, then the end year. */
  function TimePartitions(ts: seq<PartitionPath>, lo: YearMonth, hi: YearMonth): seq<PartitionPath>
  {
    if lo.year == hi.year then Months(ts, lo.year, lo.month, hi.month)
    else
      WholeYears(ts, lo.year + 1, hi.year)
      + StartYear(ts, lo)
      + EndYear(ts, hi)
  }

  lemma {:induction false} MonthsLength(ts: seq<PartitionPath>, y: int, a: int, b: int)
    ensures |Months(ts, y, a, b)| == if a <= b then (b - a + 1) * |ts| else 0
    decreases b - a
  {
    if a <= b {
      MonthsLength(ts, y, a, b - 1);
      assert (b - a + 1) * |ts| == (b - a) * |ts| + |ts|;
    }
  }

  lemma {:induction false} WholeYearsLength(ts: seq<PartitionPath>, a: int, b: int)
    ensures |WholeYears(ts, a, b)| == if a < b then (b - a) * |ts| else 0
    decreases b - a
  {
    if a < b {
      WholeYearsLength(ts, a, b - 1);
      assert (b - a) * |ts| == (b - 1 - a) * |ts| + |ts|;
    }
  }

  /** Entry `i * |ts| + j` of `Months` is template `j` stamped with month
      `a + i`: month is the outer loop, the template order the inner one. */
  lemma {:induction false} MonthsAt(ts: seq<PartitionPath>, y: int, a: int, b: int, i: int, j: int)
    requires 0 <= i <= b - a && 0 <= j < |ts|
    ensures i * |ts| + j < |Months(ts, y, a, b)|
    ensures Months(ts, y, a, b)[i * |ts| + j] == WithMonth(WithYear(ts[j], y), a + i)
    decreases b - a
  {
    MonthsLength(ts, y, a, b - 1);
    MonthsLength(ts, y, a, b);
    var prefix := Months(ts, y, a, b - 1);
    if i == b - a {
      assert i * |ts| == |prefix|;
    } else {
      MonthsAt(ts, y, a, b - 1, i, j);
      assert i * |ts| + j < |prefix|;
    }
  }

  /** Every entry of `Months` is a template stamped with year `y` and a month
      in `a..b`. */
  lemma {:induction false} MonthsFields(ts: seq<PartitionPath>, y: int, a: int, b: int)
    ensures forall k :: 0 <= k < |Months(ts, y, a, b)| ==>
      var p: PartitionPath := Months(ts, y, a, b)[k];
      p.year == Some(y) && p.month.Some? && a <= p.month.value <= b
      && (Bare(ts) ==> Unstamped(p) in ts)
    decreases b - a
  {
    if a <= b {
      MonthsFields(ts, y, a, b - 1);
      var prefix := Months(ts, y, a, b - 1);
      var last := MonthStamped(ts, y, b);
      forall k | 0 <= k < |prefix + last|
        ensures var p: PartitionPath := (prefix + last)[k];
          p.year == Some(y) && p.month.Some? && a <= p.month.value <= b
          && (Bare(ts) ==> Unstamped(p) in ts)
      {
        if k >= |prefix| {
          var j := k - |prefix|;
          if Bare(ts) { assert Unstamped((prefix + last)[k]) == ts[j]; }
        }
      }
    }
  }

  /** Every entry of `WholeYears` is a template stamped with a year in
      `a..b-1` and the template's own month. */
  lemma {:induction false} WholeYearsFields(ts: seq<PartitionPath>, a: int, b: int)
    ensures forall k :: 0 <= k < |WholeYears(ts, a, b)| ==>
      var p: PartitionPath := WholeYears(ts, a, b)[k];
      p.year.Some? && a <= p.year.value < b
      && (Bare(ts) ==> p.month.None? && Unstamped(p) in ts)
    decreases b - a
  {
    if a < b {
      WholeYearsFields(ts, a, b - 1);
      var prefix := WholeYears(ts, a, b - 1);
      var last := YearStamped(ts, b - 1);
      forall k | 0 <= k < |prefix + last|
        ensures var p: PartitionPath := (prefix + last)[k];
          p.year.Some? && a <= p.year.value < b
          && (Bare(ts) ==> p.month.None? && Unstamped(p) in ts)
      {
        if k >= |prefix| {
          var j := k - |prefix|;
          if Bare(ts) { assert Unstamped((prefix + last)[k]) == ts[j]; }
        }
      }
    }
  }

  lemma YearStampedFields(ts: seq<PartitionPath>, y: int)
    ensures forall k :: 0 <= k < |ts| ==>
      YearStamped(ts, y)[k].year == Some(y)
      && (Bare(ts) ==> YearStamped(ts, y)[k].month.None? && Unstamped(YearStamped(ts, y)[k]) in ts)
  {
    forall k | 0 <= k < |ts| && Bare(ts)
      ensures Unstamped(YearStamped(ts, y)[k]) in ts
    {
      assert Unstamped(YearStamped(ts, y)[k]) == ts[k];
    }
  }

  lemma {:induction false} InMonths(ts: seq<PartitionPath>, y: int, a: int, b: int, m: int, j: int)
    requires a <= m <= b && 0 <= j < |ts|
    ensures WithMonth(WithYear(ts[j], y), m) in Months(ts, y, a, b)
    decreases b - a
  {
    if m == b {
      assert MonthStamped(ts, y, b)[j] == WithMonth(WithYear(ts[j], y), m);
    } else {
      InMonths(ts, y, a, b - 1, m, j);
    }
  }

  lemma {:induction false} InWholeYears(ts: seq<PartitionPath>, a: int, b: int, y: int, j: int)
    requires a <= y < b && 0 <= j < |ts|
    ensures WithYear(ts[j], y) in WholeYears(ts, a, b)
    decreases b - a
  {
    if y == b - 1 {
      assert YearStamped(ts, y)[j] == WithYear(ts[j], y);
    } else {
      InWholeYears(ts, a, b - 1, y, j);
    }
  }

  /** Within one year: `(max.month - min.month + 1) * |ts|` partitions (none
      when the months are inverted), month-major with the templates in their
      order inside, each with the common year and a month in range. */
  lemma SameYearPartitions(ts: seq<PartitionPath>, lo: YearMonth, hi: YearMonth)
    requires lo.year == hi.year
    ensures var r := TimePartitions(ts, lo, hi);
      && |r| == (if lo.month <= hi.month then (hi.month - lo.month + 1) * |ts| else 0)
      && (forall i, j :: 0 <= i <= hi.month - lo.month && 0 <= j < |ts| ==>
            i * |ts| + j < |r| && r[i * |ts| + j] == WithMonth(WithYear(ts[j], lo.year), lo.month + i))
      && (forall k :: 0 <= k < |r| ==>
            r[k].year == Some(lo.year) && r[k].month.Some? && lo.month <= r[k].month.value <= hi.month)
  {
    MonthsLength(ts, lo.year, lo.month, hi.month);
    MonthsFields(ts, lo.year, lo.month, hi.month);
    forall i, j | 0 <= i <= hi.month - lo.month && 0 <= j < |ts|
      ensures i * |ts| + j < |Months(ts, lo.year, lo.month, hi.month)|
      ensures Months(ts, lo.year, lo.month, hi.month)[i * |ts| + j]
           == WithMonth(WithYear(ts[j], lo.year), lo.month + i)
    {
      MonthsAt(ts, lo.year, lo.month, hi.month, i, j);
    }
  }

  /** Every partition of `s` carries a year in `a..b-1`. */
  predicate YearsBetween(s: seq<PartitionPath>, a: int, b: int)
  {
    forall k :: 0 <= k < |s| ==> s[k].year.Some? && a <= s[k].year.value < b
  }

  /** The partitions of the start year: the whole year when the range starts
      in January, else its months from the start month on. */
  function StartYear(ts: seq<PartitionPath>, lo: YearMonth): seq<PartitionPath>
  {
    if lo.month == 1 then YearStamped(ts, lo.year) else Months(ts, lo.year, lo.month, 12)
  }

  /** The partitions of the end year: the whole year when the range ends in
      December, else its months up to the end month. */
  function EndYear(ts: seq<PartitionPath>, hi: YearMonth): seq<PartitionPath>
  {
    if hi.month == 12 then YearStamped(ts, hi.year) else Months(ts, hi.year, 1, hi.month)
  }

  lemma StartYearBlock(ts: seq<PartitionPath>, lo: YearMonth)
    requires ValidMonth(lo)
    ensures |StartYear(ts, lo)| == (if lo.month == 1 then 1 else 13 - lo.month) * |ts|
    ensures YearsBetween(StartYear(ts, lo), lo.year, lo.year + 1)
  {
    if lo.month != 1 {
      MonthsLength(ts, lo.year, lo.month, 12);
      MonthsFields(ts, lo.year, lo.month, 12);
    }
  }

  lemma EndYearBlock(ts: seq<PartitionPath>, hi: YearMonth)
    requires ValidMonth(hi)
    ensures |EndYear(ts, hi)| == (if hi.month == 12 then 1 else hi.month) * |ts|
    ensures YearsBetween(EndYear(ts, hi), hi.year, hi.year + 1)
  {
    if hi.month != 12 {
      MonthsLength(ts, hi.year, 1, hi.month);
      MonthsFields(ts, hi.year, 1, hi.month);
    }
  }

  /** Across years the partitions come in three blocks: the years strictly
      between first, then the start year, then the end year. The start year
      is not emitted first. */
  lemma CrossYearOrder(ts: seq<PartitionPath>, lo: YearMonth, hi: YearMonth)
    requires lo.year < hi.year && ValidMonth(lo) && ValidMonth(hi)
    ensures TimePartitions(ts, lo, hi) == WholeYears(ts, lo.year + 1, hi.year) + StartYear(ts, lo) + EndYear(ts, hi)
    ensures |WholeYears(ts, lo.year + 1, hi.year)| == (hi.year - lo.year - 1) * |ts|
    ensures YearsBetween(WholeYears(ts, lo.year + 1, hi.year), lo.year + 1, hi.year)
    ensures |StartYear(ts, lo)| == (if lo.month == 1 then 1 else 13 - lo.month) * |ts|
    ensures YearsBetween(StartYear(ts, lo), lo.year, lo.year + 1)
    ensures |EndYear(ts, hi)| == (if hi.month == 12 then 1 else hi.month) * |ts|
    ensures YearsBetween(EndYear(ts, hi), hi.year, hi.year + 1)
  {
    WholeYearsLength(ts, lo.year + 1, hi.year);
    WholeYearsFields(ts, lo.year + 1, hi.year);
    StartYearBlock(ts, lo);
    EndYearBlock(ts, hi);
  }

  /** One template, November 2020 to February 2022: the whole of 2021 comes
      before the two months of 2020, then the two months of 2022. */
  lemma CrossYearExample(t: PartitionPath)
    ensures TimePartitions([t], YearMonth(2020, 11), YearMonth(2022, 2))
         == [WithYear(t, 2021),
             WithMonth(WithYear(t, 2020), 11), WithMonth(WithYear(t, 2020), 12),
             WithMonth(WithYear(t, 2022), 1), WithMonth(WithYear(t, 2022), 2)]
  {
    assert WholeYears([t], 2021, 2022) == [WithYear(t, 2021)];
    assert Months([t], 2020, 11, 10) == [];
    assert Months([t], 2020, 11, 12) == [WithMonth(WithYear(t, 2020), 11), WithMonth(WithYear(t, 2020), 12)];
    assert Months([t], 2022, 1, 0) == [];
    assert Months([t], 2022, 1, 2) == [WithMonth(WithYear(t, 2022), 1), WithMonth(WithYear(t, 2022), 2)];
  }

  /** No month of `[lo, hi]` is missed: for every template, the month itself
      or the whole year containing it is among the partitions. */
  lemma PartitionsCover(ts: seq<PartitionPath>, lo: YearMonth, hi: YearMonth)
    requires ValidMonth(lo) && ValidMonth(hi) && NotAfter(lo, hi)
    ensures forall y, m, j :: 1 <= m <= 12 && Within(lo, YearMonth(y, m), hi) && 0 <= j < |ts| ==>
      WithMonth(WithYear(ts[j], y), m) in TimePartitions(ts, lo, hi)
      || WithYear(ts[j], y) in TimePartitions(ts, lo, hi)
  {
    forall y, m, j | 1 <= m <= 12 && Within(lo, YearMonth(y, m), hi) && 0 <= j < |ts|
      ensures WithMonth(WithYear(ts[j], y), m) in TimePartitions(ts, lo, hi)
           || WithYear(ts[j], y) in TimePartitions(ts, lo, hi)
    {
      CoverOne(ts, lo, hi, y, m, j);
    }
  }

  lemma CoverOne(ts: seq<PartitionPath>, lo: YearMonth, hi: YearMonth, y: int, m: int, j: int)
    requires ValidMonth(lo) && ValidMonth(hi) && NotAfter(lo, hi)
    requires 1 <= m <= 12 && Within(lo, YearMonth(y, m), hi) && 0 <= j < |ts|
    ensures WithMonth(WithYear(ts[j], y), m) in TimePartitions(ts, lo, hi)
         || WithYear(ts[j], y) in TimePartitions(ts, lo, hi)
  {
    var r := TimePartitions(ts, lo, hi);
    if lo.year == hi.year {
      InMonths(ts, y, lo.month, hi.month, m, j);
    } else {
      var middle := WholeYears(ts, lo.year + 1, hi.year);
      var first := StartYear(ts, lo);
      var last := EndYear(ts, hi);
      assert r == middle + first + last;
      if lo.year < y < hi.year {
        InWholeYears(ts, lo.year + 1, hi.year, y, j);
        assert WithYear(ts[j], y) in r;
      } else if y == lo.year {
        if lo.month == 1 {
          assert first[j] == WithYear(ts[j], y);
        } else {
          InMonths(ts, y, lo.month, 12, m, j);
        }
        assert WithMonth(WithYear(ts[j], y), m) in first || WithYear(ts[j], y) in first;
      } else {
        if hi.month == 12 {
          assert last[j] == WithYear(ts[j], y);
        } else {
          InMonths(ts, y, 1, hi.month, m, j);
        }
        assert WithMonth(WithYear(ts[j], y), m) in last || WithYear(ts[j], y) in last;
      }
    }
  }

  /** Nothing outside `[lo, hi]` is included: every partition is a template
      stamped with a year, and a month when it is not a whole year, and the
      months it spans lie inside the range. */
  lemma PartitionsInside(ts: seq<PartitionPath>, lo: YearMonth, hi: YearMonth)
    requires Bare(ts) && ValidMonth(lo) && ValidMonth(hi) && NotAfter(lo, hi)
    ensures forall k :: 0 <= k < |TimePartitions(ts, lo, hi)| ==>
      Inside(TimePartitions(ts, lo, hi)[k], lo, hi) && Unstamped(TimePartitions(ts, lo, hi)[k]) in ts
  {
    if lo.year == hi.year {
      MonthsFields(ts, lo.year, lo.month, hi.month);
    } else {
      var middle := WholeYears(ts, lo.year + 1, hi.year);
      var first := StartYear(ts, lo);
      var last := EndYear(ts, hi);
      WholeYearsFields(ts, lo.year + 1, hi.year);
      MonthsFields(ts, lo.year, lo.month, 12);
      MonthsFields(ts, hi.year, 1, hi.month);
      YearStampedFields(ts, lo.year);
      YearStampedFields(ts, hi.year);
      var r := middle + first + last;
      forall k | 0 <= k < |r|
        ensures Inside(r[k], lo, hi) && Unstamped(r[k]) in ts
      {
        if k < |middle| {
          assert r[k] == middle[k];
        } else if k < |middle| + |first| {
          assert r[k] == first[k - |middle|];
        } else {
          assert r[k] == last[k - |middle| - |first|];
        }
      }
    }
  }

  // -----------------------------------------------------------------------
  // The condition list and the projection.
  // -----------------------------------------------------------------------

  /** The projection before any query is applied: time, depth, lat, lon. */
  const DefaultColumns: seq<string> :=
    [ColumnName(Time), ColumnName(Depth), ColumnName(Lat), ColumnName(Lon)]

  /** The parquet name without one trailing `/`. */
  function StripTrailingSlash(s: string): (r: string)
    ensures |s| > 0 && s[|s| - 1] == '/' ==> |r| == |s| - 1
    ensures !(|s| > 0 && s[|s| - 1] == '/') ==> r == s
    ensures r == s[..|r|]
  {
    if EndsWith(s, "/") then s[..|s| - 1] else s
  }

  /** Two conditions per present corner, latitude (index 0) before
      longitude (index 1); the corners are not compared with each other. */
  function BboxConditions(p: QueryV2.Props): (r: seq<Condition>)
    ensures |r| == (if p.minLatLon.Some? then 2 else 0) + (if p.maxLatLon.Some? then 2 else 0)
  {
    (if p.minLatLon.Some?
     then [Compare(Comparison(Lat, Ge, Number(p.minLatLon.value.lat))),
           Compare(Comparison(Lon, Ge, Number(p.minLatLon.value.lon)))]
     else [])
    + (if p.maxLatLon.Some?
       then [Compare(Comparison(Lat, Le, Number(p.maxLatLon.value.lat))),
             Compare(Comparison(Lon, Le, Number(p.maxLatLon.value.lon)))]
       else [])
  }

  /** One condition per present time bound, against the quoted timestamp. */
  function TimeConditions(p: QueryV2.Props): (r: seq<Condition>)
    ensures |r| == (if p.minDatetime.Some? then 1 else 0) + (if p.maxDatetime.Some? then 1 else 0)
  {
    (if p.minDatetime.Some? then [Compare(Comparison(TimeObj, Ge, Quoted(p.minDatetime.value)))] else [])
    + (if p.maxDatetime.Some? then [Compare(Comparison(TimeObj, Le, Quoted(p.maxDatetime.value)))] else [])
  }

  /** A depth lies within the requested bounds (no bound, no restriction). */
  predicate DepthWithin(p: QueryV2.Props, d: real)
  {
    (p.minDepth.Some? ==> d >= p.minDepth.value) && (p.maxDepth.Some? ==> d <= p.maxDepth.value)
  }

  function DepthBounds(p: QueryV2.Props): seq<Comparison>
  {
    (if p.minDepth.Some? then [Comparison(Depth, Ge, Number(p.minDepth.value))] else [])
    + (if p.maxDepth.Some? then [Comparison(Depth, Le, Number(p.maxDepth.value))] else [])
  }

  /** At most one depth condition, present iff a bound is; it also admits
      the missing-depth value exactly when the surface (depth 0) is within
      the bounds. */
  function DepthConditions(p: QueryV2.Props, missing: real): (r: seq<Condition>)
    ensures |r| == (if p.minDepth.Some? || p.maxDepth.Some? then 1 else 0)
    ensures |r| == 1 ==>
      && r[0].DepthRange?
      && (r[0].missing == Some(missing) <==>
           (p.minDepth.None? || p.minDepth.value <= 0.0) && (p.maxDepth.None? || p.maxDepth.value >= 0.0))
    ensures |r| == 1 ==> r[0].missing.None? || r[0].missing == Some(missing)
  {
    if p.minDepth.None? && p.maxDepth.None? then []
    else [DepthRange(DepthBounds(p), if DepthWithin(p, 0.0) then Some(missing) else None)]
  }

  /** No variables, no condition; otherwise one OR of not-null checks. */
  function VariableConditions(p: QueryV2.Props): (r: seq<Condition>)
    ensures |r| == (if |p.variable| == 0 then 0 else 1)
    ensures |r| == 1 ==> r[0] == AnyNotNull(p.variable)
  {
    if |p.variable| < 1 then [] else [AnyNotNull(p.variable)]
  }

  /** The conditions `manage_query_props` adds, in its order: box, time,
      depth, variables. */
  function PlannedConditions(p: QueryV2.Props, missing: real): seq<Condition>
  {
    BboxConditions(p) + TimeConditions(p) + DepthConditions(p, missing) + VariableConditions(p)
  }

  /** Each variable, followed by its `_quality` column when asked for. */
  function VariableColumns(vs: seq<string>, quality: bool): seq<string>
  {
    if vs == [] then []
    else
      var v := vs[|vs| - 1];
      VariableColumns(vs[..|vs| - 1], quality) + (if quality then [v, v + "_quality"] else [v])
  }

  /** `__check_columns`: no requested columns empties the projection;
      otherwise requested columns, variable columns, then the prior ones. */
  function ProjectedColumns(p: QueryV2.Props, prior: seq<string>): seq<string>
  {
    if |p.columns| < 1 then [] else p.columns + VariableColumns(p.variable, p.qualityFlag) + prior
  }

  /** Variable columns keep the variable order; with quality flags each
      variable is directly followed by its quality column. */
  lemma {:induction false} VariableColumnsLayout(vs: seq<string>, quality: bool)
    ensures !quality ==> VariableColumns(vs, quality) == vs
    ensures quality ==> |VariableColumns(vs, quality)| == 2 * |vs|
    ensures quality ==> forall i :: 0 <= i < |vs| ==>
      VariableColumns(vs, quality)[2 * i] == vs[i]
      && VariableColumns(vs, quality)[2 * i + 1] == vs[i] + "_quality"
  {
    if vs != [] {
      var init := vs[..|vs| - 1];
      VariableColumnsLayout(init, quality);
      if !quality {
        assert init + [vs[|vs| - 1]] == vs;
      } else {
        var r := VariableColumns(vs, quality);
        forall i | 0 <= i < |vs|
          ensures r[2 * i] == vs[i] && r[2 * i + 1] == vs[i] + "_quality"
        {
          if i < |vs| - 1 {
            assert r[2 * i] == VariableColumns(init, quality)[2 * i];
            assert r[2 * i + 1] == VariableColumns(init, quality)[2 * i + 1];
          }
        }
      }
    }
  }

  /** No requested columns gives no projection even with variables;
      otherwise nothing is deduplicated: the lengths add up. */
  lemma ProjectedColumnsCount(p: QueryV2.Props, prior: seq<string>)
    ensures |p.columns| == 0 ==> ProjectedColumns(p, prior) == []
    ensures |p.columns| > 0 ==>
      |ProjectedColumns(p, prior)| == |p.columns| + (if p.qualityFlag then 2 else 1) * |p.variable| + |prior|
      && ProjectedColumns(p, prior)[..|p.columns|] == p.columns
      && ProjectedColumns(p, prior)[|ProjectedColumns(p, prior)| - |prior|..] == prior
  {
    VariableColumnsLayout(p.variable, p.qualityFlag);
  }

  /** Regrouping of the planned list, step by step as the checks append. */
  lemma AppendPlanned(before: seq<Condition>, p: QueryV2.Props, missing: real)
    ensures before + PlannedConditions(p, missing)
         == before + BboxConditions(p) + TimeConditions(p) + DepthConditions(p, missing) + VariableConditions(p)
  {
  }

  // -----------------------------------------------------------------------
  // What the planned conditions mean for one record.
  // -----------------------------------------------------------------------

  /** The records a query asks for: inside the box, inside the time range,
      inside the depth range (a record whose depth is the missing value
      counts as a surface record), with at least one requested variable. */
  ghost predicate Matches(p: QueryV2.Props, missing: real, row: Row, parseTime: string -> int)
  {
    && (p.minLatLon.Some? ==> row.lat >= p.minLatLon.value.lat && row.lon >= p.minLatLon.value.lon)
    && (p.maxLatLon.Some? ==> row.lat <= p.maxLatLon.value.lat && row.lon <= p.maxLatLon.value.lon)
    && (p.minDatetime.Some? ==> row.time >= parseTime(p.minDatetime.value))
    && (p.maxDatetime.Some? ==> row.time <= parseTime(p.maxDatetime.value))
    && (DepthWithin(p, row.depth) || (row.depth == missing && DepthWithin(p, 0.0)))
    && (|p.variable| > 0 ==> exists i :: 0 <= i < |p.variable| && p.variable[i] in row.obs)
  }

  predicate AllEvaluable(cs: seq<Condition>)
  {
    forall i :: 0 <= i < |cs| ==> EvaluableCondition(cs[i])
  }

  lemma BboxMeaning(p: QueryV2.Props, row: Row, parseTime: string -> int)
    ensures AllEvaluable(BboxConditions(p))
    ensures AllHold(BboxConditions(p), row, parseTime) <==>
      (p.minLatLon.Some? ==> row.lat >= p.minLatLon.value.lat && row.lon >= p.minLatLon.value.lon)
      && (p.maxLatLon.Some? ==> row.lat <= p.maxLatLon.value.lat && row.lon <= p.maxLatLon.value.lon)
  {
    var cs := BboxConditions(p);
    if p.minLatLon.Some? && p.maxLatLon.Some? {
      assert (Holds(cs[0], row, parseTime) && Holds(cs[1], row, parseTime) && Holds(cs[2], row, parseTime)
              && Holds(cs[3], row, parseTime)) ==> AllHold(cs, row, parseTime);
    } else if p.minLatLon.Some? || p.maxLatLon.Some? {
      assert Holds(cs[0], row, parseTime) && Holds(cs[1], row, parseTime) ==> AllHold(cs, row, parseTime);
    }
  }

  lemma TimeMeaning(p: QueryV2.Props, row: Row, parseTime: string -> int)
    ensures AllEvaluable(TimeConditions(p))
    ensures AllHold(TimeConditions(p), row, parseTime) <==>
      (p.minDatetime.Some? ==> row.time >= parseTime(p.minDatetime.value))
      && (p.maxDatetime.Some? ==> row.time <= parseTime(p.maxDatetime.value))
  {
    var cs := TimeConditions(p);
    if p.minDatetime.Some? && p.maxDatetime.Some? {
      assert Holds(cs[0], row, parseTime) && Holds(cs[1], row, parseTime) ==> AllHold(cs, row, parseTime);
    } else if p.minDatetime.Some? || p.maxDatetime.Some? {
      assert Holds(cs[0], row, parseTime) ==> AllHold(cs, row, parseTime);
    }
  }

  /** The depth condition admits a record iff its depth is in range, or it
      is the missing value and the surface is in range. */
  lemma DepthMeaning(p: QueryV2.Props, missing: real, row: Row, parseTime: string -> int)
    ensures AllEvaluable(DepthConditions(p, missing))
    ensures AllHold(DepthConditions(p, missing), row, parseTime) <==>
      DepthWithin(p, row.depth) || (row.depth == missing && DepthWithin(p, 0.0))
  {
    var bs := DepthBounds(p);
    assert forall i :: 0 <= i < |bs| ==> Evaluable(bs[i]);
    if p.minDepth.Some? || p.maxDepth.Some? {
      var within := forall i :: 0 <= i < |bs| ==> HoldsComparison(bs[i], row, parseTime);
      if p.minDepth.Some? && p.maxDepth.Some? {
        assert within <==> HoldsComparison(bs[0], row, parseTime) && HoldsComparison(bs[1], row, parseTime);
      } else {
        assert within <==> HoldsComparison(bs[0], row, parseTime);
      }
      assert within <==> DepthWithin(p, row.depth);
      var cs := DepthConditions(p, missing);
      assert AllHold(cs, row, parseTime) <==> Holds(cs[0], row, parseTime);
    }
  }

  /** The variable condition is a disjunction: one non-null variable is
      enough. */
  lemma VariablesMeaning(p: QueryV2.Props, row: Row, parseTime: string -> int)
    ensures AllEvaluable(VariableConditions(p))
    ensures AllHold(VariableConditions(p), row, parseTime) <==>
      (|p.variable| > 0 ==> exists i :: 0 <= i < |p.variable| && p.variable[i] in row.obs)
  {
    var cs := VariableConditions(p);
    if |p.variable| > 0 {
      assert AllHold(cs, row, parseTime) <==> Holds(cs[0], row, parseTime);
    }
  }

  /** The planned conditions, taken together, admit exactly the records the
      query asks for. */
  lemma PlannedConditionsMeaning(p: QueryV2.Props, missing: real, row: Row, parseTime: string -> int)
    ensures AllEvaluable(PlannedConditions(p, missing))
    ensures AllHold(PlannedConditions(p, missing), row, parseTime) <==> Matches(p, missing, row, parseTime)
  {
    var b, t, d, v := BboxConditions(p), TimeConditions(p), DepthConditions(p, missing), VariableConditions(p);
    BboxMeaning(p, row, parseTime);
    TimeMeaning(p, row, parseTime);
    DepthMeaning(p, missing, row, parseTime);
    VariablesMeaning(p, row, parseTime);
    AllHoldAppend(b, t, row, parseTime);
    AllHoldAppend(b + t, d, row, parseTime);
    AllHoldAppend(b + t + d, v, row, parseTime);
  }

  // -----------------------------------------------------------------------
  // The planner object.
  // -----------------------------------------------------------------------

  class ConditionManagementV4 {
    var conditions: seq<Condition>
    var parquetName: string
    var columns: seq<string>
    var parquetNames: seq<PartitionPath>
    const props: QueryV2.QueryProps
    const missingDepthValue: real

    /** Strips one trailing `/` from the name, starts with no conditions, no
        partitions and the default projection. */
    constructor (parquetName: string, missingDepthValue: real, props: QueryV2.QueryProps)
      ensures this.parquetName == StripTrailingSlash(parquetName)
      ensures conditions == [] && columns == DefaultColumns && parquetNames == []
      ensures this.props == props && this.missingDepthValue == missingDepthValue
    {
      conditions := [];
      this.parquetName := StripTrailingSlash(parquetName);
      columns := DefaultColumns;
      this.props := props;
      this.missingDepthValue := missingDepthValue;
      parquetNames := [];
    }

    /** Each partition rendered by `generatePath`, in order. */
    function StringifyParquetNames(generatePath: PartitionPath -> string): (r: seq<string>)
      reads this
      ensures |r| == |parquetNames|
      ensures forall i :: 0 <= i < |r| ==> r[i] == generatePath(parquetNames[i])
    {
      seq(|parquetNames|, i requires 0 <= i < |parquetNames| reads this => generatePath(parquetNames[i]))
    }

    /** Replaces the partition list by its expansion over `[lo, hi]`. */
    method GenerateTimePartitionList(lo: YearMonth, hi: YearMonth)
      modifies this`parquetNames
      ensures parquetNames == TimePartitions(old(parquetNames), lo, hi)
    {
      var ts := parquetNames;
      if lo.year == hi.year {
        parquetNames := StampMonths(ts, lo.year, lo.month, hi.month);
        return;
      }
      var names := StampYears(ts, lo.year + 1, hi.year);
      if lo.month == 1 {
        names := names + YearStamped(ts, lo.year);
      } else {
        var months := StampMonths(ts, lo.year, lo.month, 12);
        names := names + months;
      }
      if hi.month == 12 {
        names := names + YearStamped(ts, hi.year);
      } else {
        var months := StampMonths(ts, hi.year, 1, hi.month);
        names := names + months;
      }
      parquetNames := names;
    }

    /** The month loop of the partition generator. */
    static method StampMonths(ts: seq<PartitionPath>, y: int, from: int, to: int) returns (names: seq<PartitionPath>)
      ensures names == Months(ts, y, from, to)
    {
      names := [];
      var m := from;
      while m < to + 1
        invariant from <= m && (m <= to + 1 || m == from)
        invariant names == Months(ts, y, from, m - 1)
      {
        names := names + MonthStamped(ts, y, m);
        m := m + 1;
      }
    }

    /** The loop over the years strictly inside the range. */
    static method StampYears(ts: seq<PartitionPath>, from: int, to: int) returns (names: seq<PartitionPath>)
      ensures names == WholeYears(ts, from, to)
    {
      names := [];
      var y := from;
      while y < to
        invariant from <= y && (y <= to || y == from)
        invariant names == WholeYears(ts, from, y)
      {
        names := names + YearStamped(ts, y);
        y := y + 1;
      }
    }

    method CheckTimeRange()
      modifies this`conditions
      ensures conditions == old(conditions) + TimeConditions(props.View())
    {
      var p := props.View();
      if p.minDatetime.None? && p.maxDatetime.None? { return; }
      if p.minDatetime.Some? {
        conditions := conditions + [Compare(Comparison(TimeObj, Ge, Quoted(p.minDatetime.value)))];
      }
      if p.maxDatetime.Some? {
        conditions := conditions + [Compare(Comparison(TimeObj, Le, Quoted(p.maxDatetime.value)))];
      }
    }

    method CheckBbox()
      modifies this`conditions
      ensures conditions == old(conditions) + BboxConditions(props.View())
    {
      var p := props.View();
      if p.minLatLon.Some? {
        conditions := conditions + [Compare(Comparison(Lat, Ge, Number(p.minLatLon.value.lat)))];
        conditions := conditions + [Compare(Comparison(Lon, Ge, Number(p.minLatLon.value.lon)))];
      }
      if p.maxLatLon.Some? {
        conditions := conditions + [Compare(Comparison(Lat, Le, Number(p.maxLatLon.value.lat)))];
        conditions := conditions + [Compare(Comparison(Lon, Le, Number(p.maxLatLon.value.lon)))];
      }
    }

    /** The surface flag follows the source: set by the lower bound, then
        re-decided by the upper bound unless the lower bound already cleared
        it. */
    method CheckDepth()
      modifies this`conditions
      ensures conditions == old(conditions) + DepthConditions(props.View(), missingDepthValue)
    {
      var p := props.View();
      if p.minDepth.None? && p.maxDepth.None? { return; }
      var depthConditions: seq<Comparison> := [];
      var includeSubsurface: Option<bool> := None;
      if p.minDepth.Some? {
        depthConditions := depthConditions + [Comparison(Depth, Ge, Number(p.minDepth.value))];
        includeSubsurface := Some(p.minDepth.value <= 0.0);
      }
      if p.maxDepth.Some? {
        depthConditions := depthConditions + [Comparison(Depth, Le, Number(p.maxDepth.value))];
        if includeSubsurface.None? || includeSubsurface == Some(true) {
          includeSubsurface := Some(p.maxDepth.value >= 0.0);
        }
      }
      assert depthConditions == DepthBounds(p);
      assert includeSubsurface == Some(true) <==> DepthWithin(p, 0.0);
      var missing := if includeSubsurface == Some(true) then Some(missingDepthValue) else None;
      conditions := conditions + [DepthRange(depthConditions, missing)];
    }

    method AddVariablesFilter()
      modifies this`conditions
      ensures conditions == old(conditions) + VariableConditions(props.View())
    {
      var p := props.View();
      if |p.variable| < 1 { return; }
      conditions := conditions + [AnyNotNull(p.variable)];
    }

    method CheckColumns()
      modifies this`columns
      ensures columns == ProjectedColumns(props.View(), old(columns))
    {
      var p := props.View();
      if |p.columns| < 1 {
        columns := [];
        return;
      }
      var variableColumns: seq<string> := [];
      var i := 0;
      while i < |p.variable|
        invariant 0 <= i <= |p.variable|
        invariant variableColumns == VariableColumns(p.variable[..i], p.qualityFlag)
      {
        var v := p.variable[i];
        assert p.variable[..i + 1][..i] == p.variable[..i];
        variableColumns := variableColumns + [v];
        if p.qualityFlag {
          variableColumns := variableColumns + [v + "_quality"];
        }
        i := i + 1;
      }
      assert p.variable[..i] == p.variable;
      columns := p.columns + variableColumns + columns;
    }

    /** The checks in the order box, time, depth, variables, then the
        projection. */
    method ManageQueryProps()
      modifies this`conditions, this`columns
      ensures conditions == old(conditions) + PlannedConditions(props.View(), missingDepthValue)
      ensures columns == ProjectedColumns(props.View(), old(columns))
    {
      ghost var p := props.View();
      ghost var before := conditions;
      CheckBbox();
      assert props.View() == p;
      CheckTimeRange();
      assert props.View() == p;
      CheckDepth();
      assert props.View() == p;
      AddVariablesFilter();
      assert props.View() == p;
      AppendPlanned(before, p, missingDepthValue);
      CheckColumns();
    }
  }
}
