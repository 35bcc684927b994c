/** Summary statistics over one in-situ dataset: row count, the bounding
    box, depth and time ranges, and per-observation non-null counts. */
module Statistics {
  import opened Wrappers
  import Cdms

  /** The depth written for records that carry no depth. The constants file
      is not part of this model; this value stands in for it. The general
      lemmas below hold for any sentinel; the lemmas about the test records
      assume a negative one, as the test's expected minimum depth of 0
      implies. */
  const MissingDepthValue: real := -99999.0

  /** A dataset as the aggregate queries see it: the columns its schema
      declares and its records. Latitude, longitude, depth and time are
      never null in a record; an observation is non-null in a record iff it
      is a key of the record's `obs`. */
  datatype Dataset = Dataset(columns: set<string>, rows: seq<Cdms.Row>)

  // -----------------------------------------------------------------------
  // Aggregates.
  // -----------------------------------------------------------------------

  /** `min` over a column: null (None) over no rows, otherwise a member
      that no other member is below. */
  function MinOf(xs: seq<real>): (r: Option<real>)
    ensures r.None? <==> xs == []
    ensures r.Some? ==> r.value in xs && forall i :: 0 <= i < |xs| ==> r.value <= xs[i]
  {
    if xs == [] then None
    else
      var rest := MinOf(xs[1..]);
      if rest.None? || xs[0] <= rest.value then Some(xs[0]) else rest
  }

  /** `max` over a column, as `MinOf` the other way round. */
  function MaxOf(xs: seq<real>): (r: Option<real>)
    ensures r.None? <==> xs == []
    ensures r.Some? ==> r.value in xs && forall i :: 0 <= i < |xs| ==> xs[i] <= r.value
  {
    if xs == [] then None
    else
      var rest := MaxOf(xs[1..]);
      if rest.None? || xs[0] >= rest.value then Some(xs[0]) else rest
  }

  /** A member below every member is the minimum. */
  lemma MinOfIs(xs: seq<real>, x: real)
    requires x in xs && forall i :: 0 <= i < |xs| ==> x <= xs[i]
    ensures MinOf(xs) == Some(x)
  {
    var m := MinOf(xs).value;
    var i :| 0 <= i < |xs| && xs[i] == m;
    var j :| 0 <= j < |xs| && xs[j] == x;
    assert m <= xs[j] && x <= xs[i];
  }

  /** A member above every member is the maximum. */
  lemma MaxOfIs(xs: seq<real>, x: real)
    requires x in xs && forall i :: 0 <= i < |xs| ==> xs[i] <= x
    ensures MaxOf(xs) == Some(x)
  {
    var m := MaxOf(xs).value;
    var i :| 0 <= i < |xs| && xs[i] == m;
    var j :| 0 <= j < |xs| && xs[j] == x;
    assert xs[j] <= m && xs[i] <= x;
  }

  function Lats(rows: seq<Cdms.Row>): (r: seq<real>)
    ensures |r| == |rows| && forall i :: 0 <= i < |rows| ==> r[i] == rows[i].lat
  {
    seq(|rows|, i requires 0 <= i < |rows| => rows[i].lat)
  }

  function Lons(rows: seq<Cdms.Row>): (r: seq<real>)
    ensures |r| == |rows| && forall i :: 0 <= i < |rows| ==> r[i] == rows[i].lon
  {
    seq(|rows|, i requires 0 <= i < |rows| => rows[i].lon)
  }

  function Depths(rows: seq<Cdms.Row>): (r: seq<real>)
    ensures |r| == |rows| && forall i :: 0 <= i < |rows| ==> r[i] == rows[i].depth
  {
    seq(|rows|, i requires 0 <= i < |rows| => rows[i].depth)
  }

  /** Record times as the epoch seconds `timestamp()` returns. */
  function Times(rows: seq<Cdms.Row>): (r: seq<real>)
    ensures |r| == |rows| && forall i :: 0 <= i < |rows| ==> r[i] == rows[i].time as real
  {
    seq(|rows|, i requires 0 <= i < |rows| => rows[i].time as real)
  }

  /** The depths left by the filter `depth != sentinel`, in record order. */
  function NonMissingDepths(rows: seq<Cdms.Row>, sentinel: real): (r: seq<real>)
    ensures forall x :: x in r <==> x in Depths(rows) && x != sentinel
  {
    if rows == [] then []
    else
      var rest := NonMissingDepths(rows[1..], sentinel);
      assert Depths(rows) == [rows[0].depth] + Depths(rows[1..]);
      if rows[0].depth != sentinel then [rows[0].depth] + rest else rest
  }

  /** The minimum depth after the sentinel correction: the first-pass
      minimum, recomputed over the non-sentinel depths when it is the
      sentinel. */
  function CorrectedMinDepth(rows: seq<Cdms.Row>, sentinel: real): Option<real>
  {
    var first := MinOf(Depths(rows));
    if first.Some? && first.value - sentinel == 0.0 then MinOf(NonMissingDepths(rows, sentinel))
    else first
  }

  /** The corrected minimum depth is the minimum over the non-sentinel
      depths, whatever the data: it is never the sentinel, and it is null
      only when every depth is the sentinel. */
  lemma CorrectedMinDepthExcludesSentinel(rows: seq<Cdms.Row>, sentinel: real)
    ensures CorrectedMinDepth(rows, sentinel) == MinOf(NonMissingDepths(rows, sentinel))
    ensures CorrectedMinDepth(rows, sentinel) != Some(sentinel)
    ensures CorrectedMinDepth(rows, sentinel).None? <==>
      forall i :: 0 <= i < |rows| ==> rows[i].depth == sentinel
  {
    var ds := Depths(rows);
    var nm := NonMissingDepths(rows, sentinel);
    var first := MinOf(ds);
    if first.Some? && first.value != sentinel {
      assert first.value in nm;
      forall i | 0 <= i < |nm| ensures first.value <= nm[i] {
        assert nm[i] in ds;
      }
      MinOfIs(nm, first.value);
    }
    if nm == [] {
      forall i | 0 <= i < |rows| ensures rows[i].depth == sentinel {
        assert ds[i] in ds;
      }
    } else {
      assert nm[0] in ds;
    }
  }

  /** Records in which `key` is non-null. */
  function CountNonNull(rows: seq<Cdms.Row>, key: string): (r: nat)
    ensures r <= |rows|
    ensures r == |rows| <==> forall i :: 0 <= i < |rows| ==> key in rows[i].obs
    ensures r == 0 <==> forall i :: 0 <= i < |rows| ==> key !in rows[i].obs
  {
    if rows == [] then 0
    else
      var rest := CountNonNull(rows[1..], key);
      assert forall i :: 1 <= i < |rows| ==> rows[i] == rows[1..][i - 1];
      rest + (if key in rows[0].obs then 1 else 0)
  }

  /** The per-key count query: the non-null count, or an error when the
      dataset has no such column. */
  function CountObservations(ds: Dataset, key: string): (r: Result<nat, string>)
    ensures r.Err? <==> key !in ds.columns
    ensures r.Ok? ==> r.value <= |ds.rows|
  {
    if key in ds.columns then Ok(CountNonNull(ds.rows, key)) else Err("cannot resolve column " + key)
  }

  /** What the loop records for one key: a failed count is recorded as 0. */
  function RecordedCount(ds: Dataset, key: string): int
  {
    var c := CountObservations(ds, key);
    if c.Ok? then c.value else 0
  }

  /** The counts dictionary after the loop over `keys`. */
  function ObservationCounts(ds: Dataset, keys: seq<string>): (r: map<string, int>)
    ensures r.Keys == set k | k in keys
    ensures forall k :: k in r ==> r[k] == RecordedCount(ds, k)
  {
    if keys == [] then map[]
    else
      var init := keys[..|keys| - 1];
      var rest := ObservationCounts(ds, init);
      var k := keys[|keys| - 1];
      assert keys == init + [k];
      rest[k := RecordedCount(ds, k)]
  }

  /** Every requested key gets a count, between 0 and the row count; a key
      the dataset lacks gets 0, and no failed key stops the others. */
  lemma ObservationCountsBounds(ds: Dataset, keys: seq<string>)
    ensures forall i :: 0 <= i < |keys| ==> keys[i] in ObservationCounts(ds, keys)
    ensures forall k :: k in ObservationCounts(ds, keys) ==>
      0 <= ObservationCounts(ds, keys)[k] <= |ds.rows|
      && (k !in ds.columns ==> ObservationCounts(ds, keys)[k] == 0)
      && (k in ds.columns ==> ObservationCounts(ds, keys)[k] == CountNonNull(ds.rows, k))
  {
    var r := ObservationCounts(ds, keys);
    forall i | 0 <= i < |keys| ensures keys[i] in r {
      assert keys[i] in keys;
    }
  }

  /** The fields `start` fills. */
  datatype Summary = Summary(
    minLat: Option<real>, maxLat: Option<real>,
    minLon: Option<real>, maxLon: Option<real>,
    minDepth: Option<real>, maxDepth: Option<real>,
    minDatetime: Option<real>, maxDatetime: Option<real>,
    observationCount: map<string, int>)

  /** `start` fails when there is no timestamp to convert: the aggregate over
      no records is null. */
  datatype StartError = NullTimestamp

  /** What `start` computes over a dataset. */
  function Summarize(ds: Dataset, keys: seq<string>, sentinel: real): (r: Result<Summary, StartError>)
    ensures r.Ok? <==> |ds.rows| > 0
  {
    var rows := ds.rows;
    if rows == [] then Err(NullTimestamp)
    else
      Ok(Summary(
        MinOf(Lats(rows)), MaxOf(Lats(rows)),
        MinOf(Lons(rows)), MaxOf(Lons(rows)),
        CorrectedMinDepth(rows, sentinel), MaxOf(Depths(rows)),
        MinOf(Times(rows)), MaxOf(Times(rows)),
        ObservationCounts(ds, keys)))
  }

  /** Over a non-empty dataset the box, the maximum depth and the time range
      are attained by some record and bound every record. */
  lemma SummaryBounds(ds: Dataset, keys: seq<string>, sentinel: real)
    requires |ds.rows| > 0
    ensures var s := Summarize(ds, keys, sentinel).value;
      && s.minLat.Some? && s.maxLat.Some? && s.minLon.Some? && s.maxLon.Some?
      && s.maxDepth.Some? && s.minDatetime.Some? && s.maxDatetime.Some?
      && (forall i :: 0 <= i < |ds.rows| ==>
            s.minLat.value <= ds.rows[i].lat <= s.maxLat.value
            && s.minLon.value <= ds.rows[i].lon <= s.maxLon.value
            && ds.rows[i].depth <= s.maxDepth.value
            && s.minDatetime.value <= ds.rows[i].time as real <= s.maxDatetime.value)
      && s.minLat.value in Lats(ds.rows) && s.maxLat.value in Lats(ds.rows)
      && s.minLon.value in Lons(ds.rows) && s.maxLon.value in Lons(ds.rows)
      && s.maxDepth.value in Depths(ds.rows)
      && s.minDatetime.value in Times(ds.rows) && s.maxDatetime.value in Times(ds.rows)
  {
    var rows := ds.rows;
    assert Lats(rows)[0] in Lats(rows) && Lons(rows)[0] in Lons(rows);
    assert Depths(rows)[0] in Depths(rows) && Times(rows)[0] in Times(rows);
  }

  /** The five records of the repository's own test, one with the sentinel
      depth, at 2000-01-01T00:00:00Z plus 0 to 3 seconds. */
  function TestRows(sentinel: real): seq<Cdms.Row>
  {
    var t0 := 946684800;
    [Cdms.Row(0.0, 1.0, 2.0, t0 + 3, map[]),
     Cdms.Row(1.0, 2.0, 3.0, t0, map[]),
     Cdms.Row(2.0, 3.0, 0.0, t0 + 1, map[]),
     Cdms.Row(3.0, 0.0, 1.0, t0 + 2, map[]),
     Cdms.Row(0.0, 1.0, sentinel, t0 + 3, map[])]
  }

  lemma TestRowsLats(sentinel: real)
    ensures MinOf(Lats(TestRows(sentinel))) == Some(0.0) && MaxOf(Lats(TestRows(sentinel))) == Some(3.0)
  {
    var lats := Lats(TestRows(sentinel));
    assert lats == [0.0, 1.0, 2.0, 3.0, 0.0];
    MinOfIs(lats, 0.0);
    MaxOfIs(lats, 3.0);
  }

  lemma TestRowsLons(sentinel: real)
    ensures MinOf(Lons(TestRows(sentinel))) == Some(0.0) && MaxOf(Lons(TestRows(sentinel))) == Some(3.0)
  {
    var lons := Lons(TestRows(sentinel));
    assert lons == [1.0, 2.0, 3.0, 0.0, 1.0];
    MinOfIs(lons, 0.0);
    MaxOfIs(lons, 3.0);
  }

  lemma TestRowsTimes(sentinel: real)
    ensures MinOf(Times(TestRows(sentinel))) == Some(946684800.0)
    ensures MaxOf(Times(TestRows(sentinel))) == Some(946684803.0)
  {
    var ts := Times(TestRows(sentinel));
    assert ts == [946684803.0, 946684800.0, 946684801.0, 946684802.0, 946684803.0];
    MinOfIs(ts, 946684800.0);
    MaxOfIs(ts, 946684803.0);
  }

  lemma TestRowsDepths(sentinel: real)
    requires sentinel < 0.0
    ensures CorrectedMinDepth(TestRows(sentinel), sentinel) == Some(0.0)
    ensures MaxOf(Depths(TestRows(sentinel))) == Some(3.0)
  {
    var rows := TestRows(sentinel);
    var ds := Depths(rows);
    assert ds == [2.0, 3.0, 0.0, 1.0, sentinel];
    MaxOfIs(ds, 3.0);
    CorrectedMinDepthExcludesSentinel(rows, sentinel);
    var nm := NonMissingDepths(rows, sentinel);
    assert 0.0 in nm;
    forall i | 0 <= i < |nm| ensures 0.0 <= nm[i] {
      assert nm[i] in ds;
    }
    MinOfIs(nm, 0.0);
  }

  /** With a negative sentinel the five test records give the expected box, a
      minimum depth of 0 (the sentinel is dropped), a maximum depth of 3 and
      the expected time range. */
  lemma TestRowsSummary(sentinel: real)
    requires sentinel < 0.0
    ensures |TestRows(sentinel)| == 5
    ensures var r := Summarize(Dataset({}, TestRows(sentinel)), [], sentinel);
      && r.Ok?
      && r.value.minLat == Some(0.0) && r.value.maxLat == Some(3.0)
      && r.value.minLon == Some(0.0) && r.value.maxLon == Some(3.0)
      && r.value.minDepth == Some(0.0) && r.value.maxDepth == Some(3.0)
      && r.value.minDatetime == Some(946684800.0) && r.value.maxDatetime == Some(946684803.0)
  {
    TestRowsLats(sentinel);
    TestRowsLons(sentinel);
    TestRowsTimes(sentinel);
    TestRowsDepths(sentinel);
  }

  // -----------------------------------------------------------------------
  // The retriever object.
  // -----------------------------------------------------------------------

  /** The dictionary `to_json` returns; `observationCounts` is None while it
      is still the initial empty list. */
  datatype StatsJson = StatsJson(
    total: int,
    minDatetime: Option<real>, maxDatetime: Option<real>,
    minDepth: Option<real>, maxDepth: Option<real>,
    minLat: Option<real>, maxLat: Option<real>,
    minLon: Option<real>, maxLon: Option<real>,
    observationCounts: Option<map<string, int>>)

  class StatisticsRetriever {
    const inputDataset: Dataset
    const observationKeys: seq<string>
    /** The cached row count; -1 means not counted yet. */
    var total: int
    var minDatetime: Option<real>
    var maxDatetime: Option<real>
    var minDepth: Option<real>
    var maxDepth: Option<real>
    var minLat: Option<real>
    var maxLat: Option<real>
    var minLon: Option<real>
    var maxLon: Option<real>
    var observationCount: Option<map<string, int>>

    /** The cache is either unset or holds the row count. */
    predicate TotalCached()
      reads this
    {
      total == -1 || total == |inputDataset.rows|
    }

    constructor (inputDataset: Dataset, observationKeys: seq<string>)
      ensures this.inputDataset == inputDataset && this.observationKeys == observationKeys
      ensures total == -1 && TotalCached()
      ensures minDatetime.None? && maxDatetime.None? && minDepth.None? && maxDepth.None?
      ensures minLat.None? && maxLat.None? && minLon.None? && maxLon.None?
      ensures observationCount.None?
    {
      this.inputDataset := inputDataset;
      this.observationKeys := observationKeys;
      total := -1;
      minDatetime, maxDatetime := None, None;
      minDepth, maxDepth := None, None;
      minLat, maxLat := None, None;
      minLon, maxLon := None, None;
      observationCount := None;
    }

    /** The `total` property: counts once, then answers from the cache. */
    method Total() returns (r: int)
      requires TotalCached()
      modifies this`total
      ensures r == |inputDataset.rows| && total == r && TotalCached()
      ensures old(total) != -1 ==> total == old(total)
    {
      if total == -1 {
        total := |inputDataset.rows|;
      }
      r := total;
    }

    /** The summary fields, as `to_json` lists them. */
    function Fields(): Summary
      reads this
    {
      Summary(minLat, maxLat, minLon, maxLon, minDepth, maxDepth, minDatetime, maxDatetime,
              if observationCount.Some? then observationCount.value else map[])
    }

    /** `__get_min_depth_exclude_missing_val`. */
    method GetMinDepthExcludeMissingVal()
      modifies this`minDepth
      ensures minDepth == MinOf(NonMissingDepths(inputDataset.rows, MissingDepthValue))
    {
      minDepth := MinOf(NonMissingDepths(inputDataset.rows, MissingDepthValue));
    }

    /** `start`: on success every field is what `Summarize` computes; over no
        records the box and depth fields are already null when the timestamp
        conversion fails, and the rest is untouched. The cached count is
        never touched. */
    method Start() returns (err: Option<StartError>)
      modifies this`minLat, this`maxLat, this`minLon, this`maxLon, this`minDepth, this`maxDepth
      modifies this`minDatetime, this`maxDatetime, this`observationCount
      ensures var s := Summarize(inputDataset, observationKeys, MissingDepthValue);
        && (err.None? <==> s.Ok?)
        && (s.Ok? ==> Fields() == s.value && observationCount.Some?)
        && (s.Err? ==>
             && err == Some(s.error)
             && minLat.None? && maxLat.None? && minLon.None? && maxLon.None?
             && minDepth.None? && maxDepth.None?
             && minDatetime == old(minDatetime) && maxDatetime == old(maxDatetime)
             && observationCount == old(observationCount))
    {
      var rows := inputDataset.rows;
      ghost var s := Summarize(inputDataset, observationKeys, MissingDepthValue);
      minLat := MinOf(Lats(rows));
      maxLat := MaxOf(Lats(rows));
      minLon := MinOf(Lons(rows));
      maxLon := MaxOf(Lons(rows));
      minDepth := MinOf(Depths(rows));
      maxDepth := MaxOf(Depths(rows));
      var firstTime, lastTime := MinOf(Times(rows)), MaxOf(Times(rows));
      if firstTime.None? || lastTime.None? {
        assert rows == [];
        return Some(NullTimestamp);
      }
      assert s.Ok?;
      minDatetime := firstTime;
      maxDatetime := lastTime;
      if minDepth.Some? && minDepth.value - MissingDepthValue == 0.0 {
        GetMinDepthExcludeMissingVal();
      }
      assert minDepth == CorrectedMinDepth(rows, MissingDepthValue);
      var counts := CountObservationKeys();
      observationCount := Some(counts);
      err := None;
      assert Fields() == s.value;
    }

    /** The loop over the observation keys; a key whose count fails is
        recorded as 0 and the loop goes on. */
    method CountObservationKeys() returns (counts: map<string, int>)
      ensures counts == ObservationCounts(inputDataset, observationKeys)
    {
      counts := map[];
      var i := 0;
      while i < |observationKeys|
        invariant 0 <= i <= |observationKeys|
        invariant counts == ObservationCounts(inputDataset, observationKeys[..i])
      {
        var key := observationKeys[i];
        var c := CountObservations(inputDataset, key);
        var obsCount := if c.Ok? then c.value else 0;
        assert observationKeys[..i + 1][..i] == observationKeys[..i];
        counts := counts[key := obsCount];
        i := i + 1;
      }
      assert observationKeys[..i] == observationKeys;
    }

    /** `to_json`: reads the count through the cache and the other fields
        as they stand. */
    method ToJson() returns (r: StatsJson)
      requires TotalCached()
      modifies this`total
      ensures TotalCached() && total == |inputDataset.rows|
      ensures r == StatsJson(|inputDataset.rows|, minDatetime, maxDatetime, minDepth, maxDepth,
                             minLat, maxLat, minLon, maxLon, observationCount)
    {
      var t := Total();
      r := StatsJson(t, minDatetime, maxDatetime, minDepth, maxDepth,
                     minLat, maxLat, minLon, maxLon, observationCount);
    }
  }
}
