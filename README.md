# In-situ Parquet query planner and statistics, in Dafny

This project models the query-planning and statistics core of the in-situ
Parquet query service. It has four parts:

- **V4 condition management** (`condition_management_v4.dfy`, module
  `ConditionManagementV4`). The class `ConditionManagementV4` holds:
  - the condition list, extended in the fixed order bounding box, time,
    depth, variables;
  - the column projection;
  - the list of partition templates, expanded over a year/month range.

  Partition templates are values (`PartitionPath`) with an optional year and
  month. `duplicate().set_year().set_month()` is a copy with update. Each
  state-changing step is a method whose postcondition ties the new state to a
  specification function. Lemmas about those functions state:
  - partition counts and month-major order;
  - the cross-year block order: middle years, then the start year, then the
    end year;
  - coverage of the range and nothing outside it;
  - the surface rule of the depth clause;
  - the meaning of the whole condition list for one record.
- **Legacy query path** (`query_v2.dfy`, module `QueryV2`):
  - the `QueryProps` class, its defaults and `from_json`, including a
    `KeyError` on a missing required key after partial assignment;
  - the AND-joined condition string of `__add_conditions`;
  - the count-only and paging rule of `search`, over the engine's filtered
    rows.
- **Statistics** (`statistics_retriever.dfy`, module `Statistics`): the
  `StatisticsRetriever` class, with:
  - the lazily cached `total`;
  - `start`, which fills the min/max fields, applies the missing-depth
    correction and fills the per-key observation counts;
  - `to_json`.

  The aggregates are specification functions over a record sequence.
- **File structure settings** (`file_structure_setting.dfy`, module
  `FileStructure`):
  - the structure-config schema and its validation at construction;
  - the getters;
  - the three lookup errors of the data-column definitions;
  - the data-column filter.

Shared pieces:
- `wrappers.dfy` holds `Option` and `Result`.
- `text.dfy` holds string joining, `endswith` and integer rendering.
- `cdms.dfy` holds the column names, the condition datatype with its
  renderer, and the record type with the meaning (`Holds`) the scan engine
  gives a condition.

Conditions are an algebraic datatype. `Cdms.Render` produces the text that
the source builds with f-strings.

Where one part of the code relies on another part that does not provide what it expects, the model follows the part that is modelled and fills the gap as follows:
- The V4 planner reads `variable` and `quality_flag` from `QueryProps`
  (parquet_flask/io_logic/parquet_query_condition_management_v4.py:159,175),
  but the `QueryProps` class has no such attributes. The model adds them as
  fields, defaulting to no variables and no quality flag.
- The statistics test builds the retriever with one argument, but the
  constructor takes two. The model has the two-argument constructor.

## Model

| member | source | states |
|---|---|---|
| QueryV2.QueryProps.constructor | parquet_flask/io_logic/query_v2.py:36-49 | a new object has start_at 0, size 0, no columns, `variable` empty, `quality_flag` false, and every other field None |
| QueryV2.QueryProps.FromJson | parquet_flask/io_logic/query_v2.py:51-70 | the new state and the raised missing key are exactly those of the reading order of `from_json` (`ApplyJson`) |
| QueryV2.QueryProps.SetRequired | parquet_flask/io_logic/query_v2.py:52-59 | the eight unconditional lookups leave the object as `ApplyRequired` says: each assignment before a missing key is kept, and that key is reported |
| QueryV2.QueryProps.SetRequiredTail | parquet_flask/io_logic/query_v2.py:56-59 | the time and box lookups leave the object as `ApplyRequiredTail` says, stopping at the first missing key |
| QueryV2.QueryProps.SetOptional | parquet_flask/io_logic/query_v2.py:60-69 | the conditional assignments leave the object as `ApplyOptional` says: present keys only, with `device` stored into `provider` |
| QueryV2.ApplyJsonComplete | parquet_flask/io_logic/query_v2.py:51-70 | with all eight required keys the required fields are copied; project, platform_id and columns are set only when present; `device` overrides `provider`; `device` itself never changes |
| QueryV2.ApplyJsonMissing | parquet_flask/io_logic/query_v2.py:52-59 | the first missing required key is the one reported; the optional fields are untouched; a missing `start_from` changes nothing |
| QueryV2.LegacyConditionsCount | parquet_flask/io_logic/query_v2.py:250-279 | each present field contributes its fixed number of conditions (1, 1, 2, 2, 2, 2, 1, 1) and each absent one none |
| QueryV2.LegacyConditionsOrder | parquet_flask/io_logic/query_v2.py:250-279 | with every field present the twelve conditions come in the fixed order, the year condition before the timestamp one |
| Text.JoinEmptyIff | parquet_flask/io_logic/query_v2.py:281 | a join of non-empty parts is empty exactly when there are no parts |
| QueryV2.ConditionStringEmptyIff | parquet_flask/io_logic/query_v2.py:281 | the condition string is empty exactly when none of the eight fields is set |
| QueryV2.Query.constructor | parquet_flask/io_logic/query_v2.py:243-244 | the query keeps the given properties object itself, so later changes to it are seen by `search` |
| Cdms.Render | parquet_flask/io_logic/parquet_query_condition_management_v4.py:121-165 | a comparison's text begins with its column name; the text of a depth range or variable filter begins with `(` and ends with `)` |
| QueryV2.Query.AddConditions | parquet_flask/io_logic/query_v2.py:250-281 | the result is the `' AND '`-join of the rendered conditions of the specification list |
| QueryV2.Query.Search | parquet_flask/io_logic/query_v2.py:288-317 | the response is the paging rule applied to the rows the engine returns for the condition string |
| QueryV2.CountOnly | parquet_flask/io_logic/query_v2.py:302-307 | a size below one gives the total and no rows |
| QueryV2.PageInside | parquet_flask/io_logic/query_v2.py:312 | when start_at + size is within the rows, the page is exactly rows start_at..start_at+size |
| QueryV2.PagePastEnd | parquet_flask/io_logic/query_v2.py:312 | past the end, the page is the last `size` rows, so it may start before start_at |
| QueryV2.PageRepeatsEarlierRow | parquet_flask/io_logic/query_v2.py:312 | three rows, start_from 2, size 2: rows 1 and 2 are returned |
| QueryV2.EmptyPageIff | parquet_flask/io_logic/query_v2.py:312-313 | with size at least one, `result[0]` fails exactly when no row matched or the limit is zero |
| QueryV2.Shape | parquet_flask/io_logic/query_v2.py:308-312 | a column is kept iff the record has it, it is not time_obj, year or month, and it is requested when a projection is given; without a projection every other column is kept; a kept column keeps its value |
| QueryV2.PageColumns | parquet_flask/io_logic/query_v2.py:308-312 | returned rows hold only requested columns when a projection is given, and never time_obj, year or month |
| ConditionManagementV4.ConditionManagementV4.constructor | parquet_flask/io_logic/parquet_query_condition_management_v4.py:27-34 | no conditions, no partitions, the default projection [time, depth, lat, lon], the name without one trailing `/` |
| ConditionManagementV4.StripTrailingSlash | parquet_flask/io_logic/parquet_query_condition_management_v4.py:29 | exactly one trailing `/` is removed when present; otherwise the name is unchanged; the result is a prefix |
| ConditionManagementV4.ConditionManagementV4.StringifyParquetNames | parquet_flask/io_logic/parquet_query_condition_management_v4.py:36-37 | one rendered path per partition, in order |
| ConditionManagementV4.ConditionManagementV4.GenerateTimePartitionList | parquet_flask/io_logic/parquet_query_condition_management_v4.py:91-113 | the new partition list is the expansion `TimePartitions` of the old one over the range |
| ConditionManagementV4.ConditionManagementV4.StampMonths | parquet_flask/io_logic/parquet_query_condition_management_v4.py:94-95 | the month loop yields `Months` for the months from..to |
| ConditionManagementV4.ConditionManagementV4.StampYears | parquet_flask/io_logic/parquet_query_condition_management_v4.py:100-101 | the whole-year loop yields `WholeYears` for the years strictly between |
| ConditionManagementV4.MonthsLength | parquet_flask/io_logic/parquet_query_condition_management_v4.py:94-95 | months a..b give (b − a + 1) × templates partitions, none when a > b |
| ConditionManagementV4.MonthsAt | parquet_flask/io_logic/parquet_query_condition_management_v4.py:94-95 | entry i × templates + j is template j with month a + i: month outer, templates inner, in order |
| ConditionManagementV4.MonthsFields | parquet_flask/io_logic/parquet_query_condition_management_v4.py:94-95 | every month partition has the given year and a month in range, and comes from a template |
| ConditionManagementV4.WholeYearsLength | parquet_flask/io_logic/parquet_query_condition_management_v4.py:100-101 | one partition per template and middle year |
| ConditionManagementV4.WholeYearsFields | parquet_flask/io_logic/parquet_query_condition_management_v4.py:100-101 | every whole-year partition has a middle year and no month, and comes from a template |
| ConditionManagementV4.SameYearPartitions | parquet_flask/io_logic/parquet_query_condition_management_v4.py:92-97 | same year: the count formula (zero when the months are inverted), month-major order, and every partition has the year and a month in range |
| ConditionManagementV4.CrossYearOrder | parquet_flask/io_logic/parquet_query_condition_management_v4.py:99-112 | across years: the middle years come first, then the start year (whole if January, else months to 12), then the end year (whole if December, else months from 1); the block sizes and the years in each block are given |
| ConditionManagementV4.CrossYearExample | parquet_flask/io_logic/parquet_query_condition_management_v4.py:99-112 | November 2020 to February 2022 gives 2021 before 2020-11, 2020-12, 2022-01, 2022-02 |
| ConditionManagementV4.PartitionsCover | parquet_flask/io_logic/parquet_query_condition_management_v4.py:91-113 | every month of the range is covered for every template, by its month or its whole year |
| ConditionManagementV4.PartitionsInside | parquet_flask/io_logic/parquet_query_condition_management_v4.py:91-113 | every partition comes from a template, and the months it spans lie inside the range |
| ConditionManagementV4.ConditionManagementV4.CheckTimeRange | parquet_flask/io_logic/parquet_query_condition_management_v4.py:115-125 | appends exactly `TimeConditions` to the list |
| ConditionManagementV4.TimeConditions | parquet_flask/io_logic/parquet_query_condition_management_v4.py:115-125 | one condition per present time bound |
| ConditionManagementV4.TimeMeaning | parquet_flask/io_logic/parquet_query_condition_management_v4.py:115-125 | a record passes the time conditions iff its time is within the present bounds |
| ConditionManagementV4.ConditionManagementV4.CheckBbox | parquet_flask/io_logic/parquet_query_condition_management_v4.py:127-136 | appends exactly `BboxConditions` to the list |
| ConditionManagementV4.BboxConditions | parquet_flask/io_logic/parquet_query_condition_management_v4.py:127-136 | two conditions per present corner |
| ConditionManagementV4.BboxMeaning | parquet_flask/io_logic/parquet_query_condition_management_v4.py:127-136 | a record passes the box conditions iff its latitude and longitude are within each present corner; the corners are not compared with each other |
| ConditionManagementV4.ConditionManagementV4.CheckDepth | parquet_flask/io_logic/parquet_query_condition_management_v4.py:138-156 | the three-valued surface flag of the code gives exactly `DepthConditions` |
| ConditionManagementV4.DepthConditions | parquet_flask/io_logic/parquet_query_condition_management_v4.py:138-156 | one condition iff a bound is present; it admits the missing value iff (min absent or ≤ 0) and (max absent or ≥ 0) |
| ConditionManagementV4.DepthMeaning | parquet_flask/io_logic/parquet_query_condition_management_v4.py:138-156 | a record passes iff its depth is within the bounds, or it is the missing value and depth 0 is within the bounds |
| ConditionManagementV4.ConditionManagementV4.AddVariablesFilter | parquet_flask/io_logic/parquet_query_condition_management_v4.py:158-166 | appends exactly `VariableConditions` to the list |
| ConditionManagementV4.VariableConditions | parquet_flask/io_logic/parquet_query_condition_management_v4.py:158-166 | no variables, no condition; otherwise one not-null disjunction over the variables in order |
| ConditionManagementV4.VariablesMeaning | parquet_flask/io_logic/parquet_query_condition_management_v4.py:158-166 | a record passes iff at least one requested variable is non-null in it (OR, not AND) |
| ConditionManagementV4.ConditionManagementV4.CheckColumns | parquet_flask/io_logic/parquet_query_condition_management_v4.py:168-179 | the new projection is `ProjectedColumns` of the old one |
| ConditionManagementV4.VariableColumnsLayout | parquet_flask/io_logic/parquet_query_condition_management_v4.py:172-177 | variable columns keep the variable order; with the quality flag each variable is followed directly by its `_quality` column |
| ConditionManagementV4.ProjectedColumnsCount | parquet_flask/io_logic/parquet_query_condition_management_v4.py:168-179 | no requested columns empties the projection even when variables are given; otherwise the requested columns come first and the prior ones last, with no deduplication |
| ConditionManagementV4.ConditionManagementV4.ManageQueryProps | parquet_flask/io_logic/parquet_query_condition_management_v4.py:181-186 | appends the planned conditions in the order box, time, depth, variables, and sets the projection |
| ConditionManagementV4.PlannedConditionsMeaning | parquet_flask/io_logic/parquet_query_condition_management_v4.py:181-185 | the planned conditions together admit exactly the records the query asks for |
| Statistics.MinOf | parquet_flask/parquet_stat_extractor/statistics_retriever.py:186-193 | `min` is null on no rows; otherwise a member at most every member |
| Statistics.MaxOf | parquet_flask/parquet_stat_extractor/statistics_retriever.py:186-193 | `max` is null on no rows; otherwise a member at least every member |
| Statistics.NonMissingDepths | parquet_flask/parquet_stat_extractor/statistics_retriever.py:160 | the filter keeps exactly the depths other than the sentinel |
| Statistics.CorrectedMinDepthExcludesSentinel | parquet_flask/parquet_stat_extractor/statistics_retriever.py:204-211 | the corrected minimum is the minimum of the non-sentinel depths, never the sentinel, and null iff every depth is the sentinel |
| Statistics.CountNonNull | parquet_flask/parquet_stat_extractor/statistics_retriever.py:215 | at most the row count; equal to it iff every record has the key; zero iff none has |
| Statistics.CountObservations | parquet_flask/parquet_stat_extractor/statistics_retriever.py:214-218 | the count query fails exactly for a column the dataset lacks; otherwise at most the row count |
| Statistics.ObservationCounts | parquet_flask/parquet_stat_extractor/statistics_retriever.py:212-219 | the keys are exactly the observation keys, each mapped to its recorded count |
| Statistics.ObservationCountsBounds | parquet_flask/parquet_stat_extractor/statistics_retriever.py:212-219 | every key gets a count between 0 and total; a missing column records 0 and does not stop the others |
| Statistics.Summarize | parquet_flask/parquet_stat_extractor/statistics_retriever.py:185-219 | the summary exists exactly when the dataset has records |
| Statistics.SummaryBounds | parquet_flask/parquet_stat_extractor/statistics_retriever.py:186-208 | the box, maximum depth and time range are attained by some record and bound every record |
| Statistics.TestRowsLats | tests/parquet_flask/parquet_stat_extractor/test_statistics_retriever.py:28-70 | the test records give a latitude range of 0 to 3 |
| Statistics.TestRowsLons | tests/parquet_flask/parquet_stat_extractor/test_statistics_retriever.py:28-72 | the test records give a longitude range of 0 to 3 |
| Statistics.TestRowsTimes | tests/parquet_flask/parquet_stat_extractor/test_statistics_retriever.py:28-76 | the test records span 2000-01-01T00:00:00Z to 00:00:03Z |
| Statistics.TestRowsDepths | tests/parquet_flask/parquet_stat_extractor/test_statistics_retriever.py:28-74 | with a negative sentinel, the corrected minimum depth is 0 and the maximum depth is 3 |
| Statistics.TestRowsSummary | tests/parquet_flask/parquet_stat_extractor/test_statistics_retriever.py:28-77 | there are five test records (the expected total), and their summary has the expected box, depth and time range |
| Statistics.StatisticsRetriever.constructor | parquet_flask/parquet_stat_extractor/statistics_retriever.py:26-38 | total is −1 (not counted), every summary field is None, no counts yet |
| Statistics.StatisticsRetriever.Total | parquet_flask/parquet_stat_extractor/statistics_retriever.py:40-44 | the first read stores the row count; later reads return the cached value; the result is always the row count |
| Statistics.StatisticsRetriever.GetMinDepthExcludeMissingVal | parquet_flask/parquet_stat_extractor/statistics_retriever.py:159-165 | min depth becomes the minimum over the non-sentinel depths |
| Statistics.StatisticsRetriever.Start | parquet_flask/parquet_stat_extractor/statistics_retriever.py:185-221 | on records, every field is what `Summarize` computes; on none, the timestamp conversion fails after the box and depth fields became None |
| Statistics.StatisticsRetriever.CountObservationKeys | parquet_flask/parquet_stat_extractor/statistics_retriever.py:212-219 | the loop yields `ObservationCounts` over the observation keys |
| Statistics.StatisticsRetriever.ToJson | parquet_flask/parquet_stat_extractor/statistics_retriever.py:168-183 | the dictionary carries the row count (through the cache) and the fields as they stand |
| FileStructure.New | parquet_flask/insitu/file_structure_setting.py:103-108 | construction succeeds exactly when the structure config validates against the structure schema |
| FileStructure.NewRequiresKeys | parquet_flask/insitu/file_structure_setting.py:3-99 | a constructed setting has every top-level required key and the required keys of the column filters, sort mechanism, statistics instructions, `data_stats` and `stats`; a missing top-level key is rejected |
| FileStructure.KeyName | parquet_flask/insitu/file_structure_setting.py:110-168 | every getter reads a key the schema requires |
| FileStructure.Get | parquet_flask/insitu/file_structure_setting.py:110-168 | on a constructed setting a getter returns the stored value unchanged |
| FileStructure.DataColumnDefinitions | parquet_flask/insitu/file_structure_setting.py:115-124 | succeeds iff `definitions`, the `data_dict_key` entry and its `properties` are all present; `MissingDefinitions` iff `definitions` is absent; the result is the stored `properties` |
| FileStructure.FilterDataColumns | parquet_flask/insitu/file_structure_setting.py:128 | a key is kept iff it is neither non-data nor quality-suffixed |
| FileStructure.FilterDataColumnsAppend | parquet_flask/insitu/file_structure_setting.py:128 | the filter keeps the key order |
| FileStructure.EmptyPostfixNoColumns | parquet_flask/insitu/file_structure_setting.py:128 | with an empty quality postfix no data column remains |
| FileStructure.StringItems | parquet_flask/insitu/file_structure_setting.py:127-128 | the strings a key is compared against are the string items of the non-data list |
| FileStructure.DataColumnSettings | parquet_flask/insitu/file_structure_setting.py:5-19 | on a constructed setting `non_data_columns` is a list and `quality_key_postfix` a string, so `get_data_columns` never fails reading them |
| FileStructure.DataColumns | parquet_flask/insitu/file_structure_setting.py:126-129 | a definitions error is passed on; when the properties are a dictionary the call succeeds, and the result is the filter of the property keys in their order: a column is returned iff it is a property key, not non-data and not quality-suffixed |

## Left out

- Spark, Elasticsearch, Flask and logging are not modelled. Where the code depends on Spark, the model uses sequences:
  - the `where` filter is a function parameter;
  - `select`, `limit`, `drop` and `tail` are modelled over records;
  - `count` is the length.
- ConditionManagementV4.ConditionManagementV4.ManageQueryProps: does not model the final replacement of the partition list by the search index's answer (lines 187-188), because that result comes from an external service.
- `PartitionedParquetPath` is not part of this model. `generate_path` is a function parameter. Every attribute of a path other than its year and month is folded into `root`.
- The CDMS constants file is not part of this model. The column names in `Cdms.ColumnName` and `Statistics.MissingDepthValue` stand in for its values. The general statistics lemmas hold for any sentinel. The lemmas about the test records (`Statistics.TestRowsDepths`, `Statistics.TestRowsSummary`) assume a negative sentinel.
- The model does not reproduce these string renderings:
  - Python's `str` of a float: a `num` parameter renders numbers;
  - timestamp parsing: `yearOf` and `parseTime` stand for the datetime parser;
  - `.timestamp()`: it becomes the record time as a real.
- Floating-point arithmetic is modelled as exact reals. The test `min_depth - missing == 0` is modelled as equality.
- Statistics.StatisticsRetriever.Start: does not model the `ValueError` for an aggregate that returns other than one row, because a Spark aggregate without grouping always returns exactly one row.
- Records never have null latitude, longitude, depth or time. Null observations are modelled as absent keys.
- Statistics.StatisticsRetriever.CountObservationKeys: a column the dataset lacks is the only failure modelled; any other exception on a key is also recorded as 0 in the source.
- The counts dictionary is a `map`, so its key order is not modelled.
- FileStructure.New: validation covers the `type`, `required`, `properties` and `items` keywords only. The `enum` keyword is not checked. Validation error messages are not modelled.
- FileStructure.DataColumnDefinitions: whenever `definitions`, the `data_dict_key` entry or `data_dict_key` itself is not of the type the code expects, the model returns one `Malformed` error. In the source such a value either raises a `TypeError` or `AttributeError`, or, for a list or string, turns the `not in` test into a membership test. That test can then raise the code's own "missing …" `ValueError` or succeed on a list entry. The model reports none of these distinctions.
- FileStructure: a JSON object is a sequence of members and may repeat a key, which a Python dictionary cannot. `Lookup` takes the first occurrence, and `DataColumns` over properties with a repeated key can list that key twice.
- These request-handling pieces are not modelled:
  - the request JSON schema in query_v2.py (lines 18-32), which `from_json` does not consult;
  - the `Query` constructor's configuration reads;
  - `print(type(result[0]))`: only its `IndexError` on an empty page is modelled.
- The request values are assumed to have the types the request schema declares: `start_from` and `size` are integers, depths are numbers, `min_lat_lon` and `max_lat_lon` are pairs, and `columns` is a list. The errors that other values raise in the source are not modelled:
  - a null or non-integer `size` raises a `TypeError` at `size < 1` (query_v2.py line 302);
  - a lat/lon list with fewer than two items raises an `IndexError` (query_v2.py lines 268-273, parquet_query_condition_management_v4.py lines 130-135);
  - a null `columns` raises a `TypeError` in `len` (query_v2.py line 308);
  - a string depth raises a `TypeError` in the comparison with 0 (parquet_query_condition_management_v4.py lines 146 and 151).
- Cdms.Render: interpolated column names, variable names and values are not escaped, as in the source. A parenthesis inside a name or a value can therefore break the grouping that the enclosing parentheses give a depth range or variable filter, once the conditions are joined by `AND`. The contract states only the outer characters.
- The `QueryProps()` default arguments are evaluated once and shared between calls. That aliasing is not modelled.
- Engine errors for an unknown projected column, or for an empty `where` string, are not modelled.
- The older `insitu/file_structure_setting.py`, the statistics wrapper and the REST endpoints are not part of this model.
- The property getters and setters are plain field reads and assignments. The `total` setter is used only by the cache.
