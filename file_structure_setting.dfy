/** The file-structure settings of an in-situ dataset: a structure config,
    validated once against a fixed schema, and the dataset's JSON schema,
    from which the observation (data) columns are derived. */
module FileStructure {
  import opened Wrappers
  import opened Text

  // -----------------------------------------------------------------------
  // JSON values and the schema subset the structure config uses.
  // -----------------------------------------------------------------------

  datatype Json =
    | JNull
    | JBool(b: bool)
    | JNum(n: real)
    | JStr(s: string)
    | JArr(items: seq<Json>)
    | JObj(members: seq<Member>)

  datatype Member = Member(key: string, value: Json)

  predicate HasKey(members: seq<Member>, key: string)
  {
    exists i :: 0 <= i < |members| && members[i].key == key
  }

  /** Dictionary access: the value stored under `key`, if any. */
  function Lookup(members: seq<Member>, key: string): (r: Option<Json>)
    ensures r.None? <==> !HasKey(members, key)
    ensures r.Some? ==> Member(key, r.value) in members
  {
    if members == [] then None
    else if members[0].key == key then Some(members[0].value)
    else
      var rest := Lookup(members[1..], key);
      assert forall i :: 1 <= i < |members| ==> members[i] == members[1..][i - 1];
      rest
  }

  /** The keys of a dictionary, in their order. */
  function Keys(members: seq<Member>): (r: seq<string>)
    ensures |r| == |members| && forall i :: 0 <= i < |members| ==> r[i] == members[i].key
  {
    seq(|members|, i requires 0 <= i < |members| => members[i].key)
  }

  /** The `type` keyword; `AnyKind` when the schema has none. */
  datatype Kind = AnyKind | ObjectKind | ArrayKind | StringKind | BooleanKind

  /** A schema: its type, its required keys, the schemas of its named
      properties, and the schema of its array items. */
  datatype Schema = Schema(kind: Kind, required: seq<string>, properties: seq<Property>, items: Option<Schema>)

  datatype Property = Property(name: string, schema: Schema)

  predicate KindMatches(k: Kind, j: Json)
  {
    match k
    case AnyKind => true
    case ObjectKind => j.JObj?
    case ArrayKind => j.JArr?
    case StringKind => j.JStr?
    case BooleanKind => j.JBool?
  }

  /** Validation: the type matches; an object has every required key and
      every named property that is present validates against its schema;
      every item of an array validates against the item schema. */
  predicate Validates(s: Schema, j: Json)
    decreases s
  {
    && KindMatches(s.kind, j)
    && (j.JObj? ==>
          && (forall k :: k in s.required ==> HasKey(j.members, k))
          && (forall i :: 0 <= i < |s.properties| ==>
                var v := Lookup(j.members, s.properties[i].name);
                v.Some? ==> Validates(s.properties[i].schema, v.value)))
    && (j.JArr? && s.items.Some? ==>
          forall i :: 0 <= i < |j.items| ==> Validates(s.items.value, j.items[i]))
  }

  /** A valid object's present properties validate against their schemas. */
  lemma PropertyValidates(s: Schema, j: Json, i: int)
    requires Validates(s, j) && j.JObj? && 0 <= i < |s.properties|
    requires HasKey(j.members, s.properties[i].name)
    ensures Lookup(j.members, s.properties[i].name).Some?
    ensures Validates(s.properties[i].schema, Lookup(j.members, s.properties[i].name).value)
  {
  }

  // -----------------------------------------------------------------------
  // The structure-config schema.
  // -----------------------------------------------------------------------

  function Leaf(kind: Kind): Schema
  {
    Schema(kind, [], [], None)
  }

  function Obj(required: seq<string>, properties: seq<Property>): Schema
  {
    Schema(ObjectKind, required, properties, None)
  }

  const StringList: Schema := Schema(ArrayKind, [], [], Some(Leaf(StringKind)))

  /** The keys every structure config must have. */
  const TopRequired: seq<string> := [
    "partitioning_columns", "non_data_columns", "derived_columns", "file_metadata_keys",
    "data_array_key", "data_dict_key", "has_data_quality", "quality_key_postfix",
    "parquet_file_data_stats", "query_input_metadata_search_instructions", "es_index_schema_parquet_stats",
    "query_statistics_instructions", "query_input_column_filters", "query_sort_mechanism",
    "query_input_parquet_conditions", "query_input_transformer_schema"]

  const ColumnFiltersRequired: seq<string> :=
    ["default_columns", "mandatory_column_filter_key", "additional_column_filter_key", "removing_columns"]

  const SortRequired: seq<string> :=
    ["sorting_columns", "page_size_key", "pagination_marker_key", "pagination_marker_time"]

  const StatisticsRequired: seq<string> := ["group_by", "stats", "data_stats"]

  const DataStatsRequired: seq<string> := ["is_included", "stats", "data_prefix"]

  const StatsRequired: seq<string> := ["min", "max", "sum"]

  const ColumnFiltersSchema: Schema := Obj(ColumnFiltersRequired, [
    Property("removing_columns", StringList),
    Property("default_columns", StringList),
    Property("mandatory_column_filter_key", Leaf(StringKind)),
    Property("additional_column_filter_key", Leaf(StringKind))])

  const SortSchema: Schema := Obj(SortRequired, [
    Property("page_size_key", Leaf(StringKind)),
    Property("pagination_marker_key", Leaf(StringKind)),
    Property("pagination_marker_time", Leaf(StringKind)),
    Property("sorting_columns", StringList)])

  const DataStatsSchema: Schema := Obj(DataStatsRequired, [
    Property("is_included", Leaf(BooleanKind)),
    Property("stats", Leaf(StringKind)),
    Property("data_prefix", Leaf(StringKind))])

  const StatsSchema: Schema := Obj(StatsRequired, [
    Property("min", StringList),
    Property("max", StringList),
    Property("sum", StringList)])

  const StatisticsSchema: Schema := Obj(StatisticsRequired, [
    Property("group_by", StringList),
    Property("include_data_stats", Leaf(BooleanKind)),
    Property("data_stats", DataStatsSchema),
    Property("stats", StatsSchema)])

  const FileDataStatsSchema: Schema := Schema(ArrayKind, [], [], Some(Obj(["stat_type", "output_name"], [
    Property("output_name", Leaf(StringKind)),
    Property("stat_type", Leaf(StringKind)),
    Property("special_data_type", Leaf(StringKind)),
    Property("column", Leaf(StringKind)),
    Property("columns", StringList)])))

  /** The schema every structure config is validated against. */
  const StructureConfig: Schema := Obj(TopRequired, [
    Property("data_dict_key", Leaf(StringKind)),
    Property("has_data_quality", Leaf(BooleanKind)),
    Property("quality_key_postfix", Leaf(StringKind)),
    Property("data_array_key", Leaf(StringKind)),
    Property("partitioning_columns", StringList),
    Property("non_data_columns", StringList),
    Property("metadata_keys", StringList),
    Property("derived_columns", Obj([], [])),
    Property("query_input_column_filters", ColumnFiltersSchema),
    Property("query_sort_mechanism", SortSchema),
    Property("query_input_parquet_conditions", Leaf(ObjectKind)),
    Property("query_input_transformer_schema", Leaf(ObjectKind)),
    Property("es_index_schema_parquet_stats", Leaf(ObjectKind)),
    Property("query_input_metadata_search_instructions", Leaf(ObjectKind)),
    Property("query_statistics_instructions", StatisticsSchema),
    Property("parquet_file_data_stats", FileDataStatsSchema)])

  // -----------------------------------------------------------------------
  // The settings object.
  // -----------------------------------------------------------------------

  /** A constructed setting: the dataset's JSON schema (a dictionary) and
      the structure config. */
  datatype FileStructureSetting = FileStructureSetting(dataJsonSchema: seq<Member>, structureConfig: Json)

  /** What every constructed setting satisfies. */
  predicate Valid(f: FileStructureSetting)
  {
    Validates(StructureConfig, f.structureConfig)
  }

  /** The constructor: rejects a structure config that does not validate. */
  function New(dataJsonSchema: seq<Member>, structureConfig: Json): (r: Result<FileStructureSetting, string>)
    ensures r.Ok? <==> Validates(StructureConfig, structureConfig)
    ensures r.Ok? ==> Valid(r.value) && r.value == FileStructureSetting(dataJsonSchema, structureConfig)
  {
    if Validates(StructureConfig, structureConfig) then Ok(FileStructureSetting(dataJsonSchema, structureConfig))
    else Err("invalid structure_config")
  }

  /** An object value under `key` that has every key of `required`. */
  predicate HasObjectWith(members: seq<Member>, key: string, required: seq<string>)
  {
    var v := Lookup(members, key);
    v.Some? && v.value.JObj? && forall k :: k in required ==> HasKey(v.value.members, k)
  }

  /** Construction succeeds only with every required top-level key, and
      with the required keys of the column filters, the sort mechanism, the
      statistics instructions and their `data_stats` and `stats`; a missing
      top-level key is rejected. */
  lemma NewRequiresKeys(dataJsonSchema: seq<Member>, structureConfig: Json)
    ensures New(dataJsonSchema, structureConfig).Ok? ==>
      && structureConfig.JObj?
      && (forall k :: k in TopRequired ==> HasKey(structureConfig.members, k))
      && HasObjectWith(structureConfig.members, "query_input_column_filters", ColumnFiltersRequired)
      && HasObjectWith(structureConfig.members, "query_sort_mechanism", SortRequired)
      && HasObjectWith(structureConfig.members, "query_statistics_instructions", StatisticsRequired)
      && HasObjectWith(Lookup(structureConfig.members, "query_statistics_instructions").value.members,
                       "data_stats", DataStatsRequired)
      && HasObjectWith(Lookup(structureConfig.members, "query_statistics_instructions").value.members,
                       "stats", StatsRequired)
    ensures structureConfig.JObj? && (exists k :: k in TopRequired && !HasKey(structureConfig.members, k)) ==>
      New(dataJsonSchema, structureConfig).Err?
  {
    if Validates(StructureConfig, structureConfig) {
      var j := structureConfig;
      assert StructureConfig.properties[8].name == "query_input_column_filters";
      PropertyValidates(StructureConfig, j, 8);
      assert StructureConfig.properties[9].name == "query_sort_mechanism";
      PropertyValidates(StructureConfig, j, 9);
      assert StructureConfig.properties[14].name == "query_statistics_instructions";
      PropertyValidates(StructureConfig, j, 14);
      var stats := Lookup(j.members, "query_statistics_instructions").value;
      assert StatisticsSchema.properties[2].name == "data_stats";
      PropertyValidates(StatisticsSchema, stats, 2);
      assert StatisticsSchema.properties[3].name == "stats";
      PropertyValidates(StatisticsSchema, stats, 3);
    }
  }

  /** The getters: each returns a top-level config value as stored. */
  datatype ConfigKey =
    | QualityKeyPostfix | EsIndexSchemaParquetStats | QueryInputTransformerSchema
    | QueryInputMetadataSearchInstructions | FileMetadataKeys | DataArrayKey
    | QueryInputColumnFilters | QuerySortMechanism | QueryInputParquetConditions
    | DerivedColumns | ParquetFileDataStats | NonDataColumns
    | QueryStatisticsInstructions | PartitioningColumns

  function KeyName(k: ConfigKey): (r: string)
    ensures r in TopRequired
  {
    match k
    case QualityKeyPostfix => "quality_key_postfix"
    case EsIndexSchemaParquetStats => "es_index_schema_parquet_stats"
    case QueryInputTransformerSchema => "query_input_transformer_schema"
    case QueryInputMetadataSearchInstructions => "query_input_metadata_search_instructions"
    case FileMetadataKeys => "file_metadata_keys"
    case DataArrayKey => "data_array_key"
    case QueryInputColumnFilters => "query_input_column_filters"
    case QuerySortMechanism => "query_sort_mechanism"
    case QueryInputParquetConditions => "query_input_parquet_conditions"
    case DerivedColumns => "derived_columns"
    case ParquetFileDataStats => "parquet_file_data_stats"
    case NonDataColumns => "non_data_columns"
    case QueryStatisticsInstructions => "query_statistics_instructions"
    case PartitioningColumns => "partitioning_columns"
  }

  /** A getter never fails on a constructed setting, and returns the value
      stored under its key, unchanged. */
  function Get(f: FileStructureSetting, k: ConfigKey): (r: Json)
    requires Valid(f)
    ensures f.structureConfig.JObj? && Member(KeyName(k), r) in f.structureConfig.members
  {
    Lookup(f.structureConfig.members, KeyName(k)).value
  }

  // -----------------------------------------------------------------------
  // Data column definitions and data columns.
  // -----------------------------------------------------------------------

  datatype DefinitionsError =
    | MissingDefinitions
    | MissingDataDictKey(key: string)
    | MissingProperties(key: string)
    /** A value that is not of the type the code indexes it as. */
    | Malformed

  /** `get_data_column_definitions`: the `properties` of the definition
      named by `data_dict_key`, or the first of its three errors. */
  function DataColumnDefinitions(f: FileStructureSetting): (r: Result<Json, DefinitionsError>)
    ensures r.Ok? <==>
      && HasKey(f.dataJsonSchema, "definitions")
      && Lookup(f.dataJsonSchema, "definitions").value.JObj?
      && f.structureConfig.JObj?
      && HasKey(f.structureConfig.members, "data_dict_key")
      && Lookup(f.structureConfig.members, "data_dict_key").value.JStr?
      && HasObjectWith(Lookup(f.dataJsonSchema, "definitions").value.members,
                       Lookup(f.structureConfig.members, "data_dict_key").value.s, ["properties"])
    ensures r == Err(MissingDefinitions) <==> !HasKey(f.dataJsonSchema, "definitions")
    ensures r.Ok? ==>
      var defs := Lookup(f.dataJsonSchema, "definitions").value.members;
      var obs := Lookup(defs, Lookup(f.structureConfig.members, "data_dict_key").value.s).value.members;
      Member("properties", r.value) in obs
  {
    var key := if f.structureConfig.JObj? then Lookup(f.structureConfig.members, "data_dict_key") else None;
    match Lookup(f.dataJsonSchema, "definitions")
    case None => Err(MissingDefinitions)
    case Some(defs) =>
      if !defs.JObj? || key.None? || !key.value.JStr? then Err(Malformed)
      else match Lookup(defs.members, key.value.s)
        case None => Err(MissingDataDictKey(key.value.s))
        case Some(obs) =>
          if !obs.JObj? then Err(Malformed)
          else match Lookup(obs.members, "properties")
            case None => Err(MissingProperties(key.value.s))
            case Some(props) => Ok(props)
  }

  /** The list comprehension of `get_data_columns`: keys neither listed as
      non-data nor ending with the quality postfix, in their order. */
  function FilterDataColumns(keys: seq<string>, nonData: seq<string>, postfix: string): (r: seq<string>)
    ensures forall k :: k in r <==> k in keys && k !in nonData && !EndsWith(k, postfix)
    ensures |r| <= |keys|
  {
    if keys == [] then []
    else
      var rest := FilterDataColumns(keys[1..], nonData, postfix);
      assert forall k :: k in keys <==> k == keys[0] || k in keys[1..];
      if keys[0] !in nonData && !EndsWith(keys[0], postfix) then [keys[0]] + rest else rest
  }

  /** The filter keeps order: filtering a concatenation concatenates the
      filtered parts. */
  lemma {:induction false} FilterDataColumnsAppend(a: seq<string>, b: seq<string>, nonData: seq<string>, postfix: string)
    ensures FilterDataColumns(a + b, nonData, postfix)
         == FilterDataColumns(a, nonData, postfix) + FilterDataColumns(b, nonData, postfix)
  {
    if a != [] {
      assert (a + b)[1..] == a[1..] + b;
      FilterDataColumnsAppend(a[1..], b, nonData, postfix);
    } else {
      assert a + b == b;
    }
  }

  /** With an empty postfix every key ends with it: no data columns. */
  lemma EmptyPostfixNoColumns(keys: seq<string>, nonData: seq<string>)
    ensures FilterDataColumns(keys, nonData, "") == []
  {
    var r := FilterDataColumns(keys, nonData, "");
    if r != [] {
      assert r[0] in r;
      assert EndsWith(r[0], "") by { assert r[0][|r[0]|..] == ""; }
    }
  }

  /** The strings of a JSON list, in order: what `k not in` compares a key
      against (a key never equals a non-string item). */
  function StringItems(items: seq<Json>): (r: seq<string>)
    ensures forall s :: s in r <==> JStr(s) in items
  {
    if items == [] then []
    else
      var rest := StringItems(items[1..]);
      assert forall j :: j in items <==> j == items[0] || j in items[1..];
      if items[0].JStr? then [items[0].s] + rest else rest
  }

  /** On a constructed setting `non_data_columns` is a list and
      `quality_key_postfix` a string, so `get_data_columns` can always read
      them. */
  lemma DataColumnSettings(f: FileStructureSetting)
    requires Valid(f)
    ensures Get(f, NonDataColumns).JArr? && Get(f, QualityKeyPostfix).JStr?
  {
    NonDataColumnsIsList(f);
    QualityPostfixIsString(f);
  }

  lemma NonDataColumnsIsList(f: FileStructureSetting)
    requires Valid(f)
    ensures Get(f, NonDataColumns).JArr?
  {
    var j := f.structureConfig;
    assert HasKey(j.members, "non_data_columns") by {
      assert "non_data_columns" in StructureConfig.required;
    }
    assert StructureConfig.properties[5].name == "non_data_columns";
    PropertyValidates(StructureConfig, j, 5);
  }

  lemma QualityPostfixIsString(f: FileStructureSetting)
    requires Valid(f)
    ensures Get(f, QualityKeyPostfix).JStr?
  {
    var p := StructureConfig.properties[2];
    assert p.name == "quality_key_postfix" && p.schema.kind == StringKind;
    PropertyValidates(StructureConfig, f.structureConfig, 2);
  }

  /** `get_data_columns`: the data columns among the property keys, in the
      order of the keys. It fails only where the definitions lookup fails
      or the properties are not a dictionary. */
  function DataColumns(f: FileStructureSetting): (r: Result<seq<string>, DefinitionsError>)
    requires Valid(f)
    ensures DataColumnDefinitions(f).Err? ==> r == Err(DataColumnDefinitions(f).error)
    ensures DataColumnDefinitions(f).Ok? && DataColumnDefinitions(f).value.JObj? ==> r.Ok?
    ensures r.Ok? ==> DataColumnDefinitions(f).Ok? && DataColumnDefinitions(f).value.JObj?
    ensures r.Ok? ==>
      var keys := Keys(DataColumnDefinitions(f).value.members);
      var nonData := Get(f, NonDataColumns);
      var postfix := Get(f, QualityKeyPostfix);
      && nonData.JArr? && postfix.JStr?
      && (forall k :: k in r.value <==>
            k in keys && JStr(k) !in nonData.items && !EndsWith(k, postfix.s))
      && r.value == FilterDataColumns(keys, StringItems(nonData.items), postfix.s)
  {
    DataColumnSettings(f);
    match DataColumnDefinitions(f)
    case Err(e) => Err(e)
    case Ok(defs) =>
      var nonData := Get(f, NonDataColumns);
      var postfix := Get(f, QualityKeyPostfix);
      if !defs.JObj? then Err(Malformed)
      else Ok(FilterDataColumns(Keys(defs.members), StringItems(nonData.items), postfix.s))
  }
}
