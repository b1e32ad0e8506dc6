/** The static tool tables (tool_mappings.py): plugin path to category,
    plugin class to display name, tool name to SQL/dbt hint, category to
    medallion layer and layer to dbt model prefix, with their lookup
    functions. */
module ToolMappings {
  import opened Wrappers
  import opened Text
  import opened Models
  import Dicts

  /** Input Tools */
  const InputPlugins: seq<String> := [
    "AlteryxBasePluginsGui.DbFileInput.DbFileInput",
    "AlteryxBasePluginsGui.TextInput.TextInput",
    "AlteryxBasePluginsGui.MacroInput.MacroInput",
    "AlteryxGuiToolkit.TextBox.TextBox",
    "LiterxPluginsGui.LiterxInput.LiterxInput",
    "AlteryxConnectGui.AzureBlobInput.AzureBlobInput",
    "AlteryxConnectGui.S3Input.S3Input",
    "AlteryxConnectGui.SnowflakeInput.SnowflakeInput",
    "AlteryxConnectGui.BigQueryInput.BigQueryInput",
    "AlteryxConnectGui.RedshiftInput.RedshiftInput",
    "AlteryxBasePluginsGui.DateTime.DateTime",
    "AlteryxBasePluginsGui.GenerateRows.GenerateRows",
    "AlteryxBasePluginsGui.Directory.Directory"]

  /** Output Tools */
  const OutputPlugins: seq<String> := [
    "AlteryxBasePluginsGui.DbFileOutput.DbFileOutput",
    "AlteryxBasePluginsGui.BrowseV2.BrowseV2",
    "AlteryxBasePluginsGui.MacroOutput.MacroOutput",
    "AlteryxConnectGui.AzureBlobOutput.AzureBlobOutput",
    "AlteryxConnectGui.S3Output.S3Output",
    "AlteryxConnectGui.SnowflakeOutput.SnowflakeOutput",
    "AlteryxConnectGui.BigQueryOutput.BigQueryOutput",
    "AlteryxConnectGui.RedshiftOutput.RedshiftOutput"]

  /** Preparation Tools */
  const PreparationPlugins: seq<String> := [
    "AlteryxBasePluginsGui.Filter.Filter",
    "AlteryxBasePluginsGui.Formula.Formula",
    "AlteryxBasePluginsGui.MultiFieldFormula.MultiFieldFormula",
    "AlteryxBasePluginsGui.AlteryxSelect.AlteryxSelect",
    "AlteryxBasePluginsGui.Sort.Sort",
    "AlteryxBasePluginsGui.Sample.Sample",
    "AlteryxBasePluginsGui.Unique.Unique",
    "AlteryxBasePluginsGui.DataCleansing.DataCleansing",
    "AlteryxBasePluginsGui.RecordID.RecordID",
    "AlteryxBasePluginsGui.AutoField.AutoField",
    "AlteryxBasePluginsGui.MultiRowFormula.MultiRowFormula",
    "AlteryxBasePluginsGui.FindReplace.FindReplace",
    "AlteryxBasePluginsGui.Imputation.Imputation",
    "AlteryxBasePluginsGui.RandomSample.Random%Sample",
    "AlteryxBasePluginsGui.SelectRecords.SelectRecords",
    "AlteryxBasePluginsGui.Tile.Tile"]

  /** Join Tools */
  const JoinPlugins: seq<String> := [
    "AlteryxBasePluginsGui.Join.Join",
    "AlteryxBasePluginsGui.Union.Union",
    "AlteryxBasePluginsGui.AppendFields.AppendFields",
    "AlteryxBasePluginsGui.JoinMultiple.JoinMultiple",
    "AlteryxBasePluginsGui.FindReplace.FindReplace",
    "AlteryxBasePluginsGui.MakeGroup.MakeGroup",
    "AlteryxSpatialPluginsGui.SpatialMatch.SpatialMatch",
    "AlteryxBasePluginsGui.Fuzzy.Fuzzy"]

  /** Transform Tools */
  const TransformPlugins: seq<String> := [
    "AlteryxBasePluginsGui.Summarize.Summarize",
    "AlteryxBasePluginsGui.Transpose.Transpose",
    "AlteryxBasePluginsGui.CrossTab.CrossTab",
    "AlteryxBasePluginsGui.CountRecords.CountRecords",
    "AlteryxBasePluginsGui.RunningTotal.RunningTotal",
    "AlteryxBasePluginsGui.WeightedAverage.WeightedAverage",
    "AlteryxBasePluginsGui.Arrange.Arrange"]

  /** Parse Tools */
  const ParsePlugins: seq<String> := [
    "AlteryxBasePluginsGui.RegEx.RegEx",
    "AlteryxBasePluginsGui.TextToColumns.TextToColumns",
    "AlteryxBasePluginsGui.XMLParse.XMLParse",
    "AlteryxBasePluginsGui.JSONParse.JSONParse",
    "AlteryxBasePluginsGui.DateTimeParse.DateTimeParse",
    "AlteryxBasePluginsGui.Dynamic.Dynamic"]

  /** In-Database Tools */
  const InDatabasePlugins: seq<String> := [
    "AlteryxBasePluginsGui.DbFileInputInDB.DbFileInputInDB",
    "AlteryxBasePluginsGui.DbFileOutputInDB.DbFileOutputInDB",
    "AlteryxBasePluginsGui.FilterInDB.FilterInDB",
    "AlteryxBasePluginsGui.FormulaInDB.FormulaInDB",
    "AlteryxBasePluginsGui.JoinInDB.JoinInDB",
    "AlteryxBasePluginsGui.SelectInDB.SelectInDB",
    "AlteryxBasePluginsGui.SummarizeInDB.SummarizeInDB",
    "AlteryxBasePluginsGui.UnionInDB.UnionInDB",
    "AlteryxBasePluginsGui.DataStreamIn.DataStreamIn",
    "AlteryxBasePluginsGui.DataStreamOut.DataStreamOut"]

  /** Reporting Tools */
  const ReportingPlugins: seq<String> := [
    "AlteryxBasePluginsGui.Render.Render",
    "AlteryxBasePluginsGui.Email.Email",
    "AlteryxBasePluginsGui.Layout.Layout",
    "AlteryxBasePluginsGui.Table.Table",
    "AlteryxBasePluginsGui.Image.Image",
    "AlteryxBasePluginsGui.ReportText.ReportText",
    "AlteryxBasePluginsGui.InteractiveChart.InteractiveChart"]

  /** Developer Tools */
  const DeveloperPlugins: seq<String> := [
    "AlteryxBasePluginsGui.RunCommand.RunCommand",
    "AlteryxBasePluginsGui.AlteryxRun.AlteryxRun",
    "AlteryxBasePluginsGui.ControlParameter.ControlParameter",
    "AlteryxBasePluginsGui.Detour.Detour",
    "AlteryxBasePluginsGui.DetourEnd.DetourEnd",
    "AlteryxBasePluginsGui.Message.Message",
    "AlteryxBasePluginsGui.Test.Test",
    "AlteryxBasePluginsGui.Block.BlockUntilDone"]

  /** Tool Containers (organization only - not data processing) */
  const ContainerPlugins: seq<String> := [
    "AlteryxGuiToolkit.ToolContainer.ToolContainer",
    "AlteryxBasePluginsGui.ControlContainer.ControlContainer"]

  /** `PLUGIN_CATEGORY_MAP`, in source order, group by group; the FindReplace
      plugin is listed twice, first as a preparation tool and then as a join
      tool. */
  const PluginCategoryMap: seq<(String, ToolCategory)> := Dicts.Flatten(PluginCategoryGroups)

  const PluginCategoryGroups: seq<seq<(String, ToolCategory)>> := [
    Dicts.Entries(InputPlugins, ToolCategory.Input),
    Dicts.Entries(OutputPlugins, ToolCategory.Output),
    Dicts.Entries(PreparationPlugins, ToolCategory.Preparation),
    Dicts.Entries(JoinPlugins, ToolCategory.Join),
    Dicts.Entries(TransformPlugins, ToolCategory.Transform),
    Dicts.Entries(ParsePlugins, ToolCategory.Parse),
    Dicts.Entries(InDatabasePlugins, ToolCategory.InDatabase),
    Dicts.Entries(ReportingPlugins, ToolCategory.Reporting),
    Dicts.Entries(DeveloperPlugins, ToolCategory.Developer),
    Dicts.Entries(ContainerPlugins, ToolCategory.Container)]

  /** Input */
  const InputNames: seq<(String, String)> := [
    ("DbFileInput", "Input Data"),
    ("TextInput", "Text Input"),
    ("MacroInput", "Macro Input"),
    ("Directory", "Directory"),
    ("GenerateRows", "Generate Rows"),
    ("DateTime", "Date Time")]

  /** Output */
  const OutputNames: seq<(String, String)> := [
    ("DbFileOutput", "Output Data"),
    ("BrowseV2", "Browse"),
    ("MacroOutput", "Macro Output")]

  /** Preparation */
  const PreparationNames: seq<(String, String)> := [
    ("Filter", "Filter"),
    ("Formula", "Formula"),
    ("MultiFieldFormula", "Multi-Field Formula"),
    ("AlteryxSelect", "Select"),
    ("Sort", "Sort"),
    ("Sample", "Sample"),
    ("Unique", "Unique"),
    ("DataCleansing", "Data Cleansing"),
    ("RecordID", "Record ID"),
    ("AutoField", "Auto Field"),
    ("MultiRowFormula", "Multi-Row Formula"),
    ("FindReplace", "Find Replace"),
    ("Imputation", "Imputation"),
    ("SelectRecords", "Select Records"),
    ("Tile", "Tile")]

  /** Join */
  const JoinNames: seq<(String, String)> := [
    ("Join", "Join"),
    ("Union", "Union"),
    ("AppendFields", "Append Fields"),
    ("JoinMultiple", "Join Multiple"),
    ("MakeGroup", "Make Group"),
    ("Fuzzy", "Fuzzy Match")]

  /** Transform */
  const TransformNames: seq<(String, String)> := [
    ("Summarize", "Summarize"),
    ("Transpose", "Transpose"),
    ("CrossTab", "Cross Tab"),
    ("CountRecords", "Count Records"),
    ("RunningTotal", "Running Total"),
    ("WeightedAverage", "Weighted Average"),
    ("Arrange", "Arrange")]

  /** Parse */
  const ParseNames: seq<(String, String)> := [
    ("RegEx", "RegEx"),
    ("TextToColumns", "Text To Columns"),
    ("XMLParse", "XML Parse"),
    ("JSONParse", "JSON Parse"),
    ("DateTimeParse", "DateTime Parse"),
    ("Dynamic", "Dynamic Input/Output")]

  /** In-Database */
  const InDatabaseNames: seq<(String, String)> := [
    ("DbFileInputInDB", "Input In-DB"),
    ("DbFileOutputInDB", "Output In-DB"),
    ("FilterInDB", "Filter In-DB"),
    ("FormulaInDB", "Formula In-DB"),
    ("JoinInDB", "Join In-DB"),
    ("SelectInDB", "Select In-DB"),
    ("SummarizeInDB", "Summarize In-DB"),
    ("UnionInDB", "Union In-DB"),
    ("DataStreamIn", "Data Stream In"),
    ("DataStreamOut", "Data Stream Out")]

  /** Reporting */
  const ReportingNames: seq<(String, String)> := [
    ("Render", "Render"),
    ("Email", "Email"),
    ("Layout", "Layout"),
    ("Table", "Table"),
    ("Image", "Image"),
    ("ReportText", "Report Text"),
    ("InteractiveChart", "Interactive Chart")]

  /** Developer */
  const DeveloperNames: seq<(String, String)> := [
    ("RunCommand", "Run Command"),
    ("AlteryxRun", "Run Alteryx Workflow"),
    ("ControlParameter", "Control Parameter"),
    ("Detour", "Detour"),
    ("DetourEnd", "Detour End"),
    ("Message", "Message"),
    ("Test", "Test"),
    ("BlockUntilDone", "Block Until Done")]

  /** Containers */
  const ContainerNames: seq<(String, String)> := [
    ("ToolContainer", "Tool Container"),
    ("ControlContainer", "Control Container")]

  /** `PLUGIN_NAME_MAP`, in source order, group by group. */
  const PluginNameMap: seq<(String, String)> := Dicts.Flatten(PluginNameGroups)

  const PluginNameGroups: seq<seq<(String, String)>> := [
    InputNames,
    OutputNames,
    PreparationNames,
    JoinNames,
    TransformNames,
    ParseNames,
    InDatabaseNames,
    ReportingNames,
    DeveloperNames,
    ContainerNames]

  /** One value of `SQL_MAPPING`; the keys `macro`, `macro_file` and `trino`
      are not present in every entry. */
  datatype SqlEntry = SqlEntry(
    sql: String, dbt: String, macro: Option<String>, macroFile: Option<String>,
    trino: Option<String>, description: String)

  /** `SQL_MAPPING` */
  const SqlMapping: seq<(String, SqlEntry)> := [
    ("Input Data", SqlEntry("SELECT * FROM {catalog}.{schema}.{table}", "{{ source('schema', 'table') }}", None, None, Some("SELECT * FROM catalog.schema.table"), "Data source reference")),
    ("Filter", SqlEntry("WHERE {condition}", "{{ filter_expression(relation, condition) }}", Some("filter_expression"), Some("filter_helpers"), Some("WHERE condition"), "Filter rows based on condition")),
    ("Formula", SqlEntry("SELECT *, {expression} AS {new_field} FROM ...", "{{ add_calculated_column(relation, column_name, expression) }}", Some("add_calculated_column"), Some("formula_helpers"), Some("SELECT *, expression AS new_field"), "Calculate new fields or modify existing")),
    ("Multi-Field Formula", SqlEntry("SELECT *, {expression} AS {field1}, ... FROM ...", "{{ add_multiple_columns(relation, columns) }}", Some("add_multiple_columns"), Some("formula_helpers"), Some("SELECT *, expr1 AS field1, expr2 AS field2"), "Apply formula across multiple fields")),
    ("Select", SqlEntry("SELECT {columns} FROM ...", "{{ select_columns(relation, columns) }}", Some("select_columns"), Some("select_transform"), Some("SELECT col1, col2 AS alias"), "Select, rename, or reorder columns")),
    ("Sort", SqlEntry("ORDER BY {columns}", "{{ sort_data(relation, order_by) }}", Some("sort_data"), Some("select_transform"), Some("ORDER BY column ASC|DESC NULLS FIRST|LAST"), "Sort data by columns")),
    ("Join", SqlEntry("{join_type} JOIN {right_table} ON {condition}", "{{ left_join(left_relation, right_relation, join_columns) }}", Some("left_join"), Some("join_union"), Some("LEFT|RIGHT|INNER|FULL JOIN table ON condition"), "Join two datasets")),
    ("Union", SqlEntry("UNION ALL", "{{ union_all(relations) }}", Some("union_all"), Some("join_union"), Some("SELECT ... UNION ALL SELECT ..."), "Stack datasets vertically")),
    ("Append Fields", SqlEntry("CROSS JOIN", "{{ cross_join(left_relation, right_relation) }}", Some("cross_join"), Some("join_union"), Some("CROSS JOIN table"), "Cartesian join (append all fields)")),
    ("Summarize", SqlEntry("SELECT {group_by}, {aggregations} FROM ... GROUP BY {group_by}", "{{ summarize(relation, group_by, agg_fields) }}", Some("summarize"), Some("aggregation"), Some("SELECT col, SUM(x), COUNT(*) FROM t GROUP BY col"), "Aggregate data with GROUP BY")),
    ("Transpose", SqlEntry("CROSS JOIN UNNEST(...)", "{{ unpivot(relation, id_cols, value_cols) }}", Some("unpivot"), Some("pivot"), Some("SELECT id, key, value FROM t CROSS JOIN UNNEST(ARRAY['a','b'], ARRAY[col_a, col_b]) AS x(key, value)"), "Convert columns to rows (Trino UNNEST)")),
    ("Cross Tab", SqlEntry("Conditional aggregation with CASE WHEN", "{{ pivot(relation, id_cols, pivot_col, value_col) }}", Some("pivot"), Some("pivot"), Some("SELECT id, SUM(CASE WHEN cat='A' THEN val END) AS a, SUM(CASE WHEN cat='B' THEN val END) AS b FROM t GROUP BY id"), "Convert rows to columns (pivot via conditional aggregation)")),
    ("Unique", SqlEntry("SELECT DISTINCT ... or ROW_NUMBER() OVER (...)", "{{ deduplicate(relation, partition_by, order_by) }}", Some("deduplicate"), Some("deduplicate"), Some("SELECT DISTINCT col1, col2 FROM t -- or use ROW_NUMBER() OVER (PARTITION BY key ORDER BY col) = 1"), "Remove duplicates")),
    ("Sample", SqlEntry("LIMIT {n} or TABLESAMPLE", "{{ sample_first_n(relation, n) }}", Some("sample_first_n"), Some("sample_limit"), Some("SELECT * FROM t TABLESAMPLE BERNOULLI(10) -- 10% sample, or use LIMIT n"), "Sample subset of data")),
    ("Record ID", SqlEntry("ROW_NUMBER() OVER (ORDER BY ...)", "{{ generate_record_id(relation) }}", Some("generate_record_id"), Some("generate_surrogate_key"), Some("ROW_NUMBER() OVER (ORDER BY column) AS row_id"), "Add sequential row numbers")),
    ("Multi-Row Formula", SqlEntry("LAG() / LEAD() window functions", "{{ lag_lead(relation, column_name, offset, partition_by, order_by) }}", Some("lag_lead"), Some("window_rank"), Some("LAG(value, 1) OVER (PARTITION BY group ORDER BY date) AS prev_value"), "Reference previous/next rows")),
    ("Running Total", SqlEntry("SUM() OVER (ORDER BY ... ROWS UNBOUNDED PRECEDING)", "{{ running_total(relation, column_name, partition_by, order_by) }}", Some("running_total"), Some("running_total"), Some("SUM(amount) OVER (PARTITION BY customer ORDER BY date ROWS UNBOUNDED PRECEDING) AS running_total"), "Cumulative sum")),
    ("RegEx", SqlEntry("REGEXP_EXTRACT(), REGEXP_REPLACE()", "{{ regex_extract(relation, column_name, pattern) }}", Some("regex_extract"), Some("regex_functions"), Some("REGEXP_EXTRACT(string, pattern, group), REGEXP_REPLACE(string, pattern, replacement)"), "Regular expression operations (Trino syntax)")),
    ("Text To Columns", SqlEntry("SPLIT() with UNNEST()", "{{ split_to_columns(relation, column_name, delimiter) }}", Some("split_to_columns"), Some("split_unnest"), Some("SELECT id, part FROM t CROSS JOIN UNNEST(SPLIT(text_col, ',')) AS x(part)"), "Split text into multiple rows (Trino UNNEST)")),
    ("Data Cleansing", SqlEntry("TRIM(), COALESCE(), NULLIF()", "{{ clean_string(relation, column_name) }}", Some("clean_string"), Some("null_if_empty"), Some("TRIM(col), COALESCE(col, 'default'), NULLIF(col, ''), LOWER(col), UPPER(col)"), "Clean and standardize data")),
    ("Find Replace", SqlEntry("REPLACE(), CASE WHEN", "{{ find_replace_simple(relation, column_name, find_text, replace_text) }}", Some("find_replace_simple"), Some("find_replace"), Some("REPLACE(string, search, replacement), TRANSLATE(string, from, to)"), "Find and replace values")),
    ("Count Records", SqlEntry("SELECT COUNT(*)", "{{ count_records(relation) }}", Some("count_records"), Some("aggregation"), Some("SELECT COUNT(*) AS record_count FROM table"), "Count number of records")),
    ("Browse", SqlEntry("-- Output/visualization", "-- Final output (no SQL needed)", None, None, Some("-- Preview only, no Trino equivalent"), "View data output")),
    ("Output Data", SqlEntry("CREATE TABLE AS SELECT or INSERT INTO", "{{ config(materialized='table') }}", None, None, Some("CREATE TABLE catalog.schema.table AS SELECT ... -- or INSERT INTO"), "Write to destination"))]

  /** `MEDALLION_LAYER_MAP`: containers map to no layer; SPATIAL, PREDICTIVE
      and DEVELOPER are not listed. */
  const MedallionLayerMap: seq<(ToolCategory, Option<MedallionLayer>)> := [
    (ToolCategory.Input, Some(MedallionLayer.Bronze)),
    (ToolCategory.Output, Some(MedallionLayer.Gold)),
    (ToolCategory.Preparation, Some(MedallionLayer.Silver)),
    (ToolCategory.Join, Some(MedallionLayer.Silver)),
    (ToolCategory.Transform, Some(MedallionLayer.Silver)),
    (ToolCategory.Parse, Some(MedallionLayer.Bronze)),
    (ToolCategory.InDatabase, Some(MedallionLayer.Silver)),
    (ToolCategory.Reporting, Some(MedallionLayer.Gold)),
    (ToolCategory.Macro, Some(MedallionLayer.Silver)),
    (ToolCategory.Container, None),
    (ToolCategory.Unknown, Some(MedallionLayer.Silver))]

  /** `DBT_PREFIX_MAP` */
  const DbtPrefixMap: seq<(MedallionLayer, String)> := [
    (MedallionLayer.Bronze, "stg_"),
    (MedallionLayer.Silver, "int_"),
    (MedallionLayer.Gold, "fct_")]

  /** `AGGREGATION_MAP`: the SQL aggregate for an Alteryx Summarize action.
      `COUNT(DISTINCT` is left open: its field and `)` follow. */
  const AggregationMap: seq<(String, String)> := [
    ("Sum", "SUM"),
    ("Count", "COUNT"),
    ("CountDistinct", "COUNT(DISTINCT"),
    ("Min", "MIN"),
    ("Max", "MAX"),
    ("Avg", "AVG"),
    ("First", "FIRST_VALUE"),
    ("Last", "LAST_VALUE"),
    ("Concat", "STRING_AGG"),
    ("CountNonNull", "COUNT"),
    ("CountNull", "SUM(CASE WHEN {field} IS NULL THEN 1 ELSE 0 END)"),
    ("StdDev", "STDDEV"),
    ("Variance", "VARIANCE"),
    ("Median", "PERCENTILE_CONT(0.5)")]

  /** `get_category_from_plugin`: the listed category (the last one listed
      for a repeated key), UNKNOWN for an unlisted plugin. */
  function CategoryFromPlugin(plugin: String): (c: ToolCategory)
    ensures !Dicts.HasKey(PluginCategoryMap, plugin) ==> c == Unknown
    ensures Dicts.HasKey(PluginCategoryMap, plugin) ==>
      exists i :: 0 <= i < |PluginCategoryMap| && PluginCategoryMap[i] == (plugin, c)
                  && forall j :: i < j < |PluginCategoryMap| ==> PluginCategoryMap[j].0 != plugin
  {
    Dicts.GetOr(PluginCategoryMap, plugin, Unknown)
  }

  /** The repeated FindReplace key resolves to its later entry, JOIN. */
  lemma FindReplaceIsJoin(k: String)
    requires k == "AlteryxBasePluginsGui.FindReplace.FindReplace"
    ensures CategoryFromPlugin(k) == ToolCategory.Join
  {
    FindReplaceListed(k);
    FindReplaceNotAfterJoin(k);
    LastListedAsJoin(k);
  }

  /** The FindReplace plugin is listed among the preparation tools and
      again among the join tools. */
  lemma FindReplaceListed(k: String)
    requires k == "AlteryxBasePluginsGui.FindReplace.FindReplace"
    ensures k in PreparationPlugins && k in JoinPlugins
  {
  }

  /** No group after the join tools lists the FindReplace plugin. */
  lemma FindReplaceNotAfterJoin(k: String)
    requires k == "AlteryxBasePluginsGui.FindReplace.FindReplace"
    ensures k !in TransformPlugins && k !in ParsePlugins && k !in InDatabasePlugins && k !in ReportingPlugins && k !in DeveloperPlugins && k !in ContainerPlugins
  {
  }

  /** A plugin listed among the join tools and in no later group is a join tool. */
  lemma LastListedAsJoin(k: String)
    requires k in JoinPlugins
    requires k !in TransformPlugins && k !in ParsePlugins && k !in InDatabasePlugins && k !in ReportingPlugins && k !in DeveloperPlugins && k !in ContainerPlugins
    ensures CategoryFromPlugin(k) == ToolCategory.Join
  {
    Dicts.GetEntries(JoinPlugins, ToolCategory.Join, k);
    Dicts.GetEntries(TransformPlugins, ToolCategory.Transform, k);
    Dicts.GetEntries(ParsePlugins, ToolCategory.Parse, k);
    Dicts.GetEntries(InDatabasePlugins, ToolCategory.InDatabase, k);
    Dicts.GetEntries(ReportingPlugins, ToolCategory.Reporting, k);
    Dicts.GetEntries(DeveloperPlugins, ToolCategory.Developer, k);
    Dicts.GetEntries(ContainerPlugins, ToolCategory.Container, k);
    Dicts.GetFlatten(PluginCategoryGroups, k, 3);
  }

  /** The text after the last '.', or all of s when it has none. */
  function AfterLastDot(s: String): (r: String)
    ensures '.' !in r && |r| <= |s|
  {
    if s == [] then []
    else if s[|s| - 1] == '.' then []
    else AfterLastDot(s[..|s| - 1]) + [s[|s| - 1]]
  }

  /** It is a suffix of s, preceded by a dot when shorter than s. */
  lemma {:induction false} AfterLastDotSuffix(s: String)
    ensures var r := AfterLastDot(s);
      && r == s[|s| - |r|..]
      && (|r| < |s| ==> s[|s| - |r| - 1] == '.')
    decreases |s|
  {
    if s != [] && s[|s| - 1] != '.' {
      var init := s[..|s| - 1];
      AfterLastDotSuffix(init);
      var r' := AfterLastDot(init);
      assert init[|init| - |r'|..] == s[|s| - 1 - |r'|..|s| - 1];
    }
  }

  /** The text after the last '.' is the last piece of `split('.')`. */
  lemma {:induction false} LastPieceIsAfterLastDot(s: String)
    ensures var parts := Split(s, '.'); parts[|parts| - 1] == AfterLastDot(s)
    decreases |s|
  {
    if '.' in s {
      var i := IndexOfChar(s, '.');
      var rest := Split(s[i + 1..], '.');
      var parts := Split(s, '.');
      assert parts == [s[..i]] + rest;
      assert parts[|parts| - 1] == rest[|rest| - 1];
      LastPieceIsAfterLastDot(s[i + 1..]);
      AfterLastDotOfSuffix(s, i + 1);
    } else {
      AfterLastDotNoDot(s);
    }
  }

  /** A text without a dot is its own text after the last dot. */
  lemma {:induction false} AfterLastDotNoDot(s: String)
    requires '.' !in s
    ensures AfterLastDot(s) == s
    decreases |s|
  {
    if s != [] {
      AfterLastDotNoDot(s[..|s| - 1]);
      assert s == s[..|s| - 1] + [s[|s| - 1]];
    }
  }

  /** Cutting s after one of its dots leaves the text after the last dot unchanged. */
  lemma {:induction false} AfterLastDotOfSuffix(s: String, k: nat)
    requires 0 < k <= |s| && s[k - 1] == '.'
    ensures AfterLastDot(s[k..]) == AfterLastDot(s)
    decreases |s|
  {
    if k < |s| && s[|s| - 1] != '.' {
      AfterLastDotOfSuffix(s[..|s| - 1], k);
      assert s[..|s| - 1][k..] == s[k..][..|s[k..]| - 1];
    }
  }

  /** A plugin path made of a prefix, a dot and a dot-free class name. */
  lemma {:induction false} AfterLastDotOfPath(prefix: String, name: String)
    requires '.' !in name
    ensures AfterLastDot(prefix + "." + name) == name
    decreases |name|
  {
    var s := prefix + "." + name;
    if name != [] {
      var init := name[..|name| - 1];
      assert s[..|s| - 1] == prefix + "." + init;
      assert s[|s| - 1] == name[|name| - 1];
      AfterLastDotOfPath(prefix, init);
      assert name == init + [name[|name| - 1]];
    }
  }

  /** `get_simple_name`: "Unknown" for the empty path; otherwise the class
      name after the last dot, mapped through `PLUGIN_NAME_MAP` when listed
      there and kept as it is otherwise. */
  function SimpleName(plugin: String): (r: String)
    ensures plugin == [] ==> r == "Unknown"
    ensures plugin != [] ==>
      var tool := AfterLastDot(plugin);
      (Dicts.HasKey(PluginNameMap, tool) ==> Dicts.Get(PluginNameMap, tool) == Some(r))
      && (!Dicts.HasKey(PluginNameMap, tool) ==> r == tool)
  {
    if plugin == [] then "Unknown"
    else
      var parts := Split(plugin, '.');
      LastPieceIsAfterLastDot(plugin);
      if |parts| >= 2 then
        var tool := parts[|parts| - 1];
        Dicts.GetOr(PluginNameMap, tool, tool)
      else
        Dicts.GetOr(PluginNameMap, plugin, plugin)
  }

  /** The Select tool's plugin path has the display name "Select". */
  lemma SelectSimpleName(plugin: String)
    requires plugin == "AlteryxBasePluginsGui.AlteryxSelect.AlteryxSelect"
    ensures SimpleName(plugin) == "Select"
  {
    AfterLastDotOfPath("AlteryxBasePluginsGui.AlteryxSelect", "AlteryxSelect");
    assert "AlteryxBasePluginsGui.AlteryxSelect" + "." + "AlteryxSelect" == plugin;
    SelectDisplayName("AlteryxSelect");
  }

  /** The AlteryxSelect class is listed once, among the preparation tools, as "Select". */
  lemma SelectDisplayName(k: String)
    requires k == "AlteryxSelect"
    ensures Dicts.Get(PluginNameMap, k) == Some("Select")
  {
    SelectAmongPreparation(k);
    SelectInNoLaterGroup(k);
    Dicts.GetFlatten(PluginNameGroups, k, 2);
  }

  /** The preparation names list AlteryxSelect once, as "Select". */
  lemma SelectAmongPreparation(k: String)
    requires k == "AlteryxSelect"
    ensures PluginNameGroups[2] == PreparationNames
    ensures Dicts.Get(PreparationNames, k) == Some("Select")
  {
    assert PreparationNames[3].0 == k && PreparationNames[3].1 == "Select";
    assert forall j :: 3 < j < |PreparationNames| ==> PreparationNames[j].0 != k;
  }

  /** No group after the preparation names lists AlteryxSelect. */
  lemma SelectInNoLaterGroup(k: String)
    requires k == "AlteryxSelect"
    ensures forall g :: 2 < g < |PluginNameGroups| ==> !Dicts.HasKey(PluginNameGroups[g], k)
  {
    assert forall g, j :: 2 < g < |PluginNameGroups| && 0 <= j < |PluginNameGroups[g]| ==> PluginNameGroups[g][j].0 != k;
  }

  /** `get_sql_mapping`: the listed entry, or a placeholder saying that there
      is no direct mapping for the tool. */
  function SqlMappingFor(tool: String): (r: SqlEntry)
    ensures Dicts.HasKey(SqlMapping, tool) ==> Dicts.Get(SqlMapping, tool) == Some(r)
    ensures !Dicts.HasKey(SqlMapping, tool) ==>
      r.sql == "-- Custom logic required" && r.dbt == "-- Custom logic required"
      && r.description == "No direct mapping for " + tool
      && r.macro.None? && r.macroFile.None? && r.trino.None?
  {
    Dicts.GetOr(SqlMapping, tool, NoMapping(tool))
  }

  /** The placeholder entry for a tool with no mapping. */
  function NoMapping(tool: String): SqlEntry {
    SqlEntry("-- Custom logic required", "-- Custom logic required", None, None, None,
             "No direct mapping for " + tool)
  }

  /** `get_medallion_layer`: GOLD for a final output, otherwise the table's
      layer, SILVER for an unlisted category; a container gets no layer. */
  function MedallionLayerFor(c: ToolCategory, isFinalOutput: bool): (r: Option<MedallionLayer>)
    ensures isFinalOutput ==> r == Some(Gold)
    ensures !isFinalOutput && !Dicts.HasKey(MedallionLayerMap, c) ==> r == Some(Silver)
    ensures !isFinalOutput && Dicts.HasKey(MedallionLayerMap, c) ==> Dicts.Get(MedallionLayerMap, c) == Some(r)
  {
    if isFinalOutput then Some(Gold)
    else Dicts.GetOr(MedallionLayerMap, c, Some(Silver))
  }

  /** The layer of every category that is not a final output. */
  function CategoryLayer(c: ToolCategory): Option<MedallionLayer> {
    match c
    case Input | Parse => Some(Bronze)
    case Output | Reporting => Some(Gold)
    case Container => None
    case _ => Some(Silver)
  }

  /** The medallion table, category by category: INPUT and PARSE are bronze,
      OUTPUT and REPORTING gold, CONTAINER has no layer and every other
      category, listed or not, is silver. */
  lemma MedallionLayerTable(c: ToolCategory)
    ensures MedallionLayerFor(c, false) == CategoryLayer(c)
  {
    match c {
      case Input | Output | Preparation => MedallionLayerFirstRows(c);
      case Join | Transform | Parse => MedallionLayerMiddleRows(c);
      case InDatabase | Reporting | Macro | Container | Unknown => MedallionLayerLastRows(c);
      case Spatial | Predictive | Developer => MedallionLayerUnlisted(c);
    }
  }

  lemma MedallionLayerFirstRows(c: ToolCategory)
    requires c in {Input, Output, Preparation}
    ensures MedallionLayerFor(c, false) == CategoryLayer(c)
  {
    var t := MedallionLayerMap;
    match c {
      case Input => assert t[0] == (c, Some(Bronze));
      case Output => assert t[1] == (c, Some(Gold));
      case Preparation => assert t[2] == (c, Some(Silver));
    }
  }

  lemma MedallionLayerMiddleRows(c: ToolCategory)
    requires c in {Join, Transform, Parse}
    ensures MedallionLayerFor(c, false) == CategoryLayer(c)
  {
    var t := MedallionLayerMap;
    match c {
      case Join => assert t[3] == (c, Some(Silver));
      case Transform => assert t[4] == (c, Some(Silver));
      case Parse => assert t[5] == (c, Some(Bronze));
    }
  }

  lemma MedallionLayerLastRows(c: ToolCategory)
    requires c in {InDatabase, Reporting, Macro, Container, Unknown}
    ensures MedallionLayerFor(c, false) == CategoryLayer(c)
  {
    var t := MedallionLayerMap;
    match c {
      case InDatabase => assert t[6] == (c, Some(Silver));
      case Reporting => assert t[7] == (c, Some(Gold));
      case Macro => assert t[8] == (c, Some(Silver));
      case Container => assert t[9] == (c, None);
      case Unknown => assert t[10] == (c, Some(Silver));
    }
  }

  lemma MedallionLayerUnlisted(c: ToolCategory)
    requires c in {Spatial, Predictive, Developer}
    ensures MedallionLayerFor(c, false) == CategoryLayer(c)
  {
    assert !Dicts.HasKey(MedallionLayerMap, c);
  }

  /** `get_dbt_prefix` */
  function DbtPrefix(layer: MedallionLayer): (r: String)
    ensures Dicts.HasKey(DbtPrefixMap, layer) ==> Dicts.Get(DbtPrefixMap, layer) == Some(r)
    ensures !Dicts.HasKey(DbtPrefixMap, layer) ==> r == "int_"
  {
    Dicts.GetOr(DbtPrefixMap, layer, "int_")
  }

  /** Bronze models are staging (`stg_`), silver intermediate (`int_`) and
      gold facts (`fct_`); the three prefixes differ. */
  lemma DbtPrefixes()
    ensures DbtPrefix(Bronze) == "stg_" && DbtPrefix(Silver) == "int_" && DbtPrefix(Gold) == "fct_"
  {
    assert DbtPrefixMap[0] == (Bronze, "stg_");
    assert DbtPrefixMap[1] == (Silver, "int_");
    assert DbtPrefixMap[2] == (Gold, "fct_");
  }
}
