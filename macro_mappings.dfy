/** The tool-to-dbt-macro table (macro_mappings.py) and the lookups over it:
    choosing the macro for a tool, with per-tool alternates chosen by a
    context, listing the macro files, and listing the tools of one file. */
module MacroMappings {
  import opened Wrappers
  import opened Text
  import Dicts
  import Seqs

  /** One value of `TOOL_MACRO_MAP`. Every entry names its macro, its macro
      file and whether it needs a relation; the other flags are absent
      (false here) unless set to true. */
  datatype MacroInfo = MacroInfo(
    macro: String,
    macroFile: String,
    description: String,
    paramMapping: seq<(String, String)>,
    requiresRelation: bool,
    requiresRightRelation: bool,
    multiColumn: bool,
    multiRelation: bool,
    alternates: Option<seq<(String, String)>>)

  const FilterMacro := MacroInfo(
    "filter_expression", "filter_helpers",
    "Filter rows based on condition",
    [("expression", "condition")],
    requiresRelation := true, requiresRightRelation := false, multiColumn := false, multiRelation := false,
    alternates := None)

  const FormulaMacro := MacroInfo(
    "add_calculated_column", "formula_helpers",
    "Add calculated columns with expressions",
    [("formulas", "columns_to_add")],
    requiresRelation := true, requiresRightRelation := false, multiColumn := true, multiRelation := false,
    alternates := None)

  const MultiFieldFormulaMacro := MacroInfo(
    "add_multiple_columns", "formula_helpers",
    "Add multiple calculated columns",
    [("formulas", "columns")],
    requiresRelation := true, requiresRightRelation := false, multiColumn := false, multiRelation := false,
    alternates := None)

  const SelectMacro := MacroInfo(
    "select_columns", "select_transform",
    "Select and optionally rename columns",
    [("selected_fields", "columns")],
    requiresRelation := true, requiresRightRelation := false, multiColumn := false, multiRelation := false,
    alternates := None)

  const SortMacro := MacroInfo(
    "sort_data", "select_transform",
    "Sort data by columns",
    [("sort_fields", "order_by")],
    requiresRelation := true, requiresRightRelation := false, multiColumn := false, multiRelation := false,
    alternates := None)

  const SampleMacro := MacroInfo(
    "sample_first_n", "sample_limit",
    "Sample first N records",
    [("sample_size", "n")],
    requiresRelation := true, requiresRightRelation := false, multiColumn := false, multiRelation := false,
    alternates := Some([("random", "sample_random_n"), ("percent", "sample_random_percent")]))

  const UniqueMacro := MacroInfo(
    "deduplicate", "deduplicate",
    "Remove duplicate records",
    [("selected_fields", "partition_by")],
    requiresRelation := true, requiresRightRelation := false, multiColumn := false, multiRelation := false,
    alternates := None)

  const DataCleansingMacro := MacroInfo(
    "clean_string", "null_if_empty",
    "Clean and standardize string data",
    [("column", "column_name")],
    requiresRelation := true, requiresRightRelation := false, multiColumn := false, multiRelation := false,
    alternates := None)

  const RecordIDMacro := MacroInfo(
    "generate_record_id", "generate_surrogate_key",
    "Add sequential record IDs",
    [],
    requiresRelation := true, requiresRightRelation := false, multiColumn := false, multiRelation := false,
    alternates := None)

  const AutoFieldMacro := MacroInfo(
    "auto_type_columns", "select_transform",
    "Automatically detect and set field types",
    [],
    requiresRelation := true, requiresRightRelation := false, multiColumn := false, multiRelation := false,
    alternates := None)

  const MultiRowFormulaMacro := MacroInfo(
    "lag_lead", "window_rank",
    "Reference previous/next rows",
    [("expression", "expression"), ("num_rows", "offset")],
    requiresRelation := true, requiresRightRelation := false, multiColumn := false, multiRelation := false,
    alternates := None)

  const FindReplaceMacro := MacroInfo(
    "find_replace_simple", "find_replace",
    "Find and replace values",
    [("column", "column_name"), ("find_value", "find_text"), ("replace_value", "replace_text")],
    requiresRelation := true, requiresRightRelation := false, multiColumn := false, multiRelation := false,
    alternates := None)

  const ImputationMacro := MacroInfo(
    "impute_with_value", "imputation",
    "Fill missing values",
    [("column", "column_name"), ("fill_value", "fill_value")],
    requiresRelation := true, requiresRightRelation := false, multiColumn := false, multiRelation := false,
    alternates := None)

  const SelectRecordsMacro := MacroInfo(
    "select_records_by_range", "sample_limit",
    "Select specific record ranges",
    [("start_row", "start_index"), ("end_row", "end_index")],
    requiresRelation := true, requiresRightRelation := false, multiColumn := false, multiRelation := false,
    alternates := None)

  const TileMacro := MacroInfo(
    "tile_equal_records", "tile_bucket",
    "Divide data into tiles",
    [("num_tiles", "num_tiles")],
    requiresRelation := true, requiresRightRelation := false, multiColumn := false, multiRelation := false,
    alternates := None)

  const JoinMacro := MacroInfo(
    "left_join", "join_union",
    "Join two datasets",
    [("join_keys", "join_columns"), ("join_type", "join_type")],
    requiresRelation := true, requiresRightRelation := true, multiColumn := false, multiRelation := false,
    alternates := Some([("INNER", "inner_join"), ("LEFT", "left_join"), ("RIGHT", "right_join"), ("FULL", "full_outer_join")]))

  const UnionMacro := MacroInfo(
    "union_all", "join_union",
    "Stack datasets vertically",
    [],
    requiresRelation := true, requiresRightRelation := false, multiColumn := false, multiRelation := true,
    alternates := None)

  const AppendFieldsMacro := MacroInfo(
    "cross_join", "join_union",
    "Cartesian product (cross join)",
    [],
    requiresRelation := true, requiresRightRelation := true, multiColumn := false, multiRelation := false,
    alternates := None)

  const JoinMultipleMacro := MacroInfo(
    "join_multiple", "join_union",
    "Join multiple tables",
    [("join_specs", "joins")],
    requiresRelation := true, requiresRightRelation := false, multiColumn := false, multiRelation := true,
    alternates := None)

  const SummarizeMacro := MacroInfo(
    "summarize", "aggregation",
    "Aggregate data with GROUP BY",
    [("group_by_fields", "group_by"), ("aggregations", "agg_fields")],
    requiresRelation := true, requiresRightRelation := false, multiColumn := false, multiRelation := false,
    alternates := None)

  const TransposeMacro := MacroInfo(
    "unpivot", "pivot",
    "Convert columns to rows",
    [("key_columns", "id_cols"), ("value_columns", "value_cols")],
    requiresRelation := true, requiresRightRelation := false, multiColumn := false, multiRelation := false,
    alternates := None)

  const CrossTabMacro := MacroInfo(
    "pivot", "pivot",
    "Convert rows to columns (pivot)",
    [("group_by", "id_cols"), ("pivot_column", "pivot_col"), ("value_column", "value_col")],
    requiresRelation := true, requiresRightRelation := false, multiColumn := false, multiRelation := false,
    alternates := None)

  const CountRecordsMacro := MacroInfo(
    "count_records", "aggregation",
    "Count number of records",
    [],
    requiresRelation := true, requiresRightRelation := false, multiColumn := false, multiRelation := false,
    alternates := None)

  const RunningTotalMacro := MacroInfo(
    "running_total", "running_total",
    "Calculate cumulative sum",
    [("column", "column_name"), ("partition_by", "partition_by"), ("order_by", "order_by")],
    requiresRelation := true, requiresRightRelation := false, multiColumn := false, multiRelation := false,
    alternates := None)

  const WeightedAverageMacro := MacroInfo(
    "weighted_average", "aggregation",
    "Calculate weighted average",
    [("value_column", "value_col"), ("weight_column", "weight_col")],
    requiresRelation := true, requiresRightRelation := false, multiColumn := false, multiRelation := false,
    alternates := None)

  const ArrangeMacro := MacroInfo(
    "sort_data", "select_transform",
    "Sort and reorder data",
    [("sort_fields", "order_by")],
    requiresRelation := true, requiresRightRelation := false, multiColumn := false, multiRelation := false,
    alternates := None)

  const RegExMacro := MacroInfo(
    "regex_extract", "regex_functions",
    "Extract text using regex",
    [("column", "column_name"), ("pattern", "pattern")],
    requiresRelation := true, requiresRightRelation := false, multiColumn := false, multiRelation := false,
    alternates := Some([("extract", "regex_extract"), ("replace", "regex_replace"), ("match", "regex_match")]))

  const TextToColumnsMacro := MacroInfo(
    "split_to_columns", "split_unnest",
    "Split delimited text into columns",
    [("column", "column_name"), ("delimiter", "delimiter")],
    requiresRelation := true, requiresRightRelation := false, multiColumn := false, multiRelation := false,
    alternates := None)

  const JSONParseMacro := MacroInfo(
    "json_extract_path_text", "formula_helpers",
    "Parse JSON data",
    [("column", "json_column"), ("path", "path")],
    requiresRelation := true, requiresRightRelation := false, multiColumn := false, multiRelation := false,
    alternates := None)

  const DateTimeParseMacro := MacroInfo(
    "to_timestamp", "safe_cast",
    "Parse date/time strings",
    [("column", "column_name"), ("format", "format_string")],
    requiresRelation := true, requiresRightRelation := false, multiColumn := false, multiRelation := false,
    alternates := None)

  const GenerateRowsMacro := MacroInfo(
    "date_spine", "date_spine",
    "Generate sequential rows/dates",
    [("start_value", "start_date"), ("end_value", "end_date")],
    requiresRelation := false, requiresRightRelation := false, multiColumn := false, multiRelation := false,
    alternates := None)

  /** `TOOL_MACRO_MAP`, in source order; no tool is listed twice. */
  const ToolMacroMap: seq<(String, MacroInfo)> := [
    ("Filter", FilterMacro),
    ("Formula", FormulaMacro),
    ("Multi-Field Formula", MultiFieldFormulaMacro),
    ("Select", SelectMacro),
    ("Sort", SortMacro),
    ("Sample", SampleMacro),
    ("Unique", UniqueMacro),
    ("Data Cleansing", DataCleansingMacro),
    ("Record ID", RecordIDMacro),
    ("Auto Field", AutoFieldMacro),
    ("Multi-Row Formula", MultiRowFormulaMacro),
    ("Find Replace", FindReplaceMacro),
    ("Imputation", ImputationMacro),
    ("Select Records", SelectRecordsMacro),
    ("Tile", TileMacro),
    ("Join", JoinMacro),
    ("Union", UnionMacro),
    ("Append Fields", AppendFieldsMacro),
    ("Join Multiple", JoinMultipleMacro),
    ("Summarize", SummarizeMacro),
    ("Transpose", TransposeMacro),
    ("Cross Tab", CrossTabMacro),
    ("Count Records", CountRecordsMacro),
    ("Running Total", RunningTotalMacro),
    ("Weighted Average", WeightedAverageMacro),
    ("Arrange", ArrangeMacro),
    ("RegEx", RegExMacro),
    ("Text To Columns", TextToColumnsMacro),
    ("JSON Parse", JSONParseMacro),
    ("Date Time Parse", DateTimeParseMacro),
    ("Generate Rows", GenerateRowsMacro)]

  /** The optional context dictionary; None and the empty dictionary are
      both falsy. */
  type Context = Option<seq<(String, String)>>

  predicate Truthy(context: Context) {
    context.Some? && context.value != []
  }

  /** The alternate macro named by the context for this tool, if any: the
      upper-cased `join_type` for Join, `sample_type` for Sample and
      `operation` for RegEx, in that order of tests. */
  function AlternateKey(tool: String, ctx: seq<(String, String)>): Option<String> {
    if tool == "Join" && Dicts.HasKey(ctx, "join_type") then Some(Upper(Dicts.Get(ctx, "join_type").value))
    else if tool == "Sample" && Dicts.HasKey(ctx, "sample_type") then Dicts.Get(ctx, "sample_type")
    else if tool == "RegEx" && Dicts.HasKey(ctx, "operation") then Dicts.Get(ctx, "operation")
    else None
  }

  /** `get_macro_for_tool`: None for an unlisted tool, otherwise the table
      entry as the context selects it. */
  function MacroForTool(tool: String, context: Context): (r: Option<MacroInfo>)
    ensures r.None? <==> !Dicts.HasKey(ToolMacroMap, tool)
    ensures r.Some? ==> r == Some(Selected(Dicts.Get(ToolMacroMap, tool).value, tool, context))
  {
    match Dicts.Get(ToolMacroMap, tool)
    case None => None
    case Some(info) => Some(Selected(info, tool, context))
  }

  /** An entry as the context selects it: an entry with alternates and a
      truthy context whose key selects a listed alternate is returned as a
      copy naming that alternate macro; everything else about the entry is
      unchanged, and any other entry is returned as it is. */
  function Selected(info: MacroInfo, tool: String, context: Context): (r: MacroInfo)
    ensures r == info.(macro := r.macro)
    ensures !Truthy(context) || info.alternates.None? ==> r == info
    ensures r != info ==>
      info.alternates.Some? && exists i :: 0 <= i < |info.alternates.value| && info.alternates.value[i].1 == r.macro
  {
    if Truthy(context) && info.alternates.Some? then
      var alts := info.alternates.value;
      match AlternateKey(tool, context.value)
      case Some(key) =>
        if Dicts.HasKey(alts, key) then info.(macro := Dicts.Get(alts, key).value) else info
      case None => info
    else info
  }

  /** `get_all_macro_files`: the set of macro files named in the table. */
  function AllMacroFiles(): (r: set<String>)
    ensures forall f :: f in r <==> exists i :: 0 <= i < |ToolMacroMap| && ToolMacroMap[i].1.macroFile == f
  {
    set i | 0 <= i < |ToolMacroMap| :: ToolMacroMap[i].1.macroFile
  }

  /** The tools of a list of entries that use the macro file, in order. */
  function ToolsUsing(entries: seq<(String, MacroInfo)>, file: String): (r: seq<String>)
    ensures |r| <= |entries|
    ensures forall t :: t in r <==> exists i :: 0 <= i < |entries| && entries[i].0 == t && entries[i].1.macroFile == file
  {
    if entries == [] then []
    else
      var rest := ToolsUsing(entries[1..], file);
      assert forall i :: 1 <= i < |entries| ==> entries[i] == entries[1..][i - 1];
      if entries[0].1.macroFile == file then [entries[0].0] + rest else rest
  }

  /** `get_tools_for_macro_file`: the tools whose entry names the file, in
      table order. */
  function ToolsForMacroFile(file: String): (r: seq<String>)
    ensures forall t :: t in r <==> exists i :: 0 <= i < |ToolMacroMap| && ToolMacroMap[i].0 == t && ToolMacroMap[i].1.macroFile == file
  {
    ToolsUsing(ToolMacroMap, file)
  }

  /** A file is among all macro files exactly when some tool uses it. */
  lemma MacroFilesAreUsed(file: String)
    ensures file in AllMacroFiles() <==> ToolsForMacroFile(file) != []
  {
    if file in AllMacroFiles() {
      var i :| 0 <= i < |ToolMacroMap| && ToolMacroMap[i].1.macroFile == file;
      assert ToolMacroMap[i].0 in ToolsForMacroFile(file);
    }
    if ToolsForMacroFile(file) != [] {
      assert ToolsForMacroFile(file)[0] in ToolsForMacroFile(file);
    }
  }

  /** The Join entry, found by its key. */
  lemma JoinEntry(tool: String)
    requires tool == "Join"
    ensures Dicts.Get(ToolMacroMap, tool) == Some(JoinMacro)
  {
    assert ToolMacroMap[15].0 == tool && ToolMacroMap[15].1 == JoinMacro;
    assert forall j :: 15 < j < |ToolMacroMap| ==> ToolMacroMap[j].0 != tool;
  }

  /** The Sample entry, found by its key. */
  lemma SampleEntry(tool: String)
    requires tool == "Sample"
    ensures Dicts.Get(ToolMacroMap, tool) == Some(SampleMacro)
  {
    assert ToolMacroMap[5].0 == tool && ToolMacroMap[5].1 == SampleMacro;
    assert forall j :: 5 < j < |ToolMacroMap| ==> ToolMacroMap[j].0 != tool;
  }

  /** For Join, the context's `join_type` is upper-cased and looked up among
      the Join alternates; a type with no alternate keeps the default. */
  lemma JoinTypeSelection(tool: String, joinType: String)
    requires tool == "Join"
    ensures var alts := JoinMacro.alternates.value;
      MacroForTool(tool, Some([("join_type", joinType)]))
      == if Dicts.HasKey(alts, Upper(joinType)) then Some(JoinMacro.(macro := Dicts.Get(alts, Upper(joinType)).value))
         else Some(JoinMacro)
  {
    JoinEntry(tool);
    JoinAlternate(tool, joinType);
  }

  /** The Join entry under a `join_type` context. */
  lemma JoinAlternate(tool: String, joinType: String)
    requires tool == "Join"
    ensures var alts := JoinMacro.alternates.value;
      Selected(JoinMacro, tool, Some([("join_type", joinType)]))
      == if Dicts.HasKey(alts, Upper(joinType)) then JoinMacro.(macro := Dicts.Get(alts, Upper(joinType)).value)
         else JoinMacro
  {
    var ctx := [("join_type", joinType)];
    assert ctx[0].0 == "join_type";
    assert Dicts.Get(ctx, "join_type") == Some(joinType);
  }

  /** "inner" selects `inner_join`. */
  lemma InnerJoinSelected(tool: String, inner: String)
    requires tool == "Join" && inner == "inner"
    ensures MacroForTool(tool, Some([("join_type", inner)])) == Some(JoinMacro.(macro := "inner_join"))
  {
    JoinEntry(tool);
    JoinAlternate(tool, inner);
    InnerAlternate(inner);
  }

  /** Upper-cased, "inner" is the first Join alternate, naming `inner_join`. */
  lemma InnerAlternate(inner: String)
    requires inner == "inner"
    ensures Dicts.Get(JoinMacro.alternates.value, Upper(inner)) == Some("inner_join")
  {
    var upper := Upper(inner);
    assert upper == "INNER";
    var alts := JoinMacro.alternates.value;
    assert alts[0].0 == upper && alts[0].1 == "inner_join";
    assert forall j :: 0 < j < |alts| ==> alts[j].0 != upper;
  }

  /** "cross" has no alternate, so the default `left_join` entry is kept. */
  lemma CrossJoinKeepsDefault(tool: String, cross: String)
    requires tool == "Join" && cross == "cross"
    ensures MacroForTool(tool, Some([("join_type", cross)])) == Some(JoinMacro)
  {
    JoinEntry(tool);
    JoinAlternate(tool, cross);
    CrossAlternate(cross);
  }

  /** Upper-cased, "cross" is none of the Join alternates. */
  lemma CrossAlternate(cross: String)
    requires cross == "cross"
    ensures !Dicts.HasKey(JoinMacro.alternates.value, Upper(cross))
  {
    var upper := Upper(cross);
    assert upper == "CROSS";
    var alts := JoinMacro.alternates.value;
    assert forall j :: 0 <= j < |alts| ==> alts[j].0 != upper;
  }

  /** For Sample, the context's `sample_type` is looked up as given. */
  lemma SampleTypeSelection(tool: String, kind: String)
    requires tool == "Sample"
    ensures var alts := SampleMacro.alternates.value;
      MacroForTool(tool, Some([("sample_type", kind)]))
      == if Dicts.HasKey(alts, kind) then Some(SampleMacro.(macro := Dicts.Get(alts, kind).value))
         else Some(SampleMacro)
  {
    SampleEntry(tool);
    SampleAlternate(tool, kind);
  }

  /** The Sample entry under a `sample_type` context. */
  lemma SampleAlternate(tool: String, kind: String)
    requires tool == "Sample"
    ensures var alts := SampleMacro.alternates.value;
      Selected(SampleMacro, tool, Some([("sample_type", kind)]))
      == if Dicts.HasKey(alts, kind) then SampleMacro.(macro := Dicts.Get(alts, kind).value)
         else SampleMacro
  {
    var ctx := [("sample_type", kind)];
    assert ctx[0].0 == "sample_type";
    assert Dicts.Get(ctx, "sample_type") == Some(kind);
  }

  /** The Sample lookup is case-sensitive: "random" selects
      `sample_random_n` but "Random" keeps `sample_first_n`. */
  lemma SampleTypeExamples(tool: String, lower: String, capital: String)
    requires tool == "Sample" && lower == "random" && capital == "Random"
    ensures MacroForTool(tool, Some([("sample_type", lower)])) == Some(SampleMacro.(macro := "sample_random_n"))
    ensures MacroForTool(tool, Some([("sample_type", capital)])) == Some(SampleMacro)
  {
    SampleEntry(tool);
    SampleAlternate(tool, lower);
    SampleAlternate(tool, capital);
    RandomAlternate(lower, capital);
  }

  /** "random" is the first Sample alternate, naming `sample_random_n`;
      "Random" is none of them. */
  lemma RandomAlternate(lower: String, capital: String)
    requires lower == "random" && capital == "Random"
    ensures Dicts.Get(SampleMacro.alternates.value, lower) == Some("sample_random_n")
    ensures !Dicts.HasKey(SampleMacro.alternates.value, capital)
  {
    var alts := SampleMacro.alternates.value;
    assert alts[0].0 == lower && alts[0].1 == "sample_random_n";
    assert forall j :: 0 < j < |alts| ==> alts[j].0 != lower;
    assert forall j :: 0 <= j < |alts| ==> alts[j].0 != capital;
  }

  /** The RegEx entry, found by its key. */
  lemma RegExEntry(tool: String)
    requires tool == "RegEx"
    ensures Dicts.Get(ToolMacroMap, tool) == Some(RegExMacro)
  {
    assert ToolMacroMap[26].0 == tool && ToolMacroMap[26].1 == RegExMacro;
    assert forall j :: 26 < j < |ToolMacroMap| ==> ToolMacroMap[j].0 != tool;
  }

  /** For RegEx, the context's `operation` is looked up as given. */
  lemma RegExOperationSelection(tool: String, operation: String)
    requires tool == "RegEx"
    ensures var alts := RegExMacro.alternates.value;
      MacroForTool(tool, Some([("operation", operation)]))
      == if Dicts.HasKey(alts, operation) then Some(RegExMacro.(macro := Dicts.Get(alts, operation).value))
         else Some(RegExMacro)
  {
    RegExEntry(tool);
    RegExAlternate(tool, operation);
  }

  /** The RegEx entry under an `operation` context. */
  lemma RegExAlternate(tool: String, operation: String)
    requires tool == "RegEx"
    ensures var alts := RegExMacro.alternates.value;
      Selected(RegExMacro, tool, Some([("operation", operation)]))
      == if Dicts.HasKey(alts, operation) then RegExMacro.(macro := Dicts.Get(alts, operation).value)
         else RegExMacro
  {
    var ctx := [("operation", operation)];
    assert ctx[0].0 == "operation";
    assert Dicts.Get(ctx, "operation") == Some(operation);
  }

  /** The RegEx lookup is case-sensitive too: "replace" selects
      `regex_replace` but "Replace" keeps `regex_extract`. */
  lemma RegExOperationExamples(tool: String, lower: String, capital: String)
    requires tool == "RegEx" && lower == "replace" && capital == "Replace"
    ensures MacroForTool(tool, Some([("operation", lower)])) == Some(RegExMacro.(macro := "regex_replace"))
    ensures MacroForTool(tool, Some([("operation", capital)])) == Some(RegExMacro)
  {
    RegExEntry(tool);
    RegExAlternate(tool, lower);
    RegExAlternate(tool, capital);
    ReplaceAlternate(lower, capital);
  }

  /** "replace" is the second RegEx alternate, naming `regex_replace`;
      "Replace" is none of them. */
  lemma ReplaceAlternate(lower: String, capital: String)
    requires lower == "replace" && capital == "Replace"
    ensures Dicts.Get(RegExMacro.alternates.value, lower) == Some("regex_replace")
    ensures !Dicts.HasKey(RegExMacro.alternates.value, capital)
  {
    var alts := RegExMacro.alternates.value;
    assert alts[1].0 == lower && alts[1].1 == "regex_replace";
    assert forall j :: 1 < j < |alts| ==> alts[j].0 != lower;
    assert forall j :: 0 <= j < |alts| ==> alts[j].0 != capital;
  }

  /** The join_union macro file serves Join, Union, Append Fields and Join
      Multiple, in that order. */
  lemma JoinUnionTools(file: String)
    requires file == "join_union"
    ensures ToolsForMacroFile(file) == ["Join", "Union", "Append Fields", "Join Multiple"]
  {
    var middle := [("Join", JoinMacro), ("Union", UnionMacro), ("Append Fields", AppendFieldsMacro), ("Join Multiple", JoinMultipleMacro)];
    JoinUnionEntries(middle);
    JoinUnionElsewhere(file);
    ToolsUsingWindow(ToolMacroMap, 15, 19, file);
    JoinUnionNames(file, middle);
  }

  /** The tools of entries 15 to 18, all of which use join_union. */
  lemma JoinUnionNames(file: String, middle: seq<(String, MacroInfo)>)
    requires file == "join_union"
    requires middle == [("Join", JoinMacro), ("Union", UnionMacro), ("Append Fields", AppendFieldsMacro), ("Join Multiple", JoinMultipleMacro)]
    ensures ToolsUsing(middle, file) == ["Join", "Union", "Append Fields", "Join Multiple"]
  {
    ToolsUsingAll(middle, file);
  }

  /** Entries 15 to 18 of the table. */
  lemma JoinUnionEntries(middle: seq<(String, MacroInfo)>)
    requires middle == [("Join", JoinMacro), ("Union", UnionMacro), ("Append Fields", AppendFieldsMacro), ("Join Multiple", JoinMultipleMacro)]
    ensures |ToolMacroMap| >= 19 && ToolMacroMap[15..19] == middle
  {
    var t := ToolMacroMap;
    assert t[15] == middle[0] && t[16] == middle[1] && t[17] == middle[2] && t[18] == middle[3];
  }

  /** No entry outside 15 to 18 uses the join_union file. */
  lemma JoinUnionElsewhere(file: String)
    requires file == "join_union"
    ensures forall k :: 0 <= k < |ToolMacroMap| && !(15 <= k < 19) ==> ToolMacroMap[k].1.macroFile != file
  {
  }

  /** When only the entries from i to j use the file, they alone give its tools. */
  lemma ToolsUsingWindow(t: seq<(String, MacroInfo)>, i: nat, j: nat, file: String)
    requires i <= j <= |t|
    requires forall k :: 0 <= k < |t| && !(i <= k < j) ==> t[k].1.macroFile != file
    ensures ToolsUsing(t, file) == ToolsUsing(t[i..j], file)
  {
    var a, b, c := t[..i], t[i..j], t[j..];
    assert t == a + (b + c);
    ToolsUsingConcat(a, b + c, file);
    ToolsUsingConcat(b, c, file);
    assert forall k :: 0 <= k < |a| ==> a[k] == t[k];
    assert forall k :: 0 <= k < |c| ==> c[k] == t[j + k];
    ToolsUsingNone(a, file);
    ToolsUsingNone(c, file);
  }

  lemma {:induction false} ToolsUsingConcat(a: seq<(String, MacroInfo)>, b: seq<(String, MacroInfo)>, file: String)
    ensures ToolsUsing(a + b, file) == ToolsUsing(a, file) + ToolsUsing(b, file)
  {
    if a == [] {
      assert a + b == b;
    } else {
      assert (a + b)[0] == a[0];
      assert (a + b)[1..] == a[1..] + b;
      ToolsUsingConcat(a[1..], b, file);
    }
  }

  lemma {:induction false} ToolsUsingNone(a: seq<(String, MacroInfo)>, file: String)
    requires forall j :: 0 <= j < |a| ==> a[j].1.macroFile != file
    ensures ToolsUsing(a, file) == []
  {
    if a != [] {
      ToolsUsingNone(a[1..], file);
    }
  }

  lemma {:induction false} ToolsUsingAll(b: seq<(String, MacroInfo)>, file: String)
    requires forall j :: 0 <= j < |b| ==> b[j].1.macroFile == file
    ensures ToolsUsing(b, file) == seq(|b|, j requires 0 <= j < |b| => b[j].0)
  {
    if b != [] {
      ToolsUsingAll(b[1..], file);
      assert seq(|b|, j requires 0 <= j < |b| => b[j].0)
          == [b[0].0] + seq(|b| - 1, j requires 0 <= j < |b| - 1 => b[1..][j].0);
    }
  }
}
