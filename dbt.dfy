/** The dbt project generator (dbt_generator.py): the names it gives
    schemas, tables and models; the columns it reads off a tool; the merge
    of the sources of several workflows; its split of a SELECT list; its
    naive expression conversion; and the choices behind the SQL it writes
    for each kind of tool. */
module Dbt {
  import opened Wrappers
  import opened Text
  import Models
  import Naming
  import Seqs
  import Dicts
  import Formula
  import ToolMappings

  // ---------------------------------------------------------------------
  // Names
  // ---------------------------------------------------------------------

  /** `_sanitize_name`: its early return for "" gives what the rest of the
      function would give. */
  function SanitizeName(name: String): (r: String)
    ensures r == Naming.Sanitize(name)
  {
    if name == [] then "unknown" else Naming.Sanitize(name)
  }

  /** `_quote_column`: `*` and text that already starts with `"` stay as
      they are; anything else is put in double quotes. */
  function QuoteColumn(col: String): (r: String)
    ensures r == "*" || (r != [] && r[0] == '"')
    ensures r == col || r == "\"" + col + "\""
    ensures r == col <==> col == "*" || (col != [] && col[0] == '"')
  {
    if StartsWith(col, "\"") || col == "*" then col else "\"" + col + "\""
  }

  /** Quoting twice is quoting once. */
  lemma QuoteColumnIdempotent(col: String)
    ensures QuoteColumn(QuoteColumn(col)) == QuoteColumn(col)
  {
  }

  // ---------------------------------------------------------------------
  // Splitting a SELECT list
  // ---------------------------------------------------------------------

  /** The parenthesis depth after reading s, quotes not looked at; a `)`
      too many takes it below zero. */
  function ParenDepth(s: String): int {
    if s == [] then 0
    else
      var c := s[|s| - 1];
      ParenDepth(s[..|s| - 1]) + (if c == '(' then 1 else if c == ')' then -1 else 0)
  }

  /** The comma at the end of s is at depth exactly zero. */
  predicate EndsAtTopComma(s: String) {
    s != [] && s[|s| - 1] == ',' && ParenDepth(s[..|s| - 1]) == 0
  }

  /** The parts `_split_sql_columns` holds after reading s: the finished
      ones and, last, the current one. */
  function SqlPieces(s: String): (r: seq<String>)
    ensures |r| >= 1
  {
    if s == [] then [[]]
    else
      var p := SqlPieces(s[..|s| - 1]);
      if EndsAtTopComma(s) then p + [[]]
      else p[..|p| - 1] + [p[|p| - 1] + [s[|s| - 1]]]
  }

  /** The result of `_split_sql_columns`: the parts, the last one dropped
      when it is empty. */
  function SqlColumns(s: String): seq<String> {
    var p := SqlPieces(s);
    if p[|p| - 1] == [] then p[..|p| - 1] else p
  }

  /** The positions of the commas at depth zero. */
  function TopCommas(s: String): seq<nat> {
    if s == [] then []
    else TopCommas(s[..|s| - 1]) + (if EndsAtTopComma(s) then [|s| - 1] else [])
  }

  /** Joining the parts with commas gives back the text: nothing is
      stripped. */
  lemma {:induction false} JoinSqlPieces(s: String)
    ensures Text.Join(SqlPieces(s), ",") == s
    ensures |SqlPieces(s)| == |TopCommas(s)| + 1
    decreases |s|
  {
    if s != [] {
      var init := s[..|s| - 1];
      JoinSqlPieces(init);
      var p := SqlPieces(init);
      if EndsAtTopComma(s) {
        JoinSnoc(p, [], ",");
      } else {
        JoinExtendLast(p, [s[|s| - 1]], ",");
      }
      assert s == init + [s[|s| - 1]];
    }
  }

  /** The split undone: joining with commas gives the text back, except a
      comma at depth zero at its very end. */
  lemma SqlColumnsJoin(s: String)
    ensures EndsAtTopComma(s) ==> Text.Join(SqlColumns(s), ",") + "," == s
    ensures !EndsAtTopComma(s) ==> Text.Join(SqlColumns(s), ",") == s
  {
    if EndsAtTopComma(s) {
      SqlColumnsAtTopComma(s);
    } else {
      JoinSqlPieces(s);
      if s != [] {
        LastPieceAfterOther(s);
      }
    }
  }

  lemma SqlColumnsAtTopComma(s: String)
    requires EndsAtTopComma(s)
    ensures Text.Join(SqlColumns(s), ",") + "," == s
  {
    var init := s[..|s| - 1];
    var p := SqlPieces(init);
    JoinSqlPieces(init);
    assert SqlPieces(s) == p + [[]];
    assert (p + [[]])[..|p|] == p;
    assert SqlColumns(s) == p;
    assert s == init + ",";
  }

  /** After any character but a top-level comma the current part is not empty. */
  lemma LastPieceAfterOther(s: String)
    requires s != [] && !EndsAtTopComma(s)
    ensures var q := SqlPieces(s); q[|q| - 1] != []
  {
    var p := SqlPieces(s[..|s| - 1]);
    var q := SqlPieces(s);
    assert q[|q| - 1] == p[|p| - 1] + [s[|s| - 1]];
  }

  // ---------------------------------------------------------------------
  // The columns of a tool
  // ---------------------------------------------------------------------

  /** `s.lstrip(c)` */
  function TrimStartChar(s: String, c: char): (r: String)
    ensures |r| <= |s| && (r == [] || r[0] != c)
  {
    if s != [] && s[0] == c then TrimStartChar(s[1..], c) else s
  }

  /** `s.strip(c)` */
  function StripChar(s: String, c: char): (r: String)
    ensures r == [] || (r[0] != c && r[|r| - 1] != c)
  {
    var t := TrimStartChar(s, c);
    var r := TrimEnd(t, {c});
    assert r != [] ==> r[0] == t[0];
    r
  }

  /** `s.split(sep)[0]`: the text before the first sep. */
  function BeforeFirst(s: String, sep: String): String
    requires sep != []
  {
    var k := Find(s, sep, 0);
    if k == -1 then s else s[..k]
  }

  /** The column a selected field names. The test for ` AS ` ignores case
      but the split at it does not, so `x as y` names all of `x as y`. */
  function SelectedColumn(field: String): String {
    var col := if Contains(Upper(field), " AS ") then Strip(BeforeFirst(field, " AS ")) else Strip(field);
    StripChar(col, '"')
  }

  /** The columns of the selected fields, in order, skipping empty ones and
      `*`; a column named twice is listed twice. */
  function SelectedColumns(fields: seq<String>): (r: seq<String>)
    ensures forall x :: x in r ==> x != [] && x != "*"
    ensures |r| <= |fields|
  {
    if fields == [] then []
    else
      var r := SelectedColumns(fields[..|fields| - 1]);
      var col := SelectedColumn(fields[|fields| - 1]);
      if col != [] && col != "*" then r + [col] else r
  }

  /** One `if x and x not in columns: columns.append(x)`. */
  function AddAbsent(cols: seq<String>, x: String): seq<String> {
    if x != [] && x !in cols then cols + [x] else cols
  }

  /** A loop of such appends over xs. */
  function AddAll(cols: seq<String>, xs: seq<String>): (r: seq<String>)
    ensures |cols| <= |r| && forall i :: 0 <= i < |cols| ==> r[i] == cols[i]
    ensures forall x :: x in r <==> x in cols || (x in xs && x != [])
    ensures Seqs.Distinct(cols) ==> Seqs.Distinct(r)
  {
    if xs == [] then cols else AddAbsent(AddAll(cols, xs[..|xs| - 1]), xs[|xs| - 1])
  }

  lemma {:induction false} AddAllConcat(cols: seq<String>, xs: seq<String>, ys: seq<String>)
    ensures AddAll(cols, xs + ys) == AddAll(AddAll(cols, xs), ys)
    decreases |ys|
  {
    if ys == [] {
      assert xs + ys == xs;
    } else {
      assert (xs + ys)[..|xs + ys| - 1] == xs + ys[..|ys| - 1];
      AddAllConcat(cols, xs, ys[..|ys| - 1]);
    }
  }

  lemma AddAllSnoc(cols: seq<String>, xs: seq<String>, x: String)
    ensures AddAll(cols, xs + [x]) == AddAbsent(AddAll(cols, xs), x)
  {
    assert (xs + [x])[..|xs|] == xs;
  }

  /** The names the aggregation loop tries, two per aggregation: the field
      (given as "" when it is `*`, which the loop skips) and the output
      name, which defaults to the field. */
  function AggregationNames(aggs: seq<Models.Aggregation>): seq<String> {
    if aggs == [] then []
    else
      var a := aggs[|aggs| - 1];
      var field := a.field.GetOr("");
      AggregationNames(aggs[..|aggs| - 1]) + [if field == "*" then "" else field, a.outputName.GetOr(field)]
  }

  /** One more aggregation tries its field, then its output name. */
  lemma AggregationStep(start: seq<String>, aggs: seq<Models.Aggregation>, i: nat, first: String, output: String)
    requires i < |aggs|
    requires first == (var field := aggs[i].field.GetOr(""); if field == "*" then "" else field)
    requires output == aggs[i].outputName.GetOr(aggs[i].field.GetOr(""))
    ensures AddAll(start, AggregationNames(aggs[..i + 1]))
      == AddAbsent(AddAbsent(AddAll(start, AggregationNames(aggs[..i])), first), output)
  {
    var names := AggregationNames(aggs[..i]);
    assert aggs[..i + 1][..i] == aggs[..i];
    assert AggregationNames(aggs[..i + 1]) == names + [first, output];
    assert names + [first, output] == (names + [first]) + [output];
    AddAllSnoc(start, names + [first], output);
    AddAllSnoc(start, names, first);
  }

  /** The names the join-key loop tries: every side of every key, split at
      `=` and stripped. */
  function JoinKeyNames(keys: seq<String>): seq<String> {
    if keys == [] then []
    else JoinKeyNames(keys[..|keys| - 1]) + Formula.StripEach(Split(keys[|keys| - 1], '='))
  }

  /** The names the formula loop tries: each formula's output field. */
  function FormulaFieldNames(formulas: seq<Models.FormulaSpec>): (r: seq<String>)
    ensures |r| == |formulas| && forall i :: 0 <= i < |r| ==> r[i] == formulas[i].field.GetOr("")
  {
    if formulas == [] then []
    else FormulaFieldNames(formulas[..|formulas| - 1]) + [formulas[|formulas| - 1].field.GetOr("")]
  }

  /** `_extract_columns_from_node`. The SQL extraction
      (`_extract_columns_from_sql`) is the parameter sqlColumns. Group-by
      names and SQL columns are each compared with the list as it was
      before their batch, so duplicates inside a batch stay. */
  function ColumnsOf(n: Models.Node, sqlColumns: String -> seq<String>): seq<String> {
    var c0 := SelectedColumns(n.selectedFields);
    var c1 := c0 + Seqs.Without(n.groupByFields, c0);
    var c2 := AddAll(c1, AggregationNames(n.aggregations));
    var c3 := AddAll(c2, JoinKeyNames(n.joinKeys));
    var c4 := AddAll(c3, FormulaFieldNames(n.formulas));
    if n.sqlQuery == [] then c4 else c4 + Seqs.Without(sqlColumns(n.sqlQuery), c4)
  }

  /** A name is a column of the tool exactly when one of its stages names it. */
  lemma ColumnsOfMembers(n: Models.Node, sqlColumns: String -> seq<String>, x: String)
    ensures x in ColumnsOf(n, sqlColumns) <==>
      || x in SelectedColumns(n.selectedFields)
      || x in n.groupByFields
      || (x != [] && (x in AggregationNames(n.aggregations) || x in JoinKeyNames(n.joinKeys)
                      || x in FormulaFieldNames(n.formulas)))
      || (n.sqlQuery != [] && x in sqlColumns(n.sqlQuery))
  {
  }

  /** Only the selected fields, the group-by batch and the SQL batch can
      bring a duplicate: without one inside them the columns are distinct. */
  lemma ColumnsOfDistinct(n: Models.Node, sqlColumns: String -> seq<String>)
    requires Seqs.Distinct(SelectedColumns(n.selectedFields))
    requires Seqs.Distinct(n.groupByFields)
    requires n.sqlQuery != [] ==> Seqs.Distinct(sqlColumns(n.sqlQuery))
    ensures Seqs.Distinct(ColumnsOf(n, sqlColumns))
  {
    var c0 := SelectedColumns(n.selectedFields);
    Seqs.AppendWithoutDistinct(c0, n.groupByFields);
    var c4 := AddAll(AddAll(AddAll(c0 + Seqs.Without(n.groupByFields, c0), AggregationNames(n.aggregations)),
                            JoinKeyNames(n.joinKeys)), FormulaFieldNames(n.formulas));
    if n.sqlQuery != [] {
      Seqs.AppendWithoutDistinct(c4, sqlColumns(n.sqlQuery));
    }
  }

  /** The group-by batch is checked against the list before it, not
      against itself: a tool with only group-by fields has them all, even
      repeated ones. */
  lemma GroupByKeepsRepeats(n: Models.Node, sqlColumns: String -> seq<String>)
    requires n.selectedFields == [] && n.aggregations == [] && n.joinKeys == []
    requires n.formulas == [] && n.sqlQuery == []
    ensures ColumnsOf(n, sqlColumns) == n.groupByFields
  {
    Seqs.WithoutNothing(n.groupByFields);
  }
  // ---------------------------------------------------------------------
  // Schema, table and model names
  // ---------------------------------------------------------------------

  /** `database=([^;]+)` matches at j: the key, then at least one
      character other than `;`. */
  predicate DatabaseAt(s: String, j: nat) {
    j + 9 < |s| && s[j..j + 9] == "database=" && s[j + 9] != ';'
  }

  /** The leftmost match at or after i. */
  function DatabaseMatch(s: String, i: nat): (r: Option<nat>)
    ensures r.None? ==> forall j :: i <= j ==> !DatabaseAt(s, j)
    ensures r.Some? ==> i <= r.value && DatabaseAt(s, r.value)
    ensures r.Some? ==> forall j :: i <= j < r.value ==> !DatabaseAt(s, j)
    decreases |s| - i
  {
    if i + 9 >= |s| then None
    else if DatabaseAt(s, i) then Some(i)
    else DatabaseMatch(s, i + 1)
  }

  /** The longest start of t without c: what `[^c]+` takes. */
  function RunBefore(t: String, c: char): (r: String)
    ensures |r| <= |t| && forall k :: 0 <= k < |r| ==> r[k] == t[k] && r[k] != c
    ensures |r| < |t| ==> t[|r|] == c
  {
    if t == [] || t[0] == c then [] else [t[0]] + RunBefore(t[1..], c)
  }

  /** The group the match at j captures. */
  function DatabaseValue(s: String, j: nat): String
    requires DatabaseAt(s, j)
  {
    RunBefore(s[j + 9..], ';')
  }

  /** `_get_schema_name`: the sanitized database named in the lower-cased
      connection string, else "raw". */
  function SchemaName(n: Models.Node): (r: String)
    ensures r != []
  {
    if n.connectionString == [] then "raw"
    else
      var low := Lower(n.connectionString);
      if !Contains(low, "database=") then "raw"
      else match DatabaseMatch(low, 0)
        case None => "raw"
        case Some(j) => SanitizeName(DatabaseValue(low, j))
  }

  /** The leftmost `database=` followed by a value names the schema. */
  lemma SchemaNameLeftmost(n: Models.Node, j: nat)
    requires DatabaseAt(Lower(n.connectionString), j)
    requires forall k :: 0 <= k < j ==> !DatabaseAt(Lower(n.connectionString), k)
    ensures SchemaName(n) == Naming.Sanitize(DatabaseValue(Lower(n.connectionString), j))
  {
    LeftmostMatch(Lower(n.connectionString), j);
  }

  /** A match with none before it is the one the search finds. */
  lemma LeftmostMatch(s: String, j: nat)
    requires DatabaseAt(s, j)
    requires forall k :: 0 <= k < j ==> !DatabaseAt(s, k)
    ensures Contains(s, "database=") && DatabaseMatch(s, 0) == Some(j)
  {
    assert OccursAt(s, "database=", j);
  }

  /** Without such a match the schema is "raw". */
  lemma SchemaNameRaw(n: Models.Node)
    requires forall k :: 0 <= k ==> !DatabaseAt(Lower(n.connectionString), k)
    ensures SchemaName(n) == "raw"
  {
  }

  /** `_get_table_name`: the sanitized table name, else the sanitized stem
      of the source path, else `source_<id>`. */
  function TableName(n: Models.Node): (r: String)
    ensures r != []
  {
    if n.tableName != [] then SanitizeName(n.tableName)
    else if n.sourcePath != [] then SanitizeName(Naming.Stem(n.sourcePath))
    else "source_" + IntToString(n.toolId)
  }

  /** A table name wins over the file and the tool id. */
  lemma TableNamePrecedence(n: Models.Node, path: String, id: int)
    requires n.tableName != []
    ensures TableName(n) == TableName(n.(sourcePath := path, toolId := id))
    ensures TableName(n) == Naming.Sanitize(n.tableName)
  {
  }

  /** Without a table name, a file `dir/base.ext` names the table after base. */
  lemma TableNameOfFile(n: Models.Node, dir: String, base: String, ext: String)
    requires n.tableName == [] && n.sourcePath == dir + base + "." + ext
    requires dir == [] || dir[|dir| - 1] == '/'
    requires base != [] && ext != [] && '/' !in base && '/' !in ext && '.' !in ext
    ensures TableName(n) == Naming.Sanitize(base)
  {
    Naming.StemOfFile(dir, base, ext);
  }

  /** With neither, the tool id names the table. */
  lemma TableNameOfTool(n: Models.Node)
    requires n.tableName == [] && n.sourcePath == []
    ensures TableName(n) == "source_" + IntToString(n.toolId)
    ensures StartsWith(TableName(n), "source_")
  {
  }

  /** `_get_model_reference`: inputs are referred to by their bronze
      model, everything else by a silver model named after the tool. */
  function ModelReference(n: Models.Node, prefix: String): (r: String)
    ensures StartsWith(r, "stg_") <==> n.category == Models.Input
    ensures StartsWith(r, "int_") <==> n.category != Models.Input
  {
    var layer := if n.category == Models.Input then "stg_" else "int_";
    PrefixedName(layer, prefix + "_" + ReferenceName(n));
    layer + (prefix + "_" + ReferenceName(n))
  }

  /** The name a model reference ends in. */
  function ReferenceName(n: Models.Node): String {
    if n.category == Models.Input then TableName(n) else SanitizeName(n.DisplayName())
  }

  lemma PrefixedName(layer: String, rest: String)
    requires layer == "stg_" || layer == "int_"
    ensures StartsWith(layer + rest, "stg_") <==> layer == "stg_"
    ensures StartsWith(layer + rest, "int_") <==> layer == "int_"
  {
    assert (layer + rest)[..4] == layer;
  }

  /** The reference ends in the table name of an input and in the
      sanitized display name of any other tool. */
  lemma ModelReferenceEnds(n: Models.Node, prefix: String)
    ensures var name := if n.category == Models.Input then TableName(n) else Naming.Sanitize(n.DisplayName());
      EndsWith(ModelReference(n, prefix), "_" + name)
  {
    var layer := if n.category == Models.Input then "stg_" else "int_";
    EndsWithJoined(layer, prefix, ReferenceName(n));
  }

  lemma EndsWithJoined(layer: String, prefix: String, name: String)
    ensures EndsWith(layer + (prefix + "_" + name), "_" + name)
  {
    var r := layer + (prefix + "_" + name);
    assert r[|r| - |name| - 1..] == "_" + name;
  }

  lemma EndsWithAppend(a: String, b: String)
    ensures EndsWith(a + b, b)
  {
    assert (a + b)[|a|..] == b;
  }

  /** The fact-or-dimension prefix of a gold model. */
  function GoldPrefix(n: Models.Node): (r: String)
    ensures r == "fct" || r == "dim"
    ensures r == "fct" <==> n.pluginName == "Summarize" || n.aggregations != []
  {
    if n.pluginName == "Summarize" || n.aggregations != [] then "fct" else "dim"
  }

  // ---------------------------------------------------------------------
  // Expressions
  // ---------------------------------------------------------------------

  /** The replacements of `_convert_expression`, in the dictionary's order. */
  const ExpressionReplacements: seq<(String, String)> := [
    ("IsNull(", "is null -- "),
    ("IsEmpty(", "= '' -- "),
    ("IIF(", "case when "),
    (", True, False)", " then true else false end"),
    ("ENDIF", "end"),
    ("==", "="),
    ("&&", "and"),
    ("||", "or")]

  /** Every replacement in turn, each over the whole text. */
  function ReplaceAll(s: String, reps: seq<(String, String)>): String
    requires forall k :: 0 <= k < |reps| ==> reps[k].0 != []
    decreases |reps|
  {
    if reps == [] then s else ReplaceAll(Replace(s, reps[0].0, reps[0].1), reps[1..])
  }

  /** `_convert_expression`: "" becomes NULL; otherwise field references
      are quoted and the replacements applied. */
  function ConvertExpression(expr: String): (r: String)
    ensures expr == [] ==> r == "NULL"
  {
    if expr == [] then "NULL"
    else ReplaceAll(Formula.QuoteFields(expr), ExpressionReplacements)
  }

  /** The last two replacements leave no `&&` and no `||`. */
  lemma ConvertedHasNoLogicalPairs(expr: String)
    ensures NoPair(ConvertExpression(expr), '&') && NoPair(ConvertExpression(expr), '|')
  {
    if expr != [] {
      var reps := ExpressionReplacements;
      var s := Formula.QuoteFields(expr);
      var s6 := ReplaceAll(s, reps[..6]);
      ReplaceAllSplit(s, reps, 6);
      var s7 := Replace(s6, "&&", "and");
      assert reps[6..] == [("&&", "and"), ("||", "or")];
      assert ReplaceAll(s6, reps[6..]) == ReplaceAll(s7, [("||", "or")]);
      assert ReplaceAll(s7, [("||", "or")]) == ReplaceAll(Replace(s7, "||", "or"), []);
      ReplaceDropsPair(s6, '&', "and");
      ReplaceKeepsNoPair(s7, "||", "or", '&');
      ReplaceDropsPair(s7, '|', "or");
    }
  }

  lemma {:induction false} ReplaceAllSplit(s: String, reps: seq<(String, String)>, k: nat)
    requires forall i :: 0 <= i < |reps| ==> reps[i].0 != []
    requires k <= |reps|
    ensures ReplaceAll(s, reps) == ReplaceAll(ReplaceAll(s, reps[..k]), reps[k..])
    decreases k
  {
    if k > 0 {
      ReplaceAllSplit(Replace(s, reps[0].0, reps[0].1), reps[1..], k - 1);
      assert reps[1..][..k - 1] == reps[..k][1..];
      assert reps[1..][k - 1..] == reps[k..];
    }
  }

  /** Text with no `[` and none of the characters the patterns start with
      comes back unchanged. */
  lemma ConvertPlainExpression(expr: String)
    requires expr != []
    requires forall c :: c in "[I,E=&|" ==> c !in expr
    ensures ConvertExpression(expr) == expr
  {
    Formula.QuoteFieldsPlain(expr);
    var reps := ExpressionReplacements;
    forall k | 0 <= k <= |reps|
      ensures ReplaceAll(expr, reps[k..]) == expr
    {
      ReplaceAllPlain(expr, reps, k);
    }
    assert reps[0..] == reps;
  }

  lemma {:induction false} ReplaceAllPlain(s: String, reps: seq<(String, String)>, k: nat)
    requires forall i :: 0 <= i < |reps| ==> reps[i].0 != [] && reps[i].0[0] !in s
    requires k <= |reps|
    ensures ReplaceAll(s, reps[k..]) == s
    decreases |reps| - k
  {
    if k < |reps| {
      ReplaceAbsent(s, reps[k].0, reps[k].1);
      ReplaceAllPlain(s, reps, k + 1);
      assert reps[k..][1..] == reps[k + 1..];
    }
  }
  // ---------------------------------------------------------------------
  // The SQL of a transformation
  // ---------------------------------------------------------------------

  /** What `_generate_transformation_sql` writes, by the parts that vary
      with the tool; the fixed text around them is not modelled. */
  datatype SqlPlan =
    | FilterPlan(from: String, condition: String)
    | FormulaPlan(from: String, outputs: seq<String>)
    | SelectAll(from: String)
    | JoinPlan(joinType: String, condition: String)
    | SummarizePlan(from: String, groupList: String, aggregates: String, groupBy: String)
    | UnionPlan(selects: seq<String>)
    | SelectPlan(from: String, fields: seq<String>)
    | SortPlan(from: String, orderBy: String)
    | DefaultPlan(from: String, pluginName: String)
  {
    /** The CTE the plan reads, for the plans that read one. */
    function Source(): Option<String> {
      if JoinPlan? || UnionPlan? then None else Some(from)
    }
  }

  /** The CTE a single-input plan reads: the only upstream model, or the
      first of several. */
  function SourceCte(upstreamCount: nat): (r: String)
    ensures r == "source" <==> upstreamCount <= 1
  {
    if upstreamCount <= 1 then "source" else "source_1"
  }

  /** The text that `{expr} as {field}` puts in the select list for each
      formula; a missing field is `new_field`, a missing expression NULL. */
  function FormulaOutput(f: Models.FormulaSpec): String {
    ConvertExpression(f.expression.GetOr("NULL")) + " as " + QuoteColumn(f.field.GetOr("new_field"))
  }

  /** A join key with exactly one `=` gives a condition. */
  function JoinConditions(keys: seq<String>): (r: seq<String>)
    ensures |r| <= |keys|
    ensures r == [] <==> forall k :: 0 <= k < |keys| ==> |Split(keys[k], '=')| != 2
    ensures forall k :: 0 <= k < |r| ==> StartsWith(r[k], "source_1.")
  {
    if keys == [] then []
    else
      var init := JoinConditions(keys[..|keys| - 1]);
      var parts := Split(keys[|keys| - 1], '=');
      if |parts| == 2 then
        var c := "source_1." + QuoteColumn(Strip(parts[0])) + " = source_2." + QuoteColumn(Strip(parts[1]));
        assert c[..9] == "source_1.";
        init + [c]
      else init
  }

  /** The pieces of a split at c are one more than the occurrences of c. */
  lemma {:induction false} SplitCount(s: String, c: char)
    ensures |Split(s, c)| == multiset(s)[c] + 1
    decreases |s|
  {
    if c in s {
      var i := IndexOfChar(s, c);
      SplitCount(s[i + 1..], c);
      assert s == s[..i] + [c] + s[i + 1..];
      assert multiset(s[..i])[c] == 0;
    } else {
      assert multiset(s)[c] == 0;
    }
  }

  /** The joined parts start with the first part. */
  lemma {:induction false} JoinStartsWithFirst(parts: seq<String>, sep: String)
    requires parts != []
    ensures |parts[0]| <= |Text.Join(parts, sep)|
    ensures Text.Join(parts, sep)[..|parts[0]|] == parts[0]
  {
    if |parts| > 1 {
      var j := Text.Join(parts, sep);
      assert j == parts[0] + (sep + Text.Join(parts[1..], sep));
    }
  }

  /** The text before the part a Summarize aggregate puts the field in. */
  function AggregateFunction(a: Models.Aggregation): String {
    var action := a.action.GetOr("COUNT");
    Dicts.GetOr(ToolMappings.AggregationMap, action, Upper(action))
  }

  /** One entry of a Summarize select list. The action defaults to COUNT
      and the field to `*`; the output name defaults to the field. A
      mapped `COUNT(DISTINCT` leaves the parenthesis open for the field. */
  function AggregatePart(a: Models.Aggregation): String {
    var field := a.field.GetOr("*");
    var output := QuoteColumn(a.outputName.GetOr(field));
    var func := AggregateFunction(a);
    var fieldRef := if field != "*" then QuoteColumn(field) else field;
    if EndsWith(func, "(DISTINCT") then func + " " + fieldRef + ") as " + output
    else func + "(" + fieldRef + ") as " + output
  }


  /** `s.split(sep)[1]`: the text between the first and the second sep,
      None where the split has one piece only. */
  function SecondPiece(s: String, sep: String): Option<String>
    requires sep != []
  {
    var k := Find(s, sep, 0);
    if k == -1 then None else Some(BeforeFirst(s[k + |sep|..], sep))
  }

  /** One entry of a Select list, as written: whether there is an alias is
      decided ignoring case, but the alias is taken from a case-sensitive
      split, so a field whose only ` as ` is not upper case raises
      IndexError. */
  function SelectField(f: String): Result<String> {
    var head := QuoteColumn(Strip(BeforeFirst(f, " AS ")));
    if !Contains(Upper(f), " AS ") then Success(head)
    else match SecondPiece(f, " AS ")
      case None => Failure(IndexErrorText)
      case Some(alias) => Success(head + " as " + QuoteColumn(Strip(alias)))
  }

  /** The text has ` AS ` in some mix of cases, but not upper case. */
  predicate OnlyMixedCaseAs(f: String) {
    Contains(Upper(f), " AS ") && !Contains(f, " AS ")
  }

  /** The as-written Select entry fails exactly on such fields. */
  lemma SelectFieldFails(f: String)
    ensures SelectField(f).Failure? <==> OnlyMixedCaseAs(f)
  {
  }

  /** A name of letters, digits and `_`. */
  predicate IsWord(s: String) {
    s != [] && Naming.AllWordChars(s)
  }

  /** `a as b` is one of them, for any names a and b. */
  lemma SelectFieldLowercaseAs(a: String, b: String)
    requires IsWord(a) && IsWord(b)
    ensures SelectField(a + " as " + b).Failure?
  {
    var f := a + " as " + b;
    var n := |a|;
    assert f[n..n + 4] == " as ";
    assert Upper(f)[n..n + 4] == " AS ";
    assert OccursAt(Upper(f), " AS ", n);
    NoUpperAs(a, b);
    assert OnlyMixedCaseAs(f);
    SelectFieldFails(f);
  }

  lemma NoUpperAs(a: String, b: String)
    requires IsWord(a) && IsWord(b)
    ensures !Contains(a + " as " + b, " AS ")
  {
    var f := a + " as " + b;
    var n := |a|;
    forall i | 0 <= i
      ensures !OccursAt(f, " AS ", i)
    {
      if i + 4 <= |f| {
        NoUpperAsAt(a, b, i);
      }
    }
  }

  lemma NoUpperAsAt(a: String, b: String, i: nat)
    requires IsWord(a) && IsWord(b)
    requires i + 4 <= |a + " as " + b|
    ensures (a + " as " + b)[i..i + 4] != " AS "
  {
    var f := a + " as " + b;
    var n := |a|;
    var w := f[i..i + 4];
    assert w[0] == f[i] && w[1] == f[i + 1];
    if i < n {
      assert f[i] == a[i];
      assert w[0] != ' ';
    } else if i == n {
      assert f[i + 1] == 'a';
    } else if i < n + 4 {
      assert f[i] == " as "[i - n];
      if i == n + 3 {
        assert w[3] == f[n + 6] == b[2];
      }
    } else {
      assert f[i] == b[i - n - 4];
      assert w[0] != ' ';
    }
  }

  /** Text without c contains nothing that has c in it. */
  lemma AbsentCharNotContained(s: String, sub: String, c: char)
    requires c in sub && c !in s
    ensures !Contains(s, sub)
  {
    var j :| 0 <= j < |sub| && sub[j] == c;
    forall i | 0 <= i
      ensures !OccursAt(s, sub, i)
    {
      if i + |sub| <= |s| {
        assert s[i..i + |sub|][j] == s[i + j] != c;
      }
    }
  }

  const IndexErrorText: String := "IndexError: list index out of range"

  /** The entries of a Select list; any failing entry fails the list, and
      every failure is the same IndexError. */
  function SelectFields(fs: seq<String>): (r: Result<seq<String>>)
    ensures r.Success? ==> |r.value| == |fs|
    ensures r.Failure? <==> exists k :: 0 <= k < |fs| && SelectField(fs[k]).Failure?
  {
    if forall k :: 0 <= k < |fs| ==> SelectField(fs[k]).Success? then
      Success(seq(|fs|, k requires 0 <= k < |fs| && SelectField(fs[k]).Success? => SelectField(fs[k]).value))
    else Failure(IndexErrorText)
  }

  /** One entry of a Sort's order list: `sf['field']` raises KeyError when
      the field is missing; the order is ascending when it is missing. */
  function SortPart(sf: Models.SortField): Result<String> {
    var direction := if sf.order.GetOr("Ascending") == "Ascending" then "asc" else "desc";
    match sf.field
      case None => Failure(KeyErrorText)
      case Some(f) => Success(QuoteColumn(f) + " " + direction)
  }

  const KeyErrorText: String := "KeyError: 'field'"

  /** The entries of a Sort's order list; any entry without a field fails
      the list, and every failure is the same KeyError. */
  function SortParts(sfs: seq<Models.SortField>): (r: Result<seq<String>>)
    ensures r.Success? ==> |r.value| == |sfs|
    ensures r.Failure? <==> exists k :: 0 <= k < |sfs| && sfs[k].field.None?
  {
    if forall k :: 0 <= k < |sfs| ==> sfs[k].field.Some? then
      Success(seq(|sfs|, k requires 0 <= k < |sfs| && sfs[k].field.Some? => SortPart(sfs[k]).value))
    else Failure(KeyErrorText)
  }

  /** The selects a Union of n inputs joins with `union all`. */
  function UnionSelects(n: nat): (r: seq<String>)
    ensures |r| == n
  {
    seq(n, i requires 0 <= i < n => "select * from source_" + IntToString(i + 1))
  }

  function QuoteAll(cols: seq<String>): (r: seq<String>)
    ensures |r| == |cols| && forall k :: 0 <= k < |r| ==> r[k] == QuoteColumn(cols[k])
  {
    seq(|cols|, k requires 0 <= k < |cols| => QuoteColumn(cols[k]))
  }

  const RecordCount: String := "count(*) as \"record_count\""

  /** `_generate_transformation_sql`, by the tool's plugin name. */
  function TransformationSql(n: Models.Node, upstream: seq<Models.Node>): Result<SqlPlan> {
    var cte := SourceCte(|upstream|);
    var default := DefaultPlan(cte, n.pluginName);
    if n.pluginName == "Filter" then
      Success(FilterPlan(cte, ConvertExpression(if n.expression != [] then n.expression else "1=1")))
    else if n.pluginName == "Formula" || n.pluginName == "Multi-Field Formula" then
      if n.formulas != [] then
        Success(FormulaPlan(cte, seq(|n.formulas|, k requires 0 <= k < |n.formulas| => FormulaOutput(n.formulas[k]))))
      else Success(SelectAll(cte))
    else if n.pluginName == "Join" then
      var conditions := JoinConditions(n.joinKeys);
      Success(JoinPlan(Lower(if n.joinType != [] then n.joinType else "LEFT"),
                       if conditions == [] then "1=1" else Text.Join(conditions, " and ")))
    else if n.pluginName == "Summarize" then
      var quoted := QuoteAll(n.groupByFields);
      var parts := seq(|n.aggregations|, k requires 0 <= k < |n.aggregations| => AggregatePart(n.aggregations[k]));
      var groupList := Text.Join(quoted, ", ") + (if quoted != [] && parts != [] then ",\n        " else "");
      Success(SummarizePlan(cte, groupList,
                            if parts == [] then RecordCount else Text.Join(parts, ",\n        "),
                            if quoted == [] then "1" else Text.Join(quoted, ", ")))
    else if n.pluginName == "Union" then
      if |upstream| > 1 then Success(UnionPlan(UnionSelects(|upstream|))) else Success(SelectAll(cte))
    else if n.pluginName == "Select" then
      if n.selectedFields == [] then Success(default)
      else
        var kept := if |n.selectedFields| > 20 then n.selectedFields[..20] else n.selectedFields;
        match SelectFields(kept)
          case Failure(e) => Failure(e)
          case Success(fields) => Success(SelectPlan(cte, fields))
    else if n.pluginName == "Sort" then
      if n.sortFields == [] then Success(default)
      else
        match SortParts(n.sortFields)
          case Failure(e) => Failure(e)
          case Success(parts) => Success(SortPlan(cte, Text.Join(parts, ", ")))
    else Success(default)
  }

  /** Every plan that reads one CTE reads `source` when there is at most
      one upstream model and `source_1` otherwise. */
  lemma TransformationSource(n: Models.Node, upstream: seq<Models.Node>)
    requires TransformationSql(n, upstream).Success?
    ensures var p := TransformationSql(n, upstream).value;
      p.Source().Some? ==> (p.Source().value == "source" <==> |upstream| <= 1)
  {
  }

  /** Only Select and Sort can fail: a Select on its first 20 fields having
      a ` as ` that is not upper case, a Sort on an entry without a field. */
  lemma TransformationFailures(n: Models.Node, upstream: seq<Models.Node>)
    ensures TransformationSql(n, upstream).Failure? <==>
      || (n.pluginName == "Select" &&
          exists k :: 0 <= k < |n.selectedFields| && k < 20 && SelectField(n.selectedFields[k]).Failure?)
      || (n.pluginName == "Sort" && exists k :: 0 <= k < |n.sortFields| && n.sortFields[k].field.None?)
  {
    if n.pluginName == "Select" && n.selectedFields != [] {
      SelectFailures(n.selectedFields);
    }
  }

  lemma SelectFailures(fs: seq<String>)
    ensures var kept := if |fs| > 20 then fs[..20] else fs;
      SelectFields(kept).Failure? <==> exists k :: 0 <= k < |fs| && k < 20 && SelectField(fs[k]).Failure?
  {
    if |fs| > 20 {
      var kept := fs[..20];
      assert forall k :: 0 <= k < 20 ==> kept[k] == fs[k];
    }
  }

  /** A Join falls back to `1=1` exactly when no key has exactly one `=`. */
  lemma JoinFallback(n: Models.Node, upstream: seq<Models.Node>)
    requires n.pluginName == "Join"
    ensures TransformationSql(n, upstream).value.condition == "1=1" <==>
      forall k :: 0 <= k < |n.joinKeys| ==> multiset(n.joinKeys[k])['='] != 1
  {
    forall k | 0 <= k < |n.joinKeys|
      ensures |Split(n.joinKeys[k], '=')| == 2 <==> multiset(n.joinKeys[k])['='] == 1
    {
      SplitCount(n.joinKeys[k], '=');
    }
    var conditions := JoinConditions(n.joinKeys);
    if conditions != [] {
      JoinStartsWithFirst(conditions, " and ");
      var j := Text.Join(conditions, " and ");
      assert j[..|conditions[0]|] == conditions[0];
      assert conditions[0][..9] == "source_1.";
      assert j[0] == 's';
    }
  }

  /** A Summarize without group-by fields groups by 1, and one without
      aggregations counts the records. */
  lemma SummarizeDefaults(n: Models.Node, upstream: seq<Models.Node>)
    requires n.pluginName == "Summarize"
    ensures var p := TransformationSql(n, upstream).value;
      && (p.groupBy == "1" <==> n.groupByFields == [])
      && (n.groupByFields == [] ==> p.groupList == [])
      && (n.aggregations == [] ==> p.aggregates == RecordCount)
      && (n.aggregations != [] && n.groupByFields != [] ==> EndsWith(p.groupList, ",\n        "))
  {
    var quoted := QuoteAll(n.groupByFields);
    if quoted != [] {
      JoinStartsWithFirst(quoted, ", ");
      var j := Text.Join(quoted, ", ");
      var q := quoted[0];
      assert q == "*" || q[0] == '"';
      assert j[..|q|] == q;
      assert j[0] == q[0];
      if n.aggregations != [] {
        EndsWithAppend(j, ",\n        ");
      }
    }
  }

  /** A Union of n > 1 inputs selects from `source_1` to `source_n`. */
  lemma UnionSelectsAll(n: Models.Node, upstream: seq<Models.Node>)
    requires n.pluginName == "Union" && |upstream| > 1
    ensures var p := TransformationSql(n, upstream).value;
      p.UnionPlan? && |p.selects| == |upstream|
      && forall i :: 0 <= i < |upstream| ==> p.selects[i] == "select * from source_" + IntToString(i + 1)
  {
  }

  /** A Select keeps its first 20 fields at most. */
  lemma SelectKeepsTwenty(n: Models.Node, upstream: seq<Models.Node>)
    requires n.pluginName == "Select" && n.selectedFields != []
    requires TransformationSql(n, upstream).Success?
    ensures var p := TransformationSql(n, upstream).value;
      p.SelectPlan? && |p.fields| <= 20
      && |p.fields| == if |n.selectedFields| > 20 then 20 else |n.selectedFields|
  {
  }

  /** `s.split(sep)[0]` where sep, written in upper case, is found
      ignoring case. */
  function BeforeFirstAnyCase(s: String, sep: String): String
    requires sep != []
  {
    var e := Find(Upper(s), sep, 0);
    if e == -1 then s else s[..e]
  }

  /** The Select entry as evidently intended: ` AS ` is found ignoring
      case both for the test and for the split. */
  function SelectFieldCorrected(f: String): String {
    var k := Find(Upper(f), " AS ", 0);
    if k == -1 then QuoteColumn(Strip(f))
    else QuoteColumn(Strip(f[..k])) + " as " + QuoteColumn(Strip(BeforeFirstAnyCase(f[k + 4..], " AS ")))
  }

  /** `sub in s` is `s.find(sub) != -1`. */
  lemma ContainsFind(s: String, sub: String)
    requires sub != []
    ensures Contains(s, sub) <==> Find(s, sub, 0) != -1
  {
  }

  lemma UpperOfNoLower(s: String)
    requires forall i :: 0 <= i < |s| ==> !IsLowerChar(s[i])
    ensures Upper(s) == s
  {
  }

  /** Upper case is left alone by Upper, suffixes included. */
  lemma UpperOfNoLowerSuffix(s: String, k: nat)
    requires forall i :: 0 <= i < |s| ==> !IsLowerChar(s[i])
    requires k <= |s|
    ensures Upper(s[k..]) == s[k..]
  {
    var t := s[k..];
    assert forall i :: 0 <= i < |t| ==> t[i] == s[k + i];
    UpperOfNoLower(t);
  }

  /** The corrected entry never fails, and agrees with the as-written one
      wherever the field has no lower-case letter, so that case cannot
      matter. */
  lemma SelectFieldCorrectedAgrees(f: String)
    requires forall i :: 0 <= i < |f| ==> !IsLowerChar(f[i])
    ensures SelectField(f) == Success(SelectFieldCorrected(f))
  {
    UpperOfNoLower(f);
    ContainsFind(f, " AS ");
    var k := Find(f, " AS ", 0);
    if k == -1 {
      assert SelectField(f) == Success(QuoteColumn(Strip(f)));
    } else {
      UpperOfNoLowerSuffix(f, k + 4);
      var alias := BeforeFirst(f[k + 4..], " AS ");
      assert BeforeFirstAnyCase(f[k + 4..], " AS ") == alias;
      assert SecondPiece(f, " AS ") == Some(alias);
      assert SelectFieldCorrected(f) == QuoteColumn(Strip(f[..k])) + " as " + QuoteColumn(Strip(alias));
      assert SelectField(f) == Success(QuoteColumn(Strip(f[..k])) + " as " + QuoteColumn(Strip(alias)));
    }
  }

  /** The first occurrence found is the one at k when none comes before. */
  lemma FindFirst(s: String, sub: String, k: nat)
    requires sub != [] && OccursAt(s, sub, k)
    requires forall j :: 0 <= j < k ==> !OccursAt(s, sub, j)
    ensures Find(s, sub, 0) == k
  {
  }

  lemma StripWord(s: String)
    requires IsWord(s)
    ensures Strip(s) == s
  {
  }

  /** `a as b` gets its alias, for any names a and b. */
  lemma SelectFieldCorrectedAlias(a: String, b: String)
    requires IsWord(a) && IsWord(b)
    ensures SelectFieldCorrected(a + " as " + b) == QuoteColumn(a) + " as " + QuoteColumn(b)
  {
    var f := a + " as " + b;
    var n := |a|;
    var up := Upper(f);
    assert f[n..n + 4] == " as ";
    assert up[n..n + 4] == " AS ";
    forall j | 0 <= j < n
      ensures !OccursAt(up, " AS ", j)
    {
      assert up[j] == UpperChar(a[j]) != ' ';
    }
    FindFirst(up, " AS ", n);
    assert f[..n] == a && f[n + 4..] == b;
    AbsentCharNotContained(Upper(b), " AS ", ' ');
    ContainsFind(Upper(b), " AS ");
    StripWord(a);
    StripWord(b);
  }
  // ---------------------------------------------------------------------
  // Sources
  // ---------------------------------------------------------------------

  /** A source table of the dbt project. */
  datatype SourceInfo = SourceInfo(
    schema: String,
    table: String,
    columns: seq<String>,
    description: String,
    sourcePath: String)

  type Sources = map<String, map<String, SourceInfo>>

  /** The entry `_collect_sources` makes for a node whose table is new. */
  function NewSource(n: Models.Node, sqlColumns: String -> seq<String>): (r: SourceInfo)
    ensures r.schema == SchemaName(n) && r.table == TableName(n)
    ensures r.columns == ColumnsOf(n, sqlColumns)
  {
    SourceInfo(SchemaName(n), TableName(n), ColumnsOf(n, sqlColumns),
      if n.annotation != [] then n.annotation else n.DisplayName(),
      if n.sourcePath != [] then n.sourcePath else n.tableName)
  }

  /** (schema, table) is recorded. */
  predicate Has(m: Sources, schema: String, table: String) {
    schema in m && table in m[schema]
  }

  /** One node of `_collect_sources`: a new table is recorded; a known one
      keeps its entry, with the new columns merged in without duplicates. */
  function AddSource(m: Sources, n: Models.Node, sqlColumns: String -> seq<String>): Sources {
    var schema := SchemaName(n);
    var table := TableName(n);
    var tables := if schema in m then m[schema] else map[];
    m[schema := tables[table := Entry(m, n, sqlColumns)]]
  }

  /** The entry a node leaves for its own table. */
  function Entry(m: Sources, n: Models.Node, sqlColumns: String -> seq<String>): (r: SourceInfo)
    ensures Has(m, SchemaName(n), TableName(n)) ==>
      var e := m[SchemaName(n)][TableName(n)];
      r == e.(columns := Seqs.Dedup(e.columns + ColumnsOf(n, sqlColumns)))
    ensures !Has(m, SchemaName(n), TableName(n)) ==> r == NewSource(n, sqlColumns)
  {
    var schema := SchemaName(n);
    var table := TableName(n);
    if schema in m && table in m[schema] then
      m[schema][table].(columns := Seqs.Dedup(m[schema][table].columns + ColumnsOf(n, sqlColumns)))
    else NewSource(n, sqlColumns)
  }

  /** Making room for a schema and then setting one of its tables is the
      single update `AddSource` describes. */
  lemma NestedUpdate(m: Sources, start: Sources, schema: String, table: String, e: SourceInfo)
    requires start == if schema in m then m else m[schema := map[]]
    ensures start[schema := start[schema][table := e]]
      == m[schema := (if schema in m then m[schema] else map[])[table := e]]
  {
  }

  /** The node's own table is recorded with that entry. */
  lemma AddSourceOwn(m: Sources, n: Models.Node, sqlColumns: String -> seq<String>)
    ensures var r := AddSource(m, n, sqlColumns);
      Has(r, SchemaName(n), TableName(n)) && r[SchemaName(n)][TableName(n)] == Entry(m, n, sqlColumns)
  {
  }

  /** Every other (schema, table) is recorded as before. */
  lemma AddSourceOthers(m: Sources, n: Models.Node, sqlColumns: String -> seq<String>, s: String, t: String)
    requires s != SchemaName(n) || t != TableName(n)
    ensures var r := AddSource(m, n, sqlColumns);
      (Has(r, s, t) <==> Has(m, s, t)) && (Has(m, s, t) ==> r[s][t] == m[s][t])
  {
    var r := AddSource(m, n, sqlColumns);
    if s == SchemaName(n) {
      assert t != TableName(n);
      assert s in r;
    } else {
      assert (s in r <==> s in m) && (s in m ==> r[s] == m[s]);
    }
  }

  /** The nodes in turn. */
  function Collected(m: Sources, nodes: seq<Models.Node>, sqlColumns: String -> seq<String>): Sources {
    if nodes == [] then m
    else AddSource(Collected(m, nodes[..|nodes| - 1], sqlColumns), nodes[|nodes| - 1], sqlColumns)
  }

  /** The source nodes of the workflows, workflow by workflow. */
  function SourceNodes(workflows: seq<Models.Workflow>): seq<Models.Node> {
    if workflows == [] then []
    else SourceNodes(workflows[..|workflows| - 1]) + workflows[|workflows| - 1].sources
  }

  /** The nodes naming (schema, table), in order. */
  function NodesFor(nodes: seq<Models.Node>, schema: String, table: String): (r: seq<Models.Node>)
    ensures forall k :: 0 <= k < |r| ==> SchemaName(r[k]) == schema && TableName(r[k]) == table
  {
    if nodes == [] then []
    else
      var x := nodes[|nodes| - 1];
      NodesFor(nodes[..|nodes| - 1], schema, table) + (if SchemaName(x) == schema && TableName(x) == table then [x] else [])
  }

  /** The columns of the nodes, one after the other. */
  function AllColumns(nodes: seq<Models.Node>, sqlColumns: String -> seq<String>): seq<String> {
    if nodes == [] then []
    else AllColumns(nodes[..|nodes| - 1], sqlColumns) + ColumnsOf(nodes[|nodes| - 1], sqlColumns)
  }

  /** What the collection records for (schema, table), starting from no
      sources: an entry exactly when some node names it; the first such
      node's description and path; the first node's columns as they are
      when it is the only one, and otherwise the columns of all of them
      with the duplicates removed, first occurrences kept. */
  lemma {:induction false} CollectedEntry(nodes: seq<Models.Node>, sqlColumns: String -> seq<String>, schema: String, table: String)
    ensures var m, ns := Collected(map[], nodes, sqlColumns), NodesFor(nodes, schema, table);
      && (Has(m, schema, table) <==> ns != [])
      && (ns != [] ==> m[schema][table].description == NewSource(ns[0], sqlColumns).description
                       && m[schema][table].sourcePath == NewSource(ns[0], sqlColumns).sourcePath
                       && m[schema][table].schema == schema && m[schema][table].table == table)
      && (|ns| == 1 ==> m[schema][table].columns == ColumnsOf(ns[0], sqlColumns))
      && (|ns| >= 2 ==> m[schema][table].columns == Seqs.Dedup(AllColumns(ns, sqlColumns)))
    decreases |nodes|
  {
    if nodes != [] {
      var init := nodes[..|nodes| - 1];
      var x := nodes[|nodes| - 1];
      CollectedEntry(init, sqlColumns, schema, table);
      var m0 := Collected(map[], init, sqlColumns);
      var ns0 := NodesFor(init, schema, table);
      if SchemaName(x) != schema || TableName(x) != table {
        AddSourceOthers(m0, x, sqlColumns, schema, table);
        assert NodesFor(nodes, schema, table) == ns0;
      } else {
        AddSourceOwn(m0, x, sqlColumns);
        var ns := ns0 + [x];
        assert NodesFor(nodes, schema, table) == ns;
        assert ns[..|ns| - 1] == ns0;
        assert AllColumns(ns, sqlColumns) == AllColumns(ns0, sqlColumns) + ColumnsOf(x, sqlColumns);
        if |ns0| == 1 {
          AllColumnsOne(ns0, sqlColumns);
        } else if |ns0| >= 2 {
          Seqs.DedupMerge(AllColumns(ns0, sqlColumns), ColumnsOf(x, sqlColumns));
        }
      }
    }
  }

  lemma AllColumnsOne(ns: seq<Models.Node>, sqlColumns: String -> seq<String>)
    requires |ns| == 1
    ensures AllColumns(ns, sqlColumns) == ColumnsOf(ns[0], sqlColumns)
  {
    assert |ns[..0]| == 0;
  }

  lemma CollectedPrefix(m: Sources, nodes: seq<Models.Node>, i: nat, sqlColumns: String -> seq<String>)
    requires i < |nodes|
    ensures Collected(m, nodes[..i + 1], sqlColumns) == AddSource(Collected(m, nodes[..i], sqlColumns), nodes[i], sqlColumns)
  {
    assert nodes[..i + 1][..i] == nodes[..i];
  }

  lemma CollectedWhole(m: Sources, nodes: seq<Models.Node>, sqlColumns: String -> seq<String>)
    ensures Collected(m, nodes[..|nodes|], sqlColumns) == Collected(m, nodes, sqlColumns)
  {
    assert nodes[..|nodes|] == nodes;
  }

  /** Collecting a + b is collecting a, then b. */
  lemma {:induction false} CollectedConcat(m: Sources, a: seq<Models.Node>, b: seq<Models.Node>, sqlColumns: String -> seq<String>)
    ensures Collected(m, a + b, sqlColumns) == Collected(Collected(m, a, sqlColumns), b, sqlColumns)
    decreases |b|
  {
    if b == [] {
      assert a + b == a;
    } else {
      var b' := b[..|b| - 1];
      assert (a + b)[..|a + b| - 1] == a + b';
      assert (a + b)[|a + b| - 1] == b[|b| - 1];
      CollectedConcat(m, a, b', sqlColumns);
    }
  }

  lemma CollectedWorkflow(m: Sources, workflows: seq<Models.Workflow>, w: nat, sqlColumns: String -> seq<String>)
    requires w < |workflows|
    ensures Collected(m, SourceNodes(workflows[..w + 1]), sqlColumns)
         == Collected(Collected(m, SourceNodes(workflows[..w]), sqlColumns), workflows[w].sources, sqlColumns)
  {
    assert workflows[..w + 1][..w] == workflows[..w];
    CollectedConcat(m, SourceNodes(workflows[..w]), workflows[w].sources, sqlColumns);
  }

  lemma CollectedWorkflows(m: Sources, workflows: seq<Models.Workflow>, sqlColumns: String -> seq<String>)
    ensures Collected(m, SourceNodes(workflows[..|workflows|]), sqlColumns) == Collected(m, SourceNodes(workflows), sqlColumns)
  {
    assert workflows[..|workflows|] == workflows;
  }

  /** Reading one more character. */
  lemma SqlPiecesSnoc(s: String, c: char)
    ensures ParenDepth(s + [c]) == ParenDepth(s) + (if c == '(' then 1 else if c == ')' then -1 else 0)
    ensures var p := SqlPieces(s);
      SqlPieces(s + [c]) == if c == ',' && ParenDepth(s) == 0 then p + [[]] else p[..|p| - 1] + [p[|p| - 1] + [c]]
  {
    assert (s + [c])[..|s|] == s;
  }

  /** The generator's state: the sources found so far, by schema and table. */
  class DbtGenerator {
    var sources: Sources

    constructor()
      ensures sources == map[]
    {
      sources := map[];
    }

    /** `_split_sql_columns` */
    static method SplitSqlColumns(clause: String) returns (parts: seq<String>)
      ensures parts == SqlColumns(clause)
    {
      parts := [];
      var current: String := [];
      var depth := 0;
      for i := 0 to |clause|
        invariant parts + [current] == SqlPieces(clause[..i])
        invariant depth == ParenDepth(clause[..i])
      {
        var c := clause[i];
        assert clause[..i + 1] == clause[..i] + [c];
        SqlPiecesSnoc(clause[..i], c);
        assert (parts + [current])[..|parts|] == parts;
        if c == '(' {
          depth := depth + 1;
          current := current + [c];
        } else if c == ')' {
          depth := depth - 1;
          current := current + [c];
        } else if c == ',' && depth == 0 {
          parts := parts + [current];
          current := [];
        } else {
          current := current + [c];
        }
      }
      assert clause[..|clause|] == clause;
      if current != [] {
        parts := parts + [current];
      } else {
        assert (parts + [current])[..|parts|] == parts;
      }
    }

    /** The selected-fields loop. */
    static method SelectedFieldColumns(fields: seq<String>) returns (columns: seq<String>)
      ensures columns == SelectedColumns(fields)
    {
      columns := [];
      for i := 0 to |fields|
        invariant columns == SelectedColumns(fields[..i])
      {
        assert fields[..i + 1][..i] == fields[..i];
        var field := fields[i];
        var col;
        if Contains(Upper(field), " AS ") {
          col := StripChar(Strip(BeforeFirst(field, " AS ")), '"');
        } else {
          col := StripChar(Strip(field), '"');
        }
        if col != [] && col != "*" {
          columns := columns + [col];
        }
      }
      assert fields[..|fields|] == fields;
    }

    /** The aggregation loop. */
    static method AddAggregationColumns(start: seq<String>, aggs: seq<Models.Aggregation>) returns (columns: seq<String>)
      ensures columns == AddAll(start, AggregationNames(aggs))
    {
      columns := start;
      for i := 0 to |aggs|
        invariant columns == AddAll(start, AggregationNames(aggs[..i]))
      {
        assert aggs[..i + 1][..i] == aggs[..i];
        var field := aggs[i].field.GetOr("");
        var output := aggs[i].outputName.GetOr(field);
        var before := columns;
        if field != [] && field != "*" && field !in columns {
          columns := columns + [field];
        }
        var mid := columns;
        if output != [] && output !in columns {
          columns := columns + [output];
        }
        var first := if field == "*" then "" else field;
        assert mid == AddAbsent(before, first);
        AggregationStep(start, aggs, i, first, output);
      }
      assert aggs[..|aggs|] == aggs;
    }

    /** The join-key loop. */
    static method AddJoinKeyColumns(start: seq<String>, keys: seq<String>) returns (columns: seq<String>)
      ensures columns == AddAll(start, JoinKeyNames(keys))
    {
      columns := start;
      for i := 0 to |keys|
        invariant columns == AddAll(start, JoinKeyNames(keys[..i]))
      {
        assert keys[..i + 1][..i] == keys[..i];
        var parts := Split(keys[i], '=');
        columns := AddStrippedColumns(columns, parts);
        AddAllConcat(start, JoinKeyNames(keys[..i]), Formula.StripEach(parts));
      }
      assert keys[..|keys|] == keys;
    }

    /** The inner loop over the sides of one join key. */
    static method AddStrippedColumns(start: seq<String>, parts: seq<String>) returns (columns: seq<String>)
      ensures columns == AddAll(start, Formula.StripEach(parts))
    {
      columns := start;
      for j := 0 to |parts|
        invariant columns == AddAll(start, Formula.StripEach(parts[..j]))
      {
        var col := Strip(parts[j]);
        if col != [] && col !in columns {
          columns := columns + [col];
        }
        assert parts[..j + 1] == parts[..j] + [parts[j]];
        Formula.StripEachSnoc(parts[..j], parts[j]);
        AddAllSnoc(start, Formula.StripEach(parts[..j]), col);
      }
      assert parts[..|parts|] == parts;
    }

    /** The formula loop. */
    static method AddFormulaColumns(start: seq<String>, formulas: seq<Models.FormulaSpec>) returns (columns: seq<String>)
      ensures columns == AddAll(start, FormulaFieldNames(formulas))
    {
      columns := start;
      for i := 0 to |formulas|
        invariant columns == AddAll(start, FormulaFieldNames(formulas[..i]))
      {
        assert formulas[..i + 1][..i] == formulas[..i];
        var field := formulas[i].field.GetOr("");
        if field != [] && field !in columns {
          columns := columns + [field];
        }
        AddAllSnoc(start, FormulaFieldNames(formulas[..i]), field);
      }
      assert formulas[..|formulas|] == formulas;
    }

    /** `_extract_columns_from_node`; `_extract_columns_from_sql` is the
        parameter sqlColumns. */
    static method ExtractColumnsFromNode(n: Models.Node, sqlColumns: String -> seq<String>) returns (columns: seq<String>)
      ensures columns == ColumnsOf(n, sqlColumns)
    {
      columns := SelectedFieldColumns(n.selectedFields);
      columns := columns + Seqs.Without(n.groupByFields, columns);
      columns := AddAggregationColumns(columns, n.aggregations);
      columns := AddJoinKeyColumns(columns, n.joinKeys);
      columns := AddFormulaColumns(columns, n.formulas);
      if n.sqlQuery != [] {
        var sqlCols := sqlColumns(n.sqlQuery);
        columns := columns + Seqs.Without(sqlCols, columns);
      }
    }

    /** The body of `_collect_sources` for one node. */
    method AddSourceNode(node: Models.Node, sqlColumns: String -> seq<String>)
      modifies this
      ensures sources == AddSource(old(sources), node, sqlColumns)
    {
      var schema := SchemaName(node);
      var table := TableName(node);
      if schema !in sources {
        sources := sources[schema := map[]];
      }
      ghost var start := sources;
      var columns := ExtractColumnsFromNode(node, sqlColumns);
      var info := SourceInfo(schema, table, columns,
        if node.annotation != [] then node.annotation else node.DisplayName(),
        if node.sourcePath != [] then node.sourcePath else node.tableName);
      var entry;
      if table in sources[schema] {
        var existing := sources[schema][table];
        entry := existing.(columns := Seqs.Dedup(existing.columns + columns));
      } else {
        entry := info;
      }
      assert entry == Entry(old(sources), node, sqlColumns);
      sources := sources[schema := sources[schema][table := entry]];
      NestedUpdate(old(sources), start, schema, table, entry);
    }

    /** `_collect_sources`: every source node of every workflow, in order. */
    method CollectSources(workflows: seq<Models.Workflow>, sqlColumns: String -> seq<String>)
      modifies this
      ensures sources == Collected(old(sources), SourceNodes(workflows), sqlColumns)
    {
      for w := 0 to |workflows|
        invariant sources == Collected(old(sources), SourceNodes(workflows[..w]), sqlColumns)
      {
        var nodes := workflows[w].sources;
        ghost var before := sources;
        for i := 0 to |nodes|
          invariant sources == Collected(before, nodes[..i], sqlColumns)
        {
          AddSourceNode(nodes[i], sqlColumns);
          CollectedPrefix(before, nodes, i, sqlColumns);
        }
        CollectedWhole(before, nodes, sqlColumns);
        CollectedWorkflow(old(sources), workflows, w, sqlColumns);
      }
      CollectedWorkflows(old(sources), workflows, sqlColumns);
    }
  }
}
