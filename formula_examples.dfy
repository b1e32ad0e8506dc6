/** Two conversions of formula_converter.py worked through against the
    function table: `Trim([Name])`, converted in one replacement, and
    `FileExists(x)`, whose conversion keeps the call and so runs the loop to
    its cap. */
module FormulaExamples {
  import opened Wrappers
  import opened Text
  import opened FormulaTables
  import opened Formula
  import Dicts

  /** No key longer than n has a space n + 1 places from its end. */
  predicate KeysUnspacedAt(table: Table, n: nat) {
    forall j :: 0 <= j < |table| ==> UnspacedAt(table[j].0, n)
  }

  /** A key longer than n has no space n + 1 places from its end. */
  predicate UnspacedAt(k: String, n: nat) {
    |k| > n ==> k[|k| - n - 1] != ' '
  }

  /** A key spelling, ignoring case, text with a space has the space too. */
  lemma SpelledSpace(key: String, t: String, k: nat)
    requires Lower(t) == Lower(key) && k < |t| && t[k] == ' '
    ensures key[k] == ' '
  {
    assert LowerChar(key[k]) == Lower(key)[k];
  }

  /** A match of `\bkey\s*\(` that ends at the `(` at p, where the word
      from i to p comes right before p, is that word. */
  lemma SpelledWord(s: String, key: String, start: nat, i: nat, p: nat)
    requires i < p < |s| && start + |key| <= p
    requires start == 0 || !IsWordChar(s[start - 1])
    requires Lower(s[start..start + |key|]) == Lower(key)
    requires forall k :: start + |key| <= k < p ==> IsSpace(s[k])
    requires forall m :: i <= m < p ==> IsWordChar(s[m])
    requires i == 0 || (s[i - 1] == ' ' && UnspacedAt(key, p - i))
    ensures start == i && start + |key| == p
  {
    assert !IsSpace(s[p - 1]);
    if start < i {
      SpelledSpace(key, s[start..p], i - 1 - start);
    }
  }

  /** In a text whose only `(` directly follows the word from i to p, and in
      which that word starts the text or follows a space no key can spell
      there, every call the loop finds is a call of that word. */
  lemma SoleCallSite(table: Table, s: String, i: nat, p: nat, c: Call)
    requires i < p < |s| && s[p] == '('
    requires forall m :: 0 <= m < |s| && m != p ==> s[m] != '('
    requires forall m :: i <= m < p ==> IsWordChar(s[m])
    requires i == 0 || (s[i - 1] == ' ' && KeysUnspacedAt(table, p - i))
    requires c in Calls(table, s)
    ensures c.start == i && c.open == p && Lower(c.key) == Lower(s[i..p])
  {
    CallSpelling(table, s, c);
    assert c.open == p;
    var j :| 0 <= j < |table| && table[j].0 == c.key;
    assert i == 0 || UnspacedAt(c.key, p - i);
    SpelledWord(s, c.key, c.start, i, p);
  }

  /** What a listed call tells about the text: a table key spelled after a
      word boundary, then white space up to the `(`. */
  lemma CallSpelling(table: Table, s: String, c: Call)
    requires c in Calls(table, s)
    ensures c.start + |c.key| <= c.open < |s| && s[c.open] == '('
    ensures c.start == 0 || !IsWordChar(s[c.start - 1])
    ensures Lower(s[c.start..c.start + |c.key|]) == Lower(c.key)
    ensures forall k :: c.start + |c.key| <= k < c.open ==> IsSpace(s[k])
    ensures exists j :: 0 <= j < |table| && table[j].0 == c.key
  {
    CallsAreCalls(table, s, c);
    CallOpenAtMatches(s, c.key, c.start);
  }

  /** What tells the keys Trim and FileExists apart from every other key,
      and the space check SoleCallSite needs for a ten-letter word. */
  predicate KeyShape(e: (String, FunctionSpec)) {
    UnspacedAt(e.0, 10) && TellsApart(e)
  }

  predicate TellsApart(e: (String, FunctionSpec)) {
    && (|e.0| == 10 && LowerChar(e.0[0]) == 'f' && LowerChar(e.0[4]) == 'e' ==> e == ("FileExists", FunctionSpec(None, 1)))
    && (|e.0| == 4 && LowerChar(e.0[0]) == 't' ==> e == ("Trim", FunctionSpec(Some("TRIM"), 1)))
  }

  lemma StringFunctionsShaped()
    ensures forall j :: 0 <= j < |StringFunctions| ==> KeyShape(StringFunctions[j])
  {
    forall j | 0 <= j < |StringFunctions| ensures KeyShape(StringFunctions[j]) {
      assert j == 0 || j == 1 || j == 2 || j == 3 || j == 4 || j == 5 || j == 6 || j == 7 || j == 8 || j == 9 || j == 10 || j == 11 || j == 12 || j == 13 || j == 14 || j == 15 || j == 16 || j == 17 || j == 18 || j == 19 || j == 20 || j == 21 || j == 22 || j == 23;
    }
  }

  lemma MathFunctionsShaped()
    ensures forall j :: 0 <= j < |MathFunctions| ==> KeyShape(MathFunctions[j])
  {
    forall j | 0 <= j < |MathFunctions| ensures KeyShape(MathFunctions[j]) {
      assert j == 0 || j == 1 || j == 2 || j == 3 || j == 4 || j == 5 || j == 6 || j == 7 || j == 8 || j == 9 || j == 10 || j == 11 || j == 12 || j == 13 || j == 14 || j == 15 || j == 16 || j == 17 || j == 18 || j == 19 || j == 20 || j == 21 || j == 22 || j == 23;
    }
  }

  lemma MinMaxFunctionsShaped()
    ensures forall j :: 0 <= j < |MinMaxFunctions| ==> KeyShape(MinMaxFunctions[j])
  {
    forall j | 0 <= j < |MinMaxFunctions| ensures KeyShape(MinMaxFunctions[j]) {
      assert j == 0 || j == 1;
    }
  }

  lemma ConversionFunctionsShaped()
    ensures forall j :: 0 <= j < |ConversionFunctions| ==> KeyShape(ConversionFunctions[j])
  {
    forall j | 0 <= j < |ConversionFunctions| ensures KeyShape(ConversionFunctions[j]) {
      assert j == 0 || j == 1 || j == 2 || j == 3 || j == 4 || j == 5 || j == 6 || j == 7 || j == 8;
    }
  }

  lemma DateTimeFunctionsShaped()
    ensures forall j :: 0 <= j < |DateTimeFunctions| ==> KeyShape(DateTimeFunctions[j])
  {
    forall j | 0 <= j < |DateTimeFunctions| ensures KeyShape(DateTimeFunctions[j]) {
      assert j == 0 || j == 1 || j == 2 || j == 3 || j == 4 || j == 5 || j == 6 || j == 7 || j == 8 || j == 9 || j == 10 || j == 11 || j == 12 || j == 13 || j == 14 || j == 15 || j == 16 || j == 17 || j == 18;
    }
  }

  lemma ConditionalFunctionsShaped()
    ensures forall j :: 0 <= j < |ConditionalFunctions| ==> KeyShape(ConditionalFunctions[j])
  {
    forall j | 0 <= j < |ConditionalFunctions| ensures KeyShape(ConditionalFunctions[j]) {
      assert j == 0 || j == 1 || j == 2 || j == 3 || j == 4 || j == 5 || j == 6 || j == 7 || j == 8;
    }
  }

  lemma RegexFunctionsShaped()
    ensures forall j :: 0 <= j < |RegexFunctions| ==> KeyShape(RegexFunctions[j])
  {
    forall j | 0 <= j < |RegexFunctions| ensures KeyShape(RegexFunctions[j]) {
      assert j == 0 || j == 1 || j == 2;
    }
  }

  lemma SpatialFunctionsShaped()
    ensures forall j :: 0 <= j < |SpatialFunctions| ==> KeyShape(SpatialFunctions[j])
  {
    forall j | 0 <= j < |SpatialFunctions| ensures KeyShape(SpatialFunctions[j]) {
      assert j == 0 || j == 1;
    }
  }

  lemma FinanceFunctionsShaped()
    ensures forall j :: 0 <= j < |FinanceFunctions| ==> KeyShape(FinanceFunctions[j])
  {
    forall j | 0 <= j < |FinanceFunctions| ensures KeyShape(FinanceFunctions[j]) {
      assert j == 0;
    }
  }

  lemma FileFunctionsShaped()
    ensures forall j :: 0 <= j < |FileFunctions| ==> KeyShape(FileFunctions[j])
  {
    forall j | 0 <= j < |FileFunctions| ensures KeyShape(FileFunctions[j]) {
      assert j == 0 || j == 1 || j == 2 || j == 3;
    }
  }

  /** Only FileExists spells `fileexists`, and only Trim spells `trim`,
      ignoring case; no key has a space eleven places from its end. */
  lemma FunctionTableKeys()
    ensures FunctionTable[0] == ("Trim", FunctionSpec(Some("TRIM"), 1))
    ensures FunctionTable[93] == ("FileExists", FunctionSpec(None, 1))
    ensures KeysUnspacedAt(FunctionTable, 10)
    ensures forall j :: 0 <= j < |FunctionTable| && Lower(FunctionTable[j].0) == "fileexists" ==>
      FunctionTable[j] == ("FileExists", FunctionSpec(None, 1))
    ensures forall j :: 0 <= j < |FunctionTable| && Lower(FunctionTable[j].0) == "trim" ==>
      FunctionTable[j] == ("Trim", FunctionSpec(Some("TRIM"), 1))
  {
    StringFunctionsShaped();
    MathFunctionsShaped();
    MinMaxFunctionsShaped();
    ConversionFunctionsShaped();
    DateTimeFunctionsShaped();
    ConditionalFunctionsShaped();
    RegexFunctionsShaped();
    SpatialFunctionsShaped();
    FinanceFunctionsShaped();
    FileFunctionsShaped();
    assert forall j :: 0 <= j < |FunctionTable| ==> KeyShape(FunctionTable[j]);
    forall j | 0 <= j < |FunctionTable| && Lower(FunctionTable[j].0) == "fileexists"
      ensures FunctionTable[j] == ("FileExists", FunctionSpec(None, 1))
    {
      var k := FunctionTable[j].0;
      assert LowerChar(k[0]) == Lower(k)[0] && LowerChar(k[4]) == Lower(k)[4];
    }
    forall j | 0 <= j < |FunctionTable| && Lower(FunctionTable[j].0) == "trim"
      ensures FunctionTable[j] == ("Trim", FunctionSpec(Some("TRIM"), 1))
    {
      var k := FunctionTable[j].0;
      assert LowerChar(k[0]) == Lower(k)[0];
    }
  }

  /** A key that no other key spells, ignoring case, resolves to its entry. */
  lemma ResolvesSole(table: Table, name: String, spec: FunctionSpec, j: nat)
    requires name != [] && j < |table| && table[j] == (name, spec)
    requires forall i :: 0 <= i < |table| && Lower(table[i].0) == Lower(name) ==> table[i] == (name, spec)
    ensures Resolves(table, name, spec)
  {
    var names := LowerNames(table);
    assert names[j] == (Lower(name), name);
    var key := Dicts.Get(names, Lower(name)).value;
    var i :| 0 <= i < |names| && names[i] == (Lower(name), key);
    assert table[i] == (name, spec);
    var found := Dicts.Get(table, name).value;
    var k :| 0 <= k < |table| && table[k] == (name, found);
  }

  /** A call of a field, `f([name])`, reaches the loop as `f("name")`. */
  lemma PrepareFieldCall(f: String, name: String)
    requires f != [] && !IsSpace(f[0]) && '[' !in f
    requires name != [] && ']' !in name
    requires OperatorFree(f) && OperatorFree(name)
    ensures Prepare(f + "([" + name + "])") == f + "(\"" + name + "\")"
  {
    var s := f + "([" + name + "])";
    assert TrimSpaceStart(s) == s && TrimSpaceEnd(s) == s;
    assert s == (f + "(") + "[" + name + "]" + ")";
    QuoteFieldsSegment(f + "(", name, ")");
    QuoteFieldsPlain(")");
    var q := f + "(\"" + name + "\")";
    assert (f + "(") + "\"" + name + "\"" + ")" == q;
    assert OperatorFree(q);
    OperatorsAbsent(q);
  }

  /** Text without `=`, `&`, `|` or `!`. */
  predicate OperatorFree(s: String) {
    '=' !in s && '&' !in s && '|' !in s && '!' !in s
  }

  /** Text without an operator character has no operator to rewrite. */
  lemma OperatorsAbsent(s: String)
    requires OperatorFree(s)
    ensures ReplaceOperators(s) == s
  {
    ReplaceAbsent(s, "==", "=");
    ReplaceAbsent(s, "&&", " AND ");
    ReplaceAbsent(s, "||", " OR ");
    ReplaceAbsent(s, "!=", "<>");
    ReplaceAbsent(s, "!", " NOT ");
  }

  /** `Trim([Name])` reaches the loop as `Trim("Name")`. */
  lemma PrepareTrim()
    ensures Prepare("Trim([Name])") == "Trim(\"Name\")"
  {
    assert "Trim" + "([" + "Name" + "])" == "Trim([Name])";
    assert "Trim" + "(\"" + "Name" + "\")" == "Trim(\"Name\")";
    PrepareFieldCall("Trim", "Name");
  }

  /** The shape SoleCallSite needs: the only `(` is at p, right after the
      word from i, which starts the text or follows a space no key can
      spell there. */
  predicate OneCallShape(table: Table, s: String, i: nat, p: nat) {
    && i < p < |s| && s[p] == '('
    && (forall m :: 0 <= m < |s| && m != p ==> s[m] != '(')
    && (forall m :: i <= m < p ==> IsWordChar(s[m]))
    && (i == 0 || (s[i - 1] == ' ' && KeysUnspacedAt(table, p - i)))
  }

  /** No key but table[j].0 itself spells it, ignoring case. */
  predicate SoleSpelling(table: Table, j: nat)
    requires j < |table|
  {
    forall k :: 0 <= k < |table| && Lower(table[k].0) == Lower(table[j].0) ==> table[k].0 == table[j].0
  }

  /** Text of word characters is its own `strip()`. */
  lemma StripWord(w: String)
    requires w != [] && forall m :: 0 <= m < |w| ==> IsWordChar(w[m])
    ensures Strip(w) == w
  {
    assert TrimSpaceStart(w) == w;
    assert TrimSpaceEnd(w) == w;
  }

  /** When every call found is the same one, the iteration converts it. */
  lemma OnlyCallStep(table: Table, convert: (String, seq<String>) -> Conversion, s: String, i: nat, p: nat, key: String)
    requires Calls(table, s) != [] && forall c :: c in Calls(table, s) ==> c == Call(i, p, |s| - 1, key)
    ensures i <= p < |s| - 1
    ensures RewriteStep(table, convert, s) == Outcome(s, Call(i, p, |s| - 1, key), convert(key, SplitArgsOf(s[p + 1..|s| - 1])))
  {
    assert Calls(table, s)[0] in Calls(table, s);
    OnlyCallPicked(table, s, Call(i, p, |s| - 1, key));
    PickedStep(table, convert, s);
    ArgumentsOfCall(s, Call(i, p, |s| - 1, key));
  }

  /** When every call found is the same one, it is the one picked. */
  lemma OnlyCallPicked(table: Table, s: String, call: Call)
    requires Calls(table, s) != [] && forall c :: c in Calls(table, s) ==> c == call
    ensures Picked(table, s) == call
  {
    var calls := Calls(table, s);
    assert calls[Pick(calls, Nesting(table, s, calls))] in calls;
  }

  /** The text between the parentheses of a call. */
  lemma ArgumentsOfCall(s: String, c: Call)
    requires c.open < c.close == |s| - 1
    ensures s[c.open + 1..c.close] == s[c.open + 1..|s| - 1]
  {
  }

  /** An iteration that finds calls converts the one it picks. */
  lemma PickedStep(table: Table, convert: (String, seq<String>) -> Conversion, s: String)
    requires Calls(table, s) != []
    ensures var c := Picked(table, s);
      RewriteStep(table, convert, s) == Outcome(s, c, convert(c.key, SplitArgsOf(s[c.open + 1..c.close])))
  {
  }

  /** A text holding one call, of a key no other key spells: that call is
      the only one found. */
  lemma OnlyCall(table: Table, s: String, i: nat, p: nat, j: nat)
    requires OneCallShape(table, s, i, p)
    requires j < |table| && s[i..p] == table[j].0 && !IsUpper(table[j].0) && SoleSpelling(table, j)
    requires ClosingParen(s, p) == |s| - 1
    ensures Calls(table, s) != []
    ensures forall c :: c in Calls(table, s) ==> c == Call(i, p, |s| - 1, table[j].0)
  {
    var call := Call(i, p, |s| - 1, table[j].0);
    KeptCall(table, s, i, p, j);
    CallsComplete(table, s, j, i);
    forall c | c in Calls(table, s) ensures c == call {
      SoleCallSite(table, s, i, p, c);
      CallsAreCalls(table, s, c);
    }
  }

  /** The word before the only `(` is a call of its key. */
  lemma KeptCall(table: Table, s: String, i: nat, p: nat, j: nat)
    requires OneCallShape(table, s, i, p)
    requires j < |table| && s[i..p] == table[j].0 && !IsUpper(table[j].0)
    requires ClosingParen(s, p) == |s| - 1
    ensures CallAt(table, s, table[j].0, i) == Some(Call(i, p, |s| - 1, table[j].0))
  {
    var key := table[j].0;
    SpelledAtLower(s, i, key);
    assert OpenAfterSpaces(s, p) == Some(p);
    assert CallOpenAt(s, key, i) == Some(p);
    StripWord(s[i..p]);
    assert Strip(s[i..p]) == key;
  }

  /** A call already written in capitals, spelling a key no other key spells
      but not the key itself, is not converted again. */
  lemma CapitalCallStays(table: Table, s: String, i: nat, p: nat, j: nat)
    requires OneCallShape(table, s, i, p)
    requires j < |table| && Lower(s[i..p]) == Lower(table[j].0) && SoleSpelling(table, j)
    requires IsUpper(s[i..p]) && s[i..p] != table[j].0
    ensures Calls(table, s) == []
  {
    var r := Calls(table, s);
    if r != [] {
      assert r[0] in r;
      SoleCallSite(table, s, i, p, r[0]);
      CallsAreCalls(table, s, r[0]);
      StripWord(s[i..p]);
    }
  }

  /** `Trim("Name")` holds one call, of Trim, whose `)` ends the text. */
  lemma TrimShape()
    ensures OneCallShape(FunctionTable, "Trim(\"Name\")", 0, 4)
    ensures ClosingParen("Trim(\"Name\")", 4) == 11
    ensures "Trim(\"Name\")"[0..4] == FunctionTable[0].0 && !IsUpper(FunctionTable[0].0) && SoleSpelling(FunctionTable, 0)
  {
    FunctionTableKeys();
    IsUpperChars("Trim");
    assert Lower("Trim") == "trim";
  }

  /** Trim resolves to its own entry. */
  lemma TrimResolves()
    ensures Resolves(FunctionTable, "Trim", FunctionSpec(Some("TRIM"), 1))
  {
    FunctionTableKeys();
    assert Lower("Trim") == "trim";
    ResolvesSole(FunctionTable, "Trim", FunctionSpec(Some("TRIM"), 1), 0);
  }

  /** Trim is a plain-name template: `Trim(a)` becomes `TRIM(a)`. */
  lemma TrimConversion(args: seq<String>)
    ensures ConvertCall(FunctionTable, "Trim", args) == Conversion(Some(Apply("TRIM", args)), [])
  {
    TrimResolves();
    NameAppliedToArguments(FunctionTable, "Trim", FunctionSpec(Some("TRIM"), 1), args);
  }

  /** The argument of `Trim("Name")`. */
  lemma TrimArgument(s: String)
    requires s == "Trim(\"Name\")"
    ensures SplitArgsOf(s[5..11]) == ["\"Name\""]
  {
    assert s[5..11] == "\"Name\"";
    SplitWithoutComma(s[5..11]);
  }

  /** Converting the whole of `Trim("Name")` gives `TRIM("Name")`, a
      different text. */
  lemma TrimReplaced(s: String)
    requires s == "Trim(\"Name\")"
    ensures Splice(s, 0, 11, Apply("TRIM", ["\"Name\""])) == "TRIM(\"Name\")" != s
  {
    var t := Apply("TRIM", ["\"Name\""]);
    assert t == "TRIM(\"Name\")";
    assert Splice(s, 0, 11, t) == t;
    assert t[1] == 'R' && s[1] == 'r';
  }

  /** The first iteration on `Trim("Name")` converts the call to TRIM. */
  lemma TrimStep()
    ensures RewriteStep(FunctionTable, ConvertCallOf(FunctionTable), "Trim(\"Name\")") == Replaced("TRIM(\"Name\")", [])
  {
    var s := "Trim(\"Name\")";
    TrimShape();
    OnlyCall(FunctionTable, s, 0, 4, 0);
    OnlyCallStep(FunctionTable, ConvertCallOf(FunctionTable), s, 0, 4, "Trim");
    TrimArgument(s);
    TrimReplaced(s);
    TrimConversion(["\"Name\""]);
  }

  /** `TRIM("Name")` holds one call, spelling Trim in capitals. */
  lemma CapitalTrimShape(t: String)
    requires t == "TRIM(\"Name\")"
    ensures OneCallShape(FunctionTable, t, 0, 4)
    ensures Lower(t[0..4]) == Lower(FunctionTable[0].0) && SoleSpelling(FunctionTable, 0)
    ensures IsUpper(t[0..4]) && t[0..4] != FunctionTable[0].0
  {
    FunctionTableKeys();
    assert t[0..4] == "TRIM";
    IsUpperChars("TRIM");
    assert Lower("TRIM") == "trim" == Lower("Trim");
  }

  /** The converted call is not converted again. */
  lemma TrimDone()
    ensures RewriteStep(FunctionTable, ConvertCallOf(FunctionTable), "TRIM(\"Name\")") == NoCall
  {
    CapitalTrimShape("TRIM(\"Name\")");
    CapitalCallStays(FunctionTable, "TRIM(\"Name\")", 0, 4, 0);
  }

  /** `convert('Trim([Name])')`: one replacement gives `TRIM("Name")`, with
      no notes. */
  lemma TrimConverted()
    ensures Converted(FunctionTable, "Trim([Name])") == Rewritten("TRIM(\"Name\")", [], 1)
  {
    PrepareTrim();
    TrimStep();
    TrimDone();
    var step := StepOf(FunctionTable, ConvertCallOf(FunctionTable));
    assert Run(step, "TRIM(\"Name\")", MaxIterations - 1) == Rewritten("TRIM(\"Name\")", [], 0);
  }

  /** The call whose conversion never ends the loop. */
  const FileExistsCall: String := "FileExists(x)"

  /** What FileExists has no mapping for, put in front of the call. */
  const FileExistsNote: String := "/* TODO: Convert " + "FileExists" + " */ "

  /** Text that can come before FileExistsCall: no `(`, and nothing or a
      space at its end. */
  predicate LeadsToCall(pre: String) {
    '(' !in pre && (pre == [] || pre[|pre| - 1] == ' ')
  }

  /** A text that ends in FileExistsCall, after text that can come before it. */
  predicate EndsInFileExists(t: String) {
    |t| >= |FileExistsCall| && t[|t| - |FileExistsCall|..] == FileExistsCall
    && LeadsToCall(t[..|t| - |FileExistsCall|])
  }

  /** Text that starts and ends with no space, with no `[` and no operator
      character, reaches the loop as it is. */
  lemma PreparedAsIs(s: String)
    requires s != [] && !IsSpace(s[0]) && !IsSpace(s[|s| - 1])
    requires '[' !in s && OperatorFree(s)
    ensures Prepare(s) == s
  {
    assert TrimSpaceStart(s) == s && TrimSpaceEnd(s) == s;
    QuoteFieldsPlain(s);
    OperatorsAbsent(s);
  }

  /** `(`, one plain character, `)`: the parenthesis closes two places on. */
  lemma ClosesAfterOne(t: String, p: nat)
    requires p + 2 < |t| && t[p + 2] == ')'
    requires !IsQuote(t[p + 1]) && t[p + 1] != '(' && t[p + 1] != ')'
    ensures ClosingParen(t, p) == p + 2
  {
    var st := Advance(Scan(1, None), t[p + 1]);
    assert st == Scan(1, None);
    assert CloseFrom(t, p, p + 2, st) == p + 2;
  }

  /** FileExistsCall reaches the loop as it is. */
  lemma PrepareFileExists()
    ensures Prepare(FileExistsCall) == FileExistsCall
  {
    FileExistsCallChars();
    assert OperatorFree(FileExistsCall);
    PreparedAsIs(FileExistsCall);
  }

  /** FileExists is written in mixed case, and no other key spells it. */
  lemma FileExistsKey()
    ensures FunctionTable[93] == ("FileExists", FunctionSpec(None, 1))
    ensures !IsUpper("FileExists") && SoleSpelling(FunctionTable, 93)
    ensures KeysUnspacedAt(FunctionTable, 10)
  {
    FunctionTableKeys();
    IsUpperChars("FileExists");
    assert "FileExists"[1] == 'i';
    assert Lower("FileExists") == "fileexists";
  }

  /** The characters of FileExistsCall. */
  lemma FileExistsCallChars()
    ensures |FileExistsCall| == 13 && FileExistsCall[..10] == "FileExists"
    ensures forall k :: 0 <= k < 10 ==> IsWordChar(FileExistsCall[k])
    ensures forall k :: 0 <= k < 13 && k != 10 ==> FileExistsCall[k] != '('
    ensures FileExistsCall[10] == '(' && FileExistsCall[11] == 'x' && FileExistsCall[12] == ')'
    ensures '[' !in FileExistsCall && FileExistsCall[0] == 'F'
  {
    forall k | 0 <= k < 13 ensures k < 10 ==> IsWordChar(FileExistsCall[k]) ensures k != 10 ==> FileExistsCall[k] != '(' {
      assert k == 0 || k == 1 || k == 2 || k == 3 || k == 4 || k == 5 || k == 6 || k == 7 || k == 8
        || k == 9 || k == 10 || k == 11 || k == 12;
    }
  }

  /** The call after such a text is the only call site of the whole. */
  lemma FileExistsShape(pre: String)
    requires LeadsToCall(pre)
    ensures var t := pre + FileExistsCall;
      && OneCallShape(FunctionTable, t, |pre|, |pre| + 10)
      && ClosingParen(t, |pre| + 10) == |t| - 1
      && t[|pre|..|pre| + 10] == FunctionTable[93].0
  {
    FileExistsKey();
    FileExistsCallChars();
    var t, i, p := pre + FileExistsCall, |pre|, |pre| + 10;
    forall m | 0 <= m < |t| && m != p ensures t[m] != '(' {
      if m < i {
        assert t[m] == pre[m];
      } else {
        assert t[m] == FileExistsCall[m - i];
      }
    }
    forall m | i <= m < p ensures IsWordChar(t[m]) {
      assert t[m] == FileExistsCall[m - i];
    }
    assert t[i..p] == FileExistsCall[..10];
    assert t[p + 1] == FileExistsCall[11] && t[p + 2] == FileExistsCall[12];
    ClosesAfterOne(t, p);
  }

  /** FileExists resolves to its own entry. */
  lemma FileExistsResolves()
    ensures Resolves(FunctionTable, "FileExists", FunctionSpec(None, 1))
  {
    FunctionTableKeys();
    assert Lower("FileExists") == "fileexists";
    ResolvesSole(FunctionTable, "FileExists", FunctionSpec(None, 1), 93);
  }

  /** FileExists has no template: the call is kept behind a TODO note. */
  lemma FileExistsConversion(args: seq<String>)
    ensures ConvertCall(FunctionTable, "FileExists", args) == Conversion(Some(FileExistsNote + Apply("FileExists", args)), [])
  {
    FileExistsResolves();
    TodoConversion(FunctionTable, "FileExists", FunctionSpec(None, 1), args);
  }

  /** A function without a template, other than Switch, is kept behind a
      TODO note. */
  lemma TodoConversion(table: Table, name: String, spec: FunctionSpec, args: seq<String>)
    requires Resolves(table, name, spec) && spec.template.None? && |name| != 6
    ensures ConvertCall(table, name, args) == Conversion(Some("/* TODO: Convert " + name + " */ " + Apply(name, args)), [])
  {
    assert |Lower(name)| != |"switch"|;
  }

  /** The argument of the call, and what converting it makes of the text. */
  lemma FileExistsPieces(pre: String)
    ensures var t := pre + FileExistsCall;
      && SplitArgsOf(t[|t| - 2..|t| - 1]) == ["x"]
      && Splice(t, |pre|, |t| - 1, FileExistsNote + Apply("FileExists", ["x"])) == pre + (FileExistsNote + FileExistsCall)
  {
    var t := pre + FileExistsCall;
    FileExistsCallChars();
    assert t[|t| - 2..|t| - 1] == ['x'];
    SplitX();
    FileExistsApplied();
    SpliceAtEnd(pre, FileExistsCall, FileExistsNote + FileExistsCall);
  }

  /** Swapping out all of call, at the end of pre + call, for r. */
  lemma SpliceAtEnd(pre: String, call: String, r: String)
    requires call != []
    ensures Splice(pre + call, |pre|, |pre| + |call| - 1, r) == pre + r
  {
    assert (pre + call)[..|pre|] == pre;
    assert (pre + call)[|pre| + |call|..] == [];
  }

  /** The argument `x` on its own. */
  lemma SplitX()
    ensures SplitArgsOf(['x']) == ["x"]
  {
    SplitWithoutComma(['x']);
    assert TrimSpaceStart(['x']) == ['x'] && TrimSpaceEnd(['x']) == ['x'];
  }

  /** FileExists applied to `x` is FileExistsCall. */
  lemma FileExistsApplied()
    ensures Apply("FileExists", ["x"]) == FileExistsCall
  {
    assert Join(["x"], ", ") == "x";
  }

  /** A text holding one call, of a key no other key spells, that converts
      without a note to different text: the iteration replaces it. */
  lemma OneCallReplaced(table: Table, s: String, i: nat, p: nat, j: nat, sql: String)
    requires OneCallShape(table, s, i, p)
    requires j < |table| && s[i..p] == table[j].0 && !IsUpper(table[j].0) && SoleSpelling(table, j)
    requires ClosingParen(s, p) == |s| - 1
    requires ConvertCall(table, table[j].0, SplitArgsOf(s[p + 1..|s| - 1])) == Conversion(Some(sql), [])
    requires sql != [] && Splice(s, i, |s| - 1, sql) != s
    ensures RewriteStep(table, ConvertCallOf(table), s) == Replaced(Splice(s, i, |s| - 1, sql), [])
  {
    OnlyCall(table, s, i, p, j);
    OnlyCallStep(table, ConvertCallOf(table), s, i, p, table[j].0);
    ConvertCallApplied(table, table[j].0, SplitArgsOf(s[p + 1..|s| - 1]));
    ReplacedOutcome(s, Call(i, p, |s| - 1, table[j].0), sql);
  }

  /** ConvertCallOf applies ConvertCall. */
  lemma ConvertCallApplied(table: Table, name: String, args: seq<String>)
    ensures ConvertCallOf(table)(name, args) == ConvertCall(table, name, args)
  {
  }

  /** A conversion to different, non-empty text without a note replaces. */
  lemma ReplacedOutcome(s: String, c: Call, sql: String)
    requires c.start <= c.close < |s| && sql != [] && Splice(s, c.start, c.close, sql) != s
    ensures Outcome(s, c, Conversion(Some(sql), [])) == Replaced(Splice(s, c.start, c.close, sql), [])
  {
  }

  /** An iteration puts the note in front of the call and leaves the call. */
  lemma FileExistsStep(pre: String)
    requires LeadsToCall(pre)
    ensures RewriteStep(FunctionTable, ConvertCallOf(FunctionTable), pre + FileExistsCall)
      == Replaced(pre + (FileExistsNote + FileExistsCall), [])
  {
    var t := pre + FileExistsCall;
    FileExistsShape(pre);
    FileExistsKey();
    FileExistsPieces(pre);
    FileExistsConversion(["x"]);
    var sql := FileExistsNote + Apply("FileExists", ["x"]);
    assert |Splice(t, |pre|, |t| - 1, sql)| > |t|;
    OneCallReplaced(FunctionTable, t, |pre|, |pre| + 10, 93, sql);
  }

  /** The note ends in a space and holds no `(`. */
  lemma NoteLeadsToCall(pre: String)
    requires LeadsToCall(pre)
    ensures EndsInFileExists(pre + (FileExistsNote + FileExistsCall))
  {
    assert '(' !in FileExistsNote;
    var u := pre + (FileExistsNote + FileExistsCall);
    assert u[..|u| - |FileExistsCall|] == pre + FileExistsNote;
    assert u[|u| - |FileExistsCall|..] == FileExistsCall;
  }

  /** On a text that ends in the call, an iteration replaces, and the
      result again ends in the call. */
  lemma FileExistsKeeps(t: String)
    requires EndsInFileExists(t)
    ensures var r := RewriteStep(FunctionTable, ConvertCallOf(FunctionTable), t);
      r.Replaced? && EndsInFileExists(r.text)
  {
    var pre := t[..|t| - |FileExistsCall|];
    assert t == pre + FileExistsCall;
    FileExistsStep(pre);
    NoteLeadsToCall(pre);
  }

  /** `convert('FileExists(x)')`: every iteration puts another note in
      front of the call, which stays, so the loop runs until its cap. */
  lemma FileExistsRunsToCap()
    ensures Converted(FunctionTable, FileExistsCall).steps == MaxIterations
    ensures EndsInFileExists(Converted(FunctionTable, FileExistsCall).text)
  {
    PrepareFileExists();
    var step := StepOf(FunctionTable, ConvertCallOf(FunctionTable));
    forall t | EndsInFileExists(t) ensures step(t).Replaced? && EndsInFileExists(step(t).text) {
      FileExistsKeeps(t);
    }
    assert FileExistsCall[..0] == [];
    RunToCap(step, EndsInFileExists, FileExistsCall, MaxIterations);
  }
}
