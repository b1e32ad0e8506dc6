/** The Alteryx-formula to Trino-SQL converter of formula_converter.py: field
    references and operators are rewritten textually, then a capped loop
    replaces one table-listed function call at a time, innermost first, by
    its Trino form. Diagnostics collect in the converter's `notes`. */
module Formula {
  import opened Wrappers
  import opened Text
  import opened FormulaTables
  import Dicts

  // ---------------------------------------------------------------------
  // The quote-aware character scanner shared by paren matching and
  // argument splitting
  // ---------------------------------------------------------------------

  /** Parenthesis depth, and the quote character of the string literal being
      read, if any. */
  datatype Scan = Scan(depth: int, quote: Option<char>)

  predicate IsQuote(c: char) { c == '"' || c == '\'' }

  /** One character: a quote opens a literal or closes the one it opened;
      outside literals `(` and `)` move the depth; nothing else changes. */
  function Advance(st: Scan, c: char): (r: Scan)
    ensures st.depth - 1 <= r.depth <= st.depth + 1
    ensures r.depth != st.depth ==> st.quote.None? && r.quote.None?
    ensures r.depth == st.depth - 1 <==> st.quote.None? && c == ')'
    ensures r.depth == st.depth + 1 <==> st.quote.None? && c == '('
  {
    if IsQuote(c) && st.quote.None? then Scan(st.depth, Some(c))
    else if st.quote == Some(c) then Scan(st.depth, None)
    else if st.quote.None? && c == '(' then Scan(st.depth + 1, None)
    else if st.quote.None? && c == ')' then Scan(st.depth - 1, None)
    else st
  }

  /** The scanner state after reading s from st. */
  function ScanText(st: Scan, s: String): Scan
    decreases |s|
  {
    if s == [] then st else Advance(ScanText(st, s[..|s| - 1]), s[|s| - 1])
  }

  lemma ScanSnoc(st: Scan, s: String, i: nat)
    requires i < |s|
    ensures ScanText(st, s[..i + 1]) == Advance(ScanText(st, s[..i]), s[i])
  {
    assert s[..i + 1][..i] == s[..i];
  }

  /** Reading expr after the `(` at `start` has come back to depth zero just
      after expr[k]. */
  predicate ClosesAt(expr: String, start: nat, k: int) {
    start < k < |expr| && ScanText(Scan(1, None), expr[start + 1..k + 1]).depth == 0
  }

  /** One more character of the scan from `start`: the state is advanced by it,
      and the new position closes exactly when the depth reaches zero there. */
  lemma ScanOneMore(expr: String, start: nat, i: nat, before: Scan)
    requires start + 1 <= i < |expr| && before.depth > 0
    requires before == ScanText(Scan(1, None), expr[start + 1..i])
    requires forall k :: start < k < i - 1 ==> !ClosesAt(expr, start, k)
    requires i - 1 > start ==> (before.depth == 0 <==> ClosesAt(expr, start, i - 1))
    ensures Advance(before, expr[i]) == ScanText(Scan(1, None), expr[start + 1..i + 1])
    ensures forall k :: start < k < i ==> !ClosesAt(expr, start, k)
    ensures Advance(before, expr[i]).depth == 0 <==> ClosesAt(expr, start, i)
  {
    assert expr[start + 1..i + 1][..i - start - 1] == expr[start + 1..i];
  }

  /** The matching `)` of the parenthesis at `start`: the first position where
      the quote-aware depth returns to zero, or -1 (see ClosingParenFirst). */
  function ClosingParen(expr: String, start: nat): (j: int)
    ensures j == -1 || (start < j < |expr| && expr[j] == ')')
  {
    if start + 1 > |expr| then -1
    else CloseFrom(expr, start, start + 1, Scan(1, None))
  }

  /** The search of ClosingParen from position i, in state st. */
  function CloseFrom(expr: String, start: nat, i: nat, st: Scan): (j: int)
    requires start + 1 <= i <= |expr| && st.depth > 0
    ensures j == -1 || (i <= j < |expr| && expr[j] == ')')
    decreases |expr| - i
  {
    if i == |expr| then -1
    else
      var st' := Advance(st, expr[i]);
      if st'.depth == 0 then i else CloseFrom(expr, start, i + 1, st')
  }

  /** From a state that is the scan of expr[start + 1..i] and has not come
      back to depth zero, the search finds the first closing position. */
  lemma {:induction false} CloseFromFirst(expr: String, start: nat, i: nat, st: Scan)
    requires start + 1 <= i <= |expr| && st.depth > 0
    requires st == ScanText(Scan(1, None), expr[start + 1..i])
    requires forall k :: start < k < i ==> !ClosesAt(expr, start, k)
    ensures var j := CloseFrom(expr, start, i, st);
      && (j == -1 <==> forall k :: !ClosesAt(expr, start, k))
      && (j != -1 ==> ClosesAt(expr, start, j) && forall k :: start < k < j ==> !ClosesAt(expr, start, k))
    decreases |expr| - i
  {
    if i < |expr| {
      var st' := Advance(st, expr[i]);
      ScanOneMore(expr, start, i, st);
      if st'.depth != 0 {
        CloseFromFirst(expr, start, i + 1, st');
      }
    }
  }

  /** ClosingParen is the first position where the depth returns to zero,
      and -1 exactly when there is none. */
  lemma ClosingParenFirst(expr: String, start: nat)
    ensures var j := ClosingParen(expr, start);
      && (j == -1 <==> forall k :: !ClosesAt(expr, start, k))
      && (j != -1 ==> ClosesAt(expr, start, j) && forall k :: start < k < j ==> !ClosesAt(expr, start, k))
  {
    if start + 1 <= |expr| {
      assert expr[start + 1..start + 1] == [];
      CloseFromFirst(expr, start, start + 1, Scan(1, None));
    }
  }

  // ---------------------------------------------------------------------
  // Argument splitting
  // ---------------------------------------------------------------------

  /** s[i] is a comma read outside every string literal and parenthesis. */
  predicate TopLevelComma(s: String, i: nat)
    requires i < |s|
  {
    var st := ScanText(Scan(0, None), s[..i]);
    s[i] == ',' && st.depth == 0 && st.quote.None?
  }

  /** The text of an argument list cut at its top-level commas, unstripped. */
  function Pieces(s: String): (r: seq<String>)
    ensures |r| >= 1
    decreases |s|
  {
    if s == [] then [[]]
    else
      var p := Pieces(s[..|s| - 1]);
      if TopLevelComma(s, |s| - 1) then p + [[]]
      else p[..|p| - 1] + [p[|p| - 1] + [s[|s| - 1]]]
  }

  /** Pieces of one more character of s. */
  lemma PiecesStep(s: String, n: nat)
    requires n < |s|
    ensures var p := Pieces(s[..n]);
      Pieces(s[..n + 1]) == if TopLevelComma(s, n) then p + [[]] else p[..|p| - 1] + [p[|p| - 1] + [s[n]]]
  {
    var t := s[..n + 1];
    assert t[..|t| - 1] == s[..n] && t[|t| - 1] == s[n];
    assert t[..n] == s[..n];
  }

  /** One more character of the arguments: the scan advances by it, and it
      either closes the current piece (a top-level comma) or extends it. */
  lemma SplitOneMore(s: String, n: nat, before: Scan, raw: seq<String>, current: String)
    requires n < |s|
    requires before == ScanText(Scan(0, None), s[..n]) && Pieces(s[..n]) == raw + [current]
    ensures ScanText(Scan(0, None), s[..n + 1]) == Advance(before, s[n])
    ensures TopLevelComma(s, n) <==> s[n] == ',' && before.depth == 0 && before.quote.None?
    ensures TopLevelComma(s, n) ==> Pieces(s[..n + 1]) == (raw + [current]) + [[]]
    ensures !TopLevelComma(s, n) ==> Pieces(s[..n + 1]) == raw + [current + [s[n]]]
  {
    ScanSnoc(Scan(0, None), s, n);
    PiecesStep(s, n);
    var p := raw + [current];
    assert p[..|p| - 1] == raw;
  }

  /** The positions in s[..n] of the top-level commas, in increasing order. */
  function TopLevelCommas(s: String, n: nat): (r: seq<nat>)
    requires n <= |s|
    ensures Increasing(r, n)
    ensures forall k :: 0 <= k < |r| ==> TopLevelComma(s, r[k])
    ensures forall i :: 0 <= i < n && TopLevelComma(s, i) ==> i in r
  {
    if n == 0 then []
    else
      var r := TopLevelCommas(s, n - 1);
      if TopLevelComma(s, n - 1) then IncreasingSnoc(r, n - 1); r + [n - 1] else r
  }

  /** Positions below `bound`, each larger than the one before. */
  predicate Increasing(cuts: seq<nat>, bound: nat) {
    forall k :: 0 <= k < |cuts| ==> cuts[k] < bound && (k > 0 ==> cuts[k - 1] < cuts[k])
  }

  lemma IncreasingSnoc(cuts: seq<nat>, c: nat)
    requires Increasing(cuts, c)
    ensures Increasing(cuts + [c], c + 1)
  {
  }

  lemma IncreasingInit(cuts: seq<nat>, bound: nat)
    requires Increasing(cuts, bound) && cuts != []
    ensures Increasing(cuts[..|cuts| - 1], cuts[|cuts| - 1])
  {
    var n := |cuts| - 1;
    forall k | 0 <= k < n ensures cuts[k] < cuts[n] {
      IncreasingBelow(cuts, bound, k, n);
    }
  }

  lemma {:induction false} IncreasingBelow(cuts: seq<nat>, bound: nat, k: nat, l: nat)
    requires Increasing(cuts, bound) && k < l < |cuts|
    ensures cuts[k] < cuts[l]
    decreases l - k
  {
    if k + 1 < l {
      IncreasingBelow(cuts, bound, k, l - 1);
    }
  }

  /** s cut at the given increasing positions, which are dropped. */
  function Cut(s: String, cuts: seq<nat>): seq<String>
    requires Increasing(cuts, |s|)
    decreases |cuts|
  {
    if cuts == [] then [s]
    else
      var c := cuts[|cuts| - 1];
      IncreasingInit(cuts, |s|);
      Cut(s[..c], cuts[..|cuts| - 1]) + [s[c + 1..]]
  }

  /** Cuts before the last character: that character lengthens the last piece. */
  lemma {:induction false} CutExtend(s: String, cuts: seq<nat>)
    requires s != [] && Increasing(cuts, |s| - 1)
    ensures var p := Cut(s[..|s| - 1], cuts);
      Cut(s, cuts) == p[..|p| - 1] + [p[|p| - 1] + [s[|s| - 1]]]
  {
    var t := s[..|s| - 1];
    if cuts == [] {
      assert s == t + [s[|s| - 1]];
    } else {
      var c := cuts[|cuts| - 1];
      var init := cuts[..|cuts| - 1];
      IncreasingInit(cuts, |s| - 1);
      assert t[..c] == s[..c];
      assert s[c + 1..] == t[c + 1..] + [s[|s| - 1]];
      var p := Cut(t, cuts);
      assert p == Cut(s[..c], init) + [t[c + 1..]];
      assert Cut(s, cuts) == Cut(s[..c], init) + [s[c + 1..]];
    }
  }

  /** A cut at the last character adds an empty last piece. */
  lemma CutAtEnd(s: String, cuts: seq<nat>)
    requires s != [] && Increasing(cuts, |s| - 1)
    ensures Increasing(cuts + [|s| - 1], |s|)
    ensures Cut(s, cuts + [|s| - 1]) == Cut(s[..|s| - 1], cuts) + [[]]
  {
    IncreasingSnoc(cuts, |s| - 1);
    var cs := cuts + [|s| - 1];
    assert cs[..|cs| - 1] == cuts && cs[|cs| - 1] == |s| - 1;
    assert s[|s|..] == [];
    assert Cut(s, cs) == Cut(s[..|s| - 1], cuts) + [s[|s|..]];
  }

  /** The pieces are exactly the text between consecutive top-level commas. */
  lemma {:induction false} PiecesAreCut(s: String)
    ensures Pieces(s) == Cut(s, TopLevelCommas(s, |s|))
    decreases |s|
  {
    if s != [] {
      var n := |s| - 1;
      PiecesAreCut(s[..n]);
      CommasOfPrefix(s, n, n);
      var cs := TopLevelCommas(s, n);
      if TopLevelComma(s, n) {
        CutAtEnd(s, cs);
      } else {
        CutExtend(s, cs);
      }
    }
  }

  /** The top-level commas of a prefix are those of the whole text before it. */
  lemma {:induction false} CommasOfPrefix(s: String, n: nat, m: nat)
    requires m <= n <= |s|
    ensures TopLevelCommas(s[..n], m) == TopLevelCommas(s, m)
    decreases m
  {
    if m > 0 {
      CommasOfPrefix(s, n, m - 1);
      assert s[..n][..m - 1] == s[..m - 1];
    }
  }

  /** Joining the pieces with commas gives back the argument text. */
  lemma {:induction false} JoinPieces(s: String)
    ensures Join(Pieces(s), ",") == s
    decreases |s|
  {
    if s != [] {
      var n := |s| - 1;
      var p := Pieces(s[..n]);
      JoinPieces(s[..n]);
      var last := [s[n]];
      assert s == s[..n] + last;
      if s[n] == ',' && ScanText(Scan(0, None), s[..n]).depth == 0 && ScanText(Scan(0, None), s[..n]).quote.None? {
        assert Pieces(s) == p + [[]];
        JoinSnoc(p, [], ",");
      } else {
        assert Pieces(s) == p[..|p| - 1] + [p[|p| - 1] + last];
        JoinExtendLast(p, last, ",");
      }
    }
  }

  /** Each text stripped. */
  function StripEach(ps: seq<String>): (r: seq<String>)
    ensures |r| == |ps|
  {
    if ps == [] then [] else StripEach(ps[..|ps| - 1]) + [Strip(ps[|ps| - 1])]
  }

  lemma StripEachSnoc(ps: seq<String>, p: String)
    ensures StripEach(ps + [p]) == StripEach(ps) + [Strip(p)]
  {
    assert (ps + [p])[..|ps|] == ps;
  }

  /** Element k of the stripped texts is text k stripped. */
  lemma {:induction false} StripEachAt(ps: seq<String>)
    ensures forall k :: 0 <= k < |ps| ==> StripEach(ps)[k] == Strip(ps[k])
    decreases |ps|
  {
    if ps != [] {
      var init := ps[..|ps| - 1];
      StripEachAt(init);
      assert forall k :: 0 <= k < |init| ==> init[k] == ps[k];
    }
  }

  /** The list without its last element when that one is empty. */
  function DropBlankLast(r: seq<String>): seq<String> {
    if r != [] && r[|r| - 1] == [] then r[..|r| - 1] else r
  }

  /** `_split_args`: the stripped pieces, without the last one when it is
      blank. */
  function SplitArgsOf(s: String): (r: seq<String>)
  {
    DropBlankLast(StripEach(Pieces(s)))
  }

  /** The arguments once every piece is known: the closed pieces stripped, and
      the last one only when it is not blank. */
  lemma SplitArgsLast(s: String, raw: seq<String>, current: String)
    requires Pieces(s) == raw + [current]
    ensures SplitArgsOf(s) == if Strip(current) != [] then StripEach(raw) + [Strip(current)] else StripEach(raw)
  {
    StripEachSnoc(raw, current);
    var e := StripEach(raw + [current]);
    assert e == StripEach(raw) + [Strip(current)];
    assert e[|e| - 1] == Strip(current);
    if Strip(current) == [] {
      assert e[..|e| - 1] == StripEach(raw);
    }
  }

  /** The arguments are the pieces stripped, in order; only a blank last
      piece is dropped. */
  lemma SplitArgsPieces(s: String)
    ensures var r := SplitArgsOf(s); var p := Pieces(s);
      (|r| == |p| || (|r| == |p| - 1 && Strip(p[|r|]) == []))
      && forall k :: 0 <= k < |r| ==> r[k] == Strip(p[k])
  {
    StripEachAt(Pieces(s));
  }

  /** No argument has surrounding white space. */
  lemma SplitArgsAreStripped(s: String)
    ensures var r := SplitArgsOf(s);
      forall k :: 0 <= k < |r| ==> r[k] == [] || (!IsSpace(r[k][0]) && !IsSpace(r[k][|r[k]| - 1]))
  {
    SplitArgsPieces(s);
  }

  /** Text without a comma is one argument, or none when blank. */
  lemma {:induction false} SplitWithoutComma(s: String)
    requires ',' !in s
    ensures SplitArgsOf(s) == if Strip(s) == [] then [] else [Strip(s)]
  {
    SinglePiece(s);
  }

  lemma {:induction false} SinglePiece(s: String)
    requires ',' !in s
    ensures Pieces(s) == [s]
    decreases |s|
  {
    if s != [] {
      var n := |s| - 1;
      assert ',' !in s[..n];
      SinglePiece(s[..n]);
      assert s == s[..n] + [s[n]];
    }
  }

  // ---------------------------------------------------------------------
  // Positional templates
  // ---------------------------------------------------------------------

  /** t starts with a replacement field `{d}`, d a single digit. */
  predicate FieldAtStart(t: String) {
    |t| >= 3 && t[0] == '{' && IsDigit(t[1]) && t[2] == '}'
  }

  function FieldIndex(t: String): nat
    requires FieldAtStart(t)
  {
    t[1] as int - '0' as int
  }

  function Max(a: nat, b: nat): nat { if a < b then b else a }

  /** How many arguments t needs: one more than its largest field index. */
  function Needed(t: String): nat
    decreases |t|
  {
    if t == [] then 0
    else if FieldAtStart(t) then Max(FieldIndex(t) + 1, Needed(t[3..]))
    else Needed(t[1..])
  }

  /** `t.format(*args)` for templates whose replacement fields are `{d}`;
      None where Python raises IndexError. */
  function Format(t: String, args: seq<String>): (r: Option<String>)
    ensures r.Some? <==> Needed(t) <= |args|
    decreases |t|
  {
    if t == [] then Some([])
    else if FieldAtStart(t) then
      var i := FieldIndex(t);
      if i < |args| then
        match Format(t[3..], args)
        case Some(rest) => Some(args[i] + rest)
        case None => None
      else None
    else
      match Format(t[1..], args)
      case Some(rest) => Some([t[0]] + rest)
      case None => None
  }

  /** Arguments beyond those the template uses are ignored. */
  lemma {:induction false} FormatIgnoresExtra(t: String, args: seq<String>, extra: seq<String>)
    requires Format(t, args).Some?
    ensures Format(t, args + extra) == Format(t, args)
    decreases |t|
  {
    if t != [] {
      if FieldAtStart(t) {
        FormatIgnoresExtra(t[3..], args, extra);
        assert (args + extra)[FieldIndex(t)] == args[FieldIndex(t)];
      } else {
        FormatIgnoresExtra(t[1..], args, extra);
      }
    }
  }

  /** A template with one field `{d}` and no other brace gets argument d
      in its place. */
  lemma FormatOneField(pre: String, d: nat, post: String, args: seq<String>)
    requires '{' !in pre && '{' !in post && d < 10 && d < |args|
    ensures Format(pre + ['{', DigitChar(d), '}'] + post, args) == Some(pre + args[d] + post)
  {
    var field := ['{', DigitChar(d), '}'];
    FormatPlain(post, args);
    FormatFieldFirst(d, post, args, post);
    FormatPlainPrefix(pre, field + post, args, args[d] + post);
    assert pre + field + post == pre + (field + post);
    assert pre + args[d] + post == pre + (args[d] + post);
  }

  /** Text without `{` in front of a template is copied. */
  lemma {:induction false} FormatPlainPrefix(pre: String, rest: String, args: seq<String>, done: String)
    requires '{' !in pre && Format(rest, args) == Some(done)
    ensures Format(pre + rest, args) == Some(pre + done)
    decreases |pre|
  {
    if pre == [] {
      assert pre + rest == rest && pre + done == done;
    } else {
      assert '{' !in pre[1..];
      FormatPlainPrefix(pre[1..], rest, args, done);
      FormatCharFirst(pre[0], pre[1..] + rest, args, pre[1..] + done);
      assert pre + rest == [pre[0]] + (pre[1..] + rest);
      assert pre + done == [pre[0]] + (pre[1..] + done);
    }
  }

  /** A field `{d}` at the start takes argument d. */
  lemma FormatFieldFirst(d: nat, rest: String, args: seq<String>, done: String)
    requires d < 10 && d < |args| && Format(rest, args) == Some(done)
    ensures Format(['{', DigitChar(d), '}'] + rest, args) == Some(args[d] + done)
  {
    var t := ['{', DigitChar(d), '}'] + rest;
    assert FieldAtStart(t) && FieldIndex(t) == d;
    assert t[3..] == rest;
  }

  /** A character other than `{` at the start is copied. */
  lemma FormatCharFirst(c: char, rest: String, args: seq<String>, done: String)
    requires c != '{' && Format(rest, args) == Some(done)
    ensures Format([c] + rest, args) == Some([c] + done)
  {
    var t := [c] + rest;
    assert !FieldAtStart(t) && t[1..] == rest;
  }

  /** A template without braces is its own result. */
  lemma {:induction false} FormatPlain(t: String, args: seq<String>)
    requires '{' !in t
    ensures Format(t, args) == Some(t)
    decreases |t|
  {
    if t != [] {
      assert '{' !in t[1..];
      FormatPlain(t[1..], args);
      assert t == [t[0]] + t[1..];
    }
  }

  // ---------------------------------------------------------------------
  // Converting one call
  // ---------------------------------------------------------------------

  /** The converted text, if any, and the notes the conversion adds. */
  datatype Conversion = Conversion(sql: Option<String>, notes: seq<String>)

  /** A function map: Alteryx name to template and arity, in source order. */
  type Table = seq<(String, FunctionSpec)>

  /** `_func_name_map`: each key, lower-cased, to the key. */
  function LowerNames(table: Table): seq<(String, String)> {
    seq(|table|, i requires 0 <= i < |table| => (Lower(table[i].0), table[i].0))
  }

  /** The table key that `name` spells, ignoring case. */
  function Canonical(table: Table, name: String): Option<String> {
    Dicts.Get(LowerNames(table), Lower(name))
  }

  /** `name(a1, ..., an)` */
  function Apply(name: String, args: seq<String>): String {
    name + "(" + Join(args, ", ") + ")"
  }

  /** `_convert_function` on its own: the result, and the notes it adds. */
  function ConvertCall(table: Table, name: String, args: seq<String>): (r: Conversion)
    ensures Canonical(table, name) in {None, Some("")} ==> r == Conversion(None, ["No mapping for Alteryx function: " + name])
    ensures |r.notes| <= 1
  {
    match Canonical(table, name)
    case None => Conversion(None, ["No mapping for Alteryx function: " + name])
    case Some(key) =>
      if key == [] then Conversion(None, ["No mapping for Alteryx function: " + name])
      else
      match Dicts.Get(table, key)
      case None => Conversion(None, [])
      case Some(spec) =>
        match spec.template
        case None => SpecialConversion(name, args)
        case Some(t) =>
          if spec.arity == 0 then Conversion(Some(t), [])
          else if spec.arity == -1 then Conversion(Some(Apply(t, args)), [])
          else if '{' in t then
            match Format(t, args)
            case Some(f) => Conversion(Some(f), [])
            case None => Conversion(Some(MismatchText(name, args)), [MismatchNote(name, spec.arity, |args|)])
          else Conversion(Some(Apply(t, args)), [])
  }

  function MismatchText(name: String, args: seq<String>): String {
    "/* TODO: Fix " + name + " */ " + Apply(name, args)
  }

  function MismatchNote(name: String, expected: int, got: nat): String {
    "Argument mismatch for " + name + ": expected " + IntToString(expected) + ", got " + IntToString(got)
  }

  /** The table entry that `name` resolves to. */
  predicate Resolves(table: Table, name: String, spec: FunctionSpec) {
    match Canonical(table, name)
    case None => false
    case Some(key) => key != [] && Dicts.Get(table, key) == Some(spec)
  }

  /** A zero-arity function becomes its template whatever the arguments. */
  lemma ZeroArityIgnoresArguments(table: Table, name: String, spec: FunctionSpec, a: seq<String>, b: seq<String>)
    requires Resolves(table, name, spec) && spec.template.Some? && spec.arity == 0
    ensures ConvertCall(table, name, a) == ConvertCall(table, name, b) == Conversion(spec.template, [])
  {
  }

  /** A variadic function, or one whose template is a plain name, is applied
      to all the arguments in order. */
  lemma NameAppliedToArguments(table: Table, name: String, spec: FunctionSpec, args: seq<String>)
    requires Resolves(table, name, spec) && spec.template.Some? && spec.arity != 0
    requires spec.arity == -1 || '{' !in spec.template.value
    ensures ConvertCall(table, name, args) == Conversion(Some(Apply(spec.template.value, args)), [])
  {
  }

  /** A positional template takes its arguments by index; extra arguments are
      ignored without a note. */
  lemma TemplateIgnoresExtraArguments(table: Table, name: String, spec: FunctionSpec, args: seq<String>, extra: seq<String>)
    requires Resolves(table, name, spec) && spec.template.Some? && spec.arity != 0 && spec.arity != -1
    requires '{' in spec.template.value && Needed(spec.template.value) <= |args|
    ensures ConvertCall(table, name, args + extra) == ConvertCall(table, name, args)
    ensures ConvertCall(table, name, args) == Conversion(Format(spec.template.value, args), [])
  {
    FormatIgnoresExtra(spec.template.value, args, extra);
  }

  /** Too few arguments for a positional template: one note, and the call is
      kept behind a TODO comment. */
  lemma TooFewArguments(table: Table, name: String, spec: FunctionSpec, args: seq<String>)
    requires Resolves(table, name, spec) && spec.template.Some? && spec.arity != 0 && spec.arity != -1
    requires '{' in spec.template.value && |args| < Needed(spec.template.value)
    ensures ConvertCall(table, name, args) == Conversion(Some(MismatchText(name, args)), [MismatchNote(name, spec.arity, |args|)])
  {
  }

  /** `_handle_special_function` */
  function SpecialConversion(name: String, args: seq<String>): (r: Conversion)
    ensures r.sql.Some? && |r.notes| <= 1
    ensures Lower(name) != "switch" ==> r == Conversion(Some("/* TODO: Convert " + name + " */ " + Apply(name, args)), [])
  {
    if Lower(name) == "switch" then SwitchConversion(args)
    else Conversion(Some("/* TODO: Convert " + name + " */ " + Apply(name, args)), [])
  }

  const OddSwitchNote: String := "Switch function has odd number of case/result pairs"

  /** `Switch(value, default, case1, result1, ...)` as a CASE expression. */
  function SwitchConversion(args: seq<String>): (r: Conversion)
    ensures r.sql.Some? && |r.notes| <= 1
    ensures |args| < 2 ==> r == Conversion(Some("/* Invalid Switch */ NULL"), [])
    ensures |args| >= 2 && |args| % 2 == 1 ==>
      r == Conversion(Some("/* TODO: Fix Switch */ COALESCE(" + Join(args, ", ") + ")"), [OddSwitchNote])
    ensures |args| >= 2 && |args| % 2 == 0 ==>
      r == Conversion(Some("CASE " + args[0] + " " + Join(WhenClauses(args[2..]), " ") + " ELSE " + args[1] + " END"), [])
  {
    if |args| < 2 then Conversion(Some("/* Invalid Switch */ NULL"), [])
    else
      var cases := args[2..];
      if |cases| % 2 != 0 then
        Conversion(Some("/* TODO: Fix Switch */ COALESCE(" + Join(args, ", ") + ")"), [OddSwitchNote])
      else
        Conversion(Some("CASE " + args[0] + " " + Join(WhenClauses(cases), " ") + " ELSE " + args[1] + " END"), [])
  }

  /** The WHEN clauses of Switch: one per case/result pair, in order. */
  function WhenClauses(cases: seq<String>): (r: seq<String>)
    requires |cases| % 2 == 0
    ensures |r| == |cases| / 2
    ensures forall k :: 0 <= k < |r| ==> r[k] == "WHEN " + cases[2 * k] + " THEN " + cases[2 * k + 1]
    decreases |cases|
  {
    if cases == [] then []
    else
      var n := |cases|;
      var r := WhenClauses(cases[..n - 2]);
      assert forall k :: 0 <= k < 2 * |r| ==> cases[..n - 2][k] == cases[k];
      r + ["WHEN " + cases[n - 2] + " THEN " + cases[n - 1]]
  }

  // ---------------------------------------------------------------------
  // Field references and operators
  // ---------------------------------------------------------------------

  /** `re.sub(r'\[([^\]]+)\]', r'"\1"', s)`: a `[` whose next `]` is not
      right after it encloses a field name, which is put in double quotes. */
  function QuoteFields(s: String): String
    decreases |s|
  {
    if s == [] then []
    else if s[0] == '[' && ']' in s[1..] && IndexOfChar(s[1..], ']') > 0 then
      var j := IndexOfChar(s[1..], ']');
      "\"" + s[1..j + 1] + "\"" + QuoteFields(s[j + 2..])
    else [s[0]] + QuoteFields(s[1..])
  }

  /** Text without `[` is left alone. */
  lemma {:induction false} QuoteFieldsPlain(s: String)
    requires '[' !in s
    ensures QuoteFields(s) == s
    decreases |s|
  {
    if s != [] {
      assert '[' !in s[1..];
      QuoteFieldsPlain(s[1..]);
      assert s == [s[0]] + s[1..];
    }
  }

  /** A reference `[name]` becomes `"name"`. */
  lemma QuoteFieldsReference(name: String, rest: String)
    requires name != [] && ']' !in name
    ensures QuoteFields("[" + name + "]" + rest) == "\"" + name + "\"" + QuoteFields(rest)
  {
    var s := "[" + name + "]" + rest;
    assert s[1..] == name + "]" + rest;
    assert s[1..][|name|] == ']';
    assert IndexOfChar(s[1..], ']') == |name| by {
      IndexOfCharFirst(s[1..], ']', |name|);
    }
    assert s[1..|name| + 1] == name;
    assert s[|name| + 2..] == rest;
  }

  lemma IndexOfCharFirst(s: String, c: char, i: nat)
    requires i < |s| && s[i] == c && c !in s[..i]
    ensures IndexOfChar(s, c) == i
  {
  }

  /** Plain text before a reference is copied. */
  lemma {:induction false} QuoteFieldsPrefix(a: String, b: String)
    requires '[' !in a
    ensures QuoteFields(a + b) == a + QuoteFields(b)
    decreases |a|
  {
    if a == [] {
      assert a + b == b;
    } else {
      assert (a + b)[0] == a[0] != '[';
      assert (a + b)[1..] == a[1..] + b;
      assert '[' !in a[1..];
      QuoteFieldsPrefix(a[1..], b);
    }
  }

  /** Text alternating between plain parts and field references, the
      references written with the given delimiters. */
  function Interleave(plain: seq<String>, names: seq<String>, open: String, close: String): String
    requires |plain| == |names| + 1
    decreases |names|
  {
    if names == [] then plain[0]
    else plain[0] + open + names[0] + close + Interleave(plain[1..], names[1..], open, close)
  }

  /** Plain text, then a reference, then anything: the text is copied and the
      reference quoted before the rest is rewritten. */
  lemma QuoteFieldsSegment(p: String, name: String, rest: String)
    requires '[' !in p && name != [] && ']' !in name
    ensures QuoteFields(p + "[" + name + "]" + rest) == p + "\"" + name + "\"" + QuoteFields(rest)
  {
    var tail := "[" + name + "]" + rest;
    var quoted := "\"" + name + "\"" + QuoteFields(rest);
    assert p + "[" + name + "]" + rest == p + tail;
    QuoteFieldsPrefix(p, tail);
    QuoteFieldsReference(name, rest);
    assert p + quoted == p + "\"" + name + "\"" + QuoteFields(rest);
  }

  /** Every reference is rewritten, however many there are. */
  lemma {:induction false} QuoteFieldsAll(plain: seq<String>, names: seq<String>)
    requires |plain| == |names| + 1
    requires forall k :: 0 <= k < |plain| ==> '[' !in plain[k]
    requires forall k :: 0 <= k < |names| ==> names[k] != [] && ']' !in names[k]
    ensures QuoteFields(Interleave(plain, names, "[", "]")) == Interleave(plain, names, "\"", "\"")
    decreases |names|
  {
    if names == [] {
      QuoteFieldsPlain(plain[0]);
    } else {
      assert forall k :: 0 <= k < |names| - 1 ==> names[1..][k] == names[k + 1];
      assert forall k :: 0 <= k < |plain| - 1 ==> plain[1..][k] == plain[k + 1];
      QuoteFieldsAll(plain[1..], names[1..]);
      QuoteFieldsSegment(plain[0], names[0], Interleave(plain[1..], names[1..], "[", "]"));
    }
  }

  /** The operator rewrites of `convert`, in order. */
  function ReplaceOperators(s: String): String {
    Replace(Replace(Replace(Replace(Replace(s, "==", "="), "&&", " AND "), "||", " OR "), "!=", "<>"), "!", " NOT ")
  }

  /** After the operator rewrites no `!`, `&&` or `||` is left. */
  lemma OperatorsAreRewritten(s: String)
    ensures '!' !in ReplaceOperators(s)
    ensures !Contains(ReplaceOperators(s), "&&") && !Contains(ReplaceOperators(s), "||")
  {
    var s1 := Replace(s, "==", "=");
    var s2 := Replace(s1, "&&", " AND ");
    var s3 := Replace(s2, "||", " OR ");
    var s4 := Replace(s3, "!=", "<>");
    var s5 := Replace(s4, "!", " NOT ");
    ReplaceDropsPair(s1, '&', " AND ");
    ReplaceKeepsNoPair(s2, "||", " OR ", '&');
    ReplaceDropsPair(s2, '|', " OR ");
    ReplaceKeepsNoPair(s3, "!=", "<>", '&');
    ReplaceKeepsNoPair(s3, "!=", "<>", '|');
    ReplaceKeepsNoPair(s4, "!", " NOT ", '&');
    ReplaceKeepsNoPair(s4, "!", " NOT ", '|');
    ReplaceDropsChar(s4, '!', " NOT ");
    NoPairIsNotContained(s5, '&');
    NoPairIsNotContained(s5, '|');
  }

  // ---------------------------------------------------------------------
  // Finding the calls of table functions
  // ---------------------------------------------------------------------

  /** `\bname\s*\(` matches s at i, letters compared without regard to ASCII
      case; the result is the position of the `(`. Every table key starts
      with a letter, so the word boundary only looks at s[i - 1]. */
  function CallOpenAt(s: String, name: String, i: nat): (r: Option<nat>)
    ensures r.Some? ==> i + |name| <= r.value < |s|
  {
    if i + |name| <= |s| && (i == 0 || !IsWordChar(s[i - 1])) && SpelledAt(s, i, name) then
      OpenAfterSpaces(s, i + |name|)
    else None
  }

  /** s spells name from position i, letters compared without regard to
      ASCII case. */
  predicate SpelledAt(s: String, i: nat, name: String)
    requires i + |name| <= |s|
    decreases |name|
  {
    name == [] || (LowerChar(s[i]) == LowerChar(name[0]) && SpelledAt(s, i + 1, name[1..]))
  }

  lemma {:induction false} SpelledAtLower(s: String, i: nat, name: String)
    requires i + |name| <= |s|
    ensures SpelledAt(s, i, name) <==> Lower(s[i..i + |name|]) == Lower(name)
    decreases |name|
  {
    if name != [] {
      SpelledAtLower(s, i + 1, name[1..]);
      var a, b := Lower(s[i..i + |name|]), Lower(name);
      assert a == [LowerChar(s[i])] + Lower(s[i + 1..i + |name|]);
      assert b == [LowerChar(name[0])] + Lower(name[1..]);
    }
  }

  /** `\s*\(` from position k: the position of the `(`. */
  function OpenAfterSpaces(s: String, k: nat): (r: Option<nat>)
    requires k <= |s|
    ensures r.Some? ==> k <= r.value < |s|
    decreases |s| - k
  {
    if k == |s| then None
    else if s[k] == '(' then Some(k)
    else if IsSpace(s[k]) then OpenAfterSpaces(s, k + 1)
    else None
  }

  lemma {:induction false} OpenAfterSpacesFinds(s: String, k: nat)
    requires k <= |s|
    ensures OpenAfterSpaces(s, k).Some? ==>
      s[OpenAfterSpaces(s, k).value] == '(' && forall m :: k <= m < OpenAfterSpaces(s, k).value ==> IsSpace(s[m])
    ensures OpenAfterSpaces(s, k).None? ==>
      forall p :: k <= p < |s| && s[p] == '(' ==> exists m :: k <= m < p && !IsSpace(s[m])
    decreases |s| - k
  {
    if k < |s| && s[k] != '(' && IsSpace(s[k]) {
      OpenAfterSpacesFinds(s, k + 1);
    }
  }

  /** A match spells the name (ignoring case) after a non-word character,
      and only white space separates it from the `(`. */
  lemma CallOpenAtMatches(s: String, name: String, i: nat)
    requires CallOpenAt(s, name, i).Some?
    ensures var p := CallOpenAt(s, name, i).value;
      && (i == 0 || !IsWordChar(s[i - 1]))
      && Lower(s[i..i + |name|]) == Lower(name)
      && s[p] == '('
      && forall k :: i + |name| <= k < p ==> IsSpace(s[k])
  {
    SpelledAtLower(s, i, name);
    OpenAfterSpacesFinds(s, i + |name|);
  }

  /** `re.search(r'\bf\s*\(', t, re.IGNORECASE)` over the positions
      below n (see CallsInSearches). */
  predicate CallsIn(t: String, f: String, n: nat)
    requires n <= |t|
  {
    n > 0 && (CallsIn(t, f, n - 1) || CallOpenAt(t, f, n - 1).Some?)
  }

  /** The search succeeds exactly when the pattern matches at some position
      below n. */
  lemma {:induction false} CallsInSearches(t: String, f: String, n: nat)
    requires n <= |t|
    ensures CallsIn(t, f, n) <==> exists i :: 0 <= i < n && CallOpenAt(t, f, i).Some?
  {
    if n > 0 {
      CallsInSearches(t, f, n - 1);
      if CallsIn(t, f, n) && !CallsIn(t, f, n - 1) {
        assert CallOpenAt(t, f, n - 1).Some?;
      }
      if exists i :: 0 <= i < n && CallOpenAt(t, f, i).Some? {
        var i :| 0 <= i < n && CallOpenAt(t, f, i).Some?;
        if i < n - 1 {
          assert CallsIn(t, f, n - 1);
        }
      }
    }
  }

  /** One disjunct of `has_nested`: f is called in the argument text, and
      the first case-sensitive occurrence of f after the `(` (or, when there
      is none, the slice Python takes at index -1) is not in capitals once
      trailing `(` are dropped. */
  predicate NestedBy(s: String, open: nat, close: nat, f: String)
    requires open < close <= |s|
  {
    |f| > 0 &&
    var k := Find(s, f, open + 1);
    !IsUpper(TrimEnd(PySlice(s, k, k + |f| + 1), {'('})) && CallsIn(s[open + 1..close], f, close - open - 1)
  }

  /** `has_nested`, over the first n keys of the table (see
      NestedAmongKeys). */
  predicate NestedAmong(table: Table, s: String, open: nat, close: nat, n: nat)
    requires open < close <= |s| && n <= |table|
  {
    n > 0 && (NestedAmong(table, s, open, close, n - 1) || NestedBy(s, open, close, table[n - 1].0))
  }

  /** `any` over the keys: some key among the first n passes NestedBy. */
  lemma {:induction false} NestedAmongKeys(table: Table, s: String, open: nat, close: nat, n: nat)
    requires open < close <= |s| && n <= |table|
    ensures NestedAmong(table, s, open, close, n) <==> exists j :: 0 <= j < n && NestedBy(s, open, close, table[j].0)
  {
    if n > 0 {
      NestedAmongKeys(table, s, open, close, n - 1);
      if NestedBy(s, open, close, table[n - 1].0) {
        assert 0 <= n - 1 < n && NestedBy(s, open, close, table[n - 1].0);
      } else if exists j :: 0 <= j < n && NestedBy(s, open, close, table[j].0) {
        var j :| 0 <= j < n && NestedBy(s, open, close, table[j].0);
        assert j < n - 1;
      }
    }
  }

  /** `has_nested`: some key of the table passes NestedBy. */
  predicate HasNested(table: Table, s: String, open: nat, close: nat)
    requires open < close <= |s|
  {
    NestedAmong(table, s, open, close, |table|)
  }

  /** A call of a table function found in the text: where its name starts,
      its `(` and matching `)`, and the table key. */
  datatype Call = Call(start: nat, open: nat, close: nat, key: String)

  /** The facts every candidate call satisfies: the key is spelled at the
      start (ignoring case), the parentheses match, and the spelling is not
      an upper-case name other than the key (an already converted call). */
  predicate IsCall(s: String, c: Call) {
    c.start + |c.key| <= c.open < c.close < |s|
    && CallOpenAt(s, c.key, c.start) == Some(c.open) && c.close == ClosingParen(s, c.open)
    && !(IsUpper(Strip(s[c.start..c.open])) && Strip(s[c.start..c.open]) != c.key)
  }

  /** The match of the key's pattern at i, when `_convert_all_functions`
      keeps it. */
  function CallAt(table: Table, s: String, key: String, i: nat): (r: Option<Call>)
    ensures r.Some? ==> r.value.start == i && r.value.key == key
    ensures r.Some? ==> i + |key| <= r.value.open < r.value.close < |s|
  {
    match CallOpenAt(s, key, i)
    case None => None
    case Some(p) =>
      var e := ClosingParen(s, p);
      if e == -1 then None
      else
        var spelled := Strip(s[i..p]);
        if IsUpper(spelled) && spelled != key then None
        else Some(Call(i, p, e, key))
  }

  /** Every kept match is a call. */
  lemma CallAtIsCall(table: Table, s: String, key: String, i: nat)
    requires CallAt(table, s, key, i).Some?
    ensures IsCall(s, CallAt(table, s, key, i).value)
  {
  }

  /** The calls f finds at 0, 1, ..., n - 1, in that order. */
  function Collect(f: nat -> Option<Call>, n: nat): (r: seq<Call>)
    requires forall i :: f(i).Some? ==> f(i).value.start == i
    ensures forall c :: c in r ==> c.start < n && f(c.start) == Some(c)
  {
    if n == 0 then []
    else
      var prev := Collect(f, n - 1);
      match f(n - 1)
      case None => prev
      case Some(c) => prev + [c]
  }

  /** Nothing f finds below n is missed. */
  lemma {:induction false} CollectComplete(f: nat -> Option<Call>, n: nat, i: nat)
    requires forall i :: f(i).Some? ==> f(i).value.start == i
    requires i < n && f(i).Some?
    ensures f(i).value in Collect(f, n)
  {
    if i < n - 1 {
      CollectComplete(f, n - 1, i);
    }
  }

  /** CallAt for one key, as a function of the position. */
  function KeptAt(table: Table, s: String, key: String): nat -> Option<Call> {
    (i: nat) => CallAt(table, s, key, i)
  }

  /** The kept matches of one key, left to right. */
  function CallsOf(table: Table, s: String, key: String): (r: seq<Call>)
    ensures CallsInside(r, s)
  {
    Collect(KeptAt(table, s, key), |s|)
  }

  /** No kept match of the key is missed. */
  lemma CallsOfComplete(table: Table, s: String, key: String, i: nat)
    requires CallAt(table, s, key, i).Some?
    ensures CallAt(table, s, key, i).value in CallsOf(table, s, key)
  {
    CollectComplete(KeptAt(table, s, key), |s|, i);
  }

  /** The kept matches of the first m table keys, key by key. */
  function CallsOfFirst(table: Table, s: String, m: nat): (r: seq<Call>)
    requires m <= |table|
    ensures CallsInside(r, s)
  {
    if m == 0 then [] else CallsOfFirst(table, s, m - 1) + CallsOf(table, s, table[m - 1].0)
  }

  /** Every listed match of the first m keys is kept at its start, for a
      key among the first m. */
  lemma {:induction false} CallsOfFirstKept(table: Table, s: String, m: nat, c: Call)
    requires m <= |table| && c in CallsOfFirst(table, s, m)
    ensures CallAt(table, s, c.key, c.start) == Some(c)
    ensures exists j :: 0 <= j < m && table[j].0 == c.key
  {
    var prev := CallsOfFirst(table, s, m - 1);
    var key := table[m - 1].0;
    if c in prev {
      CallsOfFirstKept(table, s, m - 1, c);
    } else {
      assert c in CallsOf(table, s, key);
      assert KeptAt(table, s, key)(c.start) == Some(c);
    }
  }

  lemma CallsOfFirstComplete(table: Table, s: String, m: nat, j: nat, i: nat)
    requires j < m <= |table| && CallAt(table, s, table[j].0, i).Some?
    ensures CallAt(table, s, table[j].0, i).value in CallsOfFirst(table, s, m)
  {
    CallsOfComplete(table, s, table[j].0, i);
    CallsOfFirstHas(table, s, m, j, CallAt(table, s, table[j].0, i).value);
  }

  /** The list of the first m keys holds the matches of each of them. */
  lemma {:induction false} CallsOfFirstHas(table: Table, s: String, m: nat, j: nat, c: Call)
    requires j < m <= |table| && c in CallsOf(table, s, table[j].0)
    ensures c in CallsOfFirst(table, s, m)
  {
    var prev := CallsOfFirst(table, s, m - 1);
    var here := CallsOf(table, s, table[m - 1].0);
    assert CallsOfFirst(table, s, m) == prev + here;
    if j < m - 1 {
      CallsOfFirstHas(table, s, m - 1, j, c);
    }
    InConcat(c, prev, here);
  }

  lemma InConcat<T>(x: T, a: seq<T>, b: seq<T>)
    ensures x in a + b <==> x in a || x in b
  {
  }

  /** The `matches` list of one iteration: kept matches of table keys only. */
  function Calls(table: Table, s: String): (r: seq<Call>)
    ensures CallsInside(r, s)
  {
    CallsOfFirst(table, s, |table|)
  }

  /** Every kept match of every table key is in the list. */
  lemma CallsComplete(table: Table, s: String, j: nat, i: nat)
    requires j < |table| && CallAt(table, s, table[j].0, i).Some?
    ensures CallAt(table, s, table[j].0, i).value in Calls(table, s)
  {
    CallsOfFirstComplete(table, s, |table|, j, i);
  }

  /** Every listed match is a call. */
  lemma CallsAreCalls(table: Table, s: String, c: Call)
    requires c in Calls(table, s)
    ensures IsCall(s, c) && CallAt(table, s, c.key, c.start) == Some(c)
    ensures exists j :: 0 <= j < |table| && table[j].0 == c.key
  {
    CallsOfFirstKept(table, s, |table|, c);
    CallAtIsCall(table, s, c.key, c.start);
  }

  /** Text without `(` holds no call. */
  lemma NoParenNoCalls(table: Table, s: String)
    requires '(' !in s
    ensures Calls(table, s) == []
  {
    var r := Calls(table, s);
    if r != [] {
      assert r[0] in r;
      CallsAreCalls(table, s, r[0]);
      CallOpenAtMatches(s, r[0].key, r[0].start);
    }
  }

  /** Each call's parentheses lie inside s. */
  predicate CallsInside(calls: seq<Call>, s: String) {
    forall k :: 0 <= k < |calls| ==> calls[k].start <= calls[k].open < calls[k].close < |s|
  }

  /** The `has_nested` flag of each found call. */
  function Nesting(table: Table, s: String, calls: seq<Call>): (r: seq<bool>)
    requires CallsInside(calls, s)
    ensures |r| == |calls|
  {
    seq(|calls|, k requires 0 <= k < |calls| =>
      HasNested(table, s, calls[k].open, calls[k].close))
  }

  lemma NestingConcat(table: Table, s: String, a: seq<Call>, b: seq<Call>)
    requires CallsInside(a, s) && CallsInside(b, s)
    ensures CallsInside(a + b, s)
    ensures Nesting(table, s, a + b) == Nesting(table, s, a) + Nesting(table, s, b)
  {
    assert forall k :: 0 <= k < |a + b| ==> (a + b)[k] == if k < |a| then a[k] else b[k - |a|];
  }

  lemma NestingSnoc(table: Table, s: String, a: seq<Call>, c: Call)
    requires CallsInside(a, s) && c.start <= c.open < c.close < |s|
    ensures CallsInside(a + [c], s)
    ensures Nesting(table, s, a + [c]) == Nesting(table, s, a) + [HasNested(table, s, c.open, c.close)]
  {
    NestingConcat(table, s, a, [c]);
  }

  /** The index of the first call without nested calls, at or after i. */
  function FirstInner(nested: seq<bool>, i: nat): (k: Option<nat>)
    requires i <= |nested|
    ensures k.None? ==> forall j :: i <= j < |nested| ==> nested[j]
    ensures k.Some? ==> i <= k.value < |nested| && !nested[k.value]
                        && forall j :: i <= j < k.value ==> nested[j]
    decreases |nested| - i
  {
    if i == |nested| then None
    else if !nested[i] then Some(i)
    else FirstInner(nested, i + 1)
  }

  /** The index of the call among calls[..n] that starts furthest right, the
      first listed among equals (a stable sort by decreasing start). */
  function Rightmost(calls: seq<Call>, n: nat): (k: nat)
    requires 0 < n <= |calls|
    ensures k < n
    ensures forall j :: 0 <= j < n ==> calls[j].start <= calls[k].start
    ensures forall j :: 0 <= j < k ==> calls[j].start < calls[k].start
  {
    if n == 1 then 0
    else
      var k := Rightmost(calls, n - 1);
      if calls[n - 1].start > calls[k].start then n - 1 else k
  }

  /** The call `_convert_all_functions` converts next (see PickRule). */
  function Pick(calls: seq<Call>, nested: seq<bool>): (k: nat)
    requires calls != [] && |nested| == |calls|
    ensures k < |calls|
  {
    match FirstInner(nested, 0)
    case Some(k) => k
    case None => Rightmost(calls, |calls|)
  }

  /** The first call without nested calls, or else the rightmost one (the
      first listed among those starting at the same place). */
  lemma PickRule(calls: seq<Call>, nested: seq<bool>)
    requires calls != [] && |nested| == |calls|
    ensures var k := Pick(calls, nested);
      && ((exists j :: 0 <= j < |calls| && !nested[j]) ==>
            !nested[k] && forall j :: 0 <= j < k ==> nested[j])
      && ((forall j :: 0 <= j < |calls| ==> nested[j]) ==>
            (forall j :: 0 <= j < |calls| ==> calls[j].start <= calls[k].start)
            && forall j :: 0 <= j < k ==> calls[j].start < calls[k].start)
  {
  }

  // ---------------------------------------------------------------------
  // The rewrite loop
  // ---------------------------------------------------------------------

  /** `max_iterations` */
  const MaxIterations: nat := 100

  /** What one iteration does: no call left, stop (keeping the text), or
      replace one call. Each carries the notes the conversion added. */
  datatype Step = NoCall | Stop(notes: seq<String>) | Replaced(text: String, notes: seq<String>)

  /** r is s with the text from i to j swapped for something non-empty:
      it keeps what comes before i and after j, and is longer than those. */
  predicate SwapsOut(s: String, r: String, i: nat, j: nat)
    requires i <= j < |s|
  {
    var tail := |s| - j - 1;
    i + tail < |r| && r[..i] == s[..i] && r[|r| - tail..] == s[j + 1..]
  }

  /** `s[:i] + t + s[j + 1:]`: the text from i to j swapped for t. */
  function Splice(s: String, i: nat, j: nat, t: String): (r: String)
    requires i <= j < |s|
    ensures |r| == i + |t| + (|s| - j - 1)
  {
    s[..i] + t + s[j + 1..]
  }

  /** Splicing in a non-empty text keeps both ends of s. */
  lemma SpliceSwapsOut(s: String, i: nat, j: nat, t: String)
    requires i <= j < |s| && t != []
    ensures SwapsOut(s, Splice(s, i, j, t), i, j)
  {
    var r := Splice(s, i, j, t);
    assert r[..i] == s[..i];
    assert r[|r| - (|s| - j - 1)..] == s[j + 1..];
  }

  /** A replacement changes the text, swapping the call for its
      conversion and keeping what surrounds it. */
  lemma OutcomeSwapsOut(s: String, c: Call, conv: Conversion)
    requires c.start <= c.close < |s|
    ensures var r := Outcome(s, c, conv);
      r.Replaced? <==> conv.sql.Some? && conv.sql.value != [] && Splice(s, c.start, c.close, conv.sql.value) != s
    ensures var r := Outcome(s, c, conv);
      r.Replaced? ==> r.text != s && SwapsOut(s, r.text, c.start, c.close)
  {
    if conv.sql.Some? && conv.sql.value != [] {
      SpliceSwapsOut(s, c.start, c.close, conv.sql.value);
    }
  }

  /** The call an iteration converts (see Pick). */
  function Picked(table: Table, s: String): (c: Call)
    requires Calls(table, s) != []
    ensures c.start <= c.open < c.close < |s|
  {
    var calls := Calls(table, s);
    calls[Pick(calls, Nesting(table, s, calls))]
  }

  /** What converting call c of s gives: a stop when the conversion fails,
      is empty or changes nothing, and otherwise the text with the call
      replaced. */
  function Outcome(s: String, c: Call, conv: Conversion): (r: Step)
    requires c.start <= c.close < |s|
    ensures !r.NoCall? && r.notes == conv.notes
  {
    match conv.sql
    case None => Stop(conv.notes)
    case Some(t) =>
      if t == [] then Stop(conv.notes)
      else
        var next := Splice(s, c.start, c.close, t);
        if next == s then Stop(conv.notes) else Replaced(next, conv.notes)
  }

  /** `_convert_function` as a function value. */
  function ConvertCallOf(table: Table): (String, seq<String>) -> Conversion {
    (name: String, args: seq<String>) => ConvertCall(table, name, args)
  }

  /** One iteration of `_convert_all_functions`, with `convert` converting
      a call: a replacement swaps the picked call, from its name to its
      matching `)`, for non-empty text. */
  function RewriteStep(table: Table, convert: (String, seq<String>) -> Conversion, s: String): (r: Step)
  {
    if Calls(table, s) == [] then NoCall
    else
      var c := Picked(table, s);
      Outcome(s, c, convert(c.key, SplitArgsOf(s[c.open + 1..c.close])))
  }

  /** RewriteStep as a function value. */
  function StepOf(table: Table, convert: (String, seq<String>) -> Conversion): String -> Step {
    s => RewriteStep(table, convert, s)
  }

  /** The calls of a text, as a function value. */
  function CallsFn(table: Table): String -> seq<Call> {
    s => Calls(table, s)
  }

  /** The `has_nested` flags of the calls of a text, as a function value. */
  function NestingFn(table: Table): String -> seq<bool> {
    s => Nesting(table, s, Calls(table, s))
  }

  /** The name map is built from the table, and the function values agree
      with the functions they stand for on it. */
  ghost predicate Linked(table: Table, names: seq<(String, String)>,
                         convert: (String, seq<String>) -> Conversion, step: String -> Step,
                         callsIn: String -> seq<Call>, nestingIn: String -> seq<bool>)
  {
    && names == LowerNames(table)
    && (forall name, args {:trigger ConvertCall(table, name, args)} ::
          convert(name, args) == ConvertCall(table, name, args))
    && (forall t {:trigger RewriteStep(table, convert, t)} ::
          step(t) == RewriteStep(table, convert, t))
    && (forall t {:trigger Calls(table, t)} ::
          callsIn(t) == Calls(table, t) && nestingIn(t) == Nesting(table, t, Calls(table, t)))
  }

  /** The function values built from a table are linked to it. */
  lemma Links(table: Table)
    ensures Linked(table, LowerNames(table), ConvertCallOf(table), StepOf(table, ConvertCallOf(table)),
                   CallsFn(table), NestingFn(table))
  {
  }

  /** The text, the notes and the number of replacements of the loop run
      with `fuel` iterations left. */
  datatype Rewritten = Rewritten(text: String, notes: seq<String>, steps: nat)

  /** The loop with `fuel` iterations allowed, each done by `step`: it stops
      when no call is left, when an iteration stops, or when the fuel is
      spent, and collects the notes of every iteration. */
  function Run(step: String -> Step, s: String, fuel: nat): (r: Rewritten)
    ensures r.steps <= fuel
    decreases fuel
  {
    if fuel == 0 then Rewritten(s, [], 0)
    else
      match step(s)
      case NoCall => Rewritten(s, [], 0)
      case Stop(n) => Rewritten(s, n, 0)
      case Replaced(t, n) =>
        var r := Run(step, t, fuel - 1);
        Rewritten(r.text, n + r.notes, r.steps + 1)
  }

  /** One iteration of the loop: a replacement hands the rest of the fuel
      to the new text and puts its notes after those gathered so far; any
      other outcome ends the loop on the text as it is. */
  lemma RunOnce(step: String -> Step, s: String, fuel: nat, before: seq<String>)
    requires fuel > 0
    ensures step(s).Replaced? ==>
      && Run(step, s, fuel).text == Run(step, step(s).text, fuel - 1).text
      && before + Run(step, s, fuel).notes == (before + step(s).notes) + Run(step, step(s).text, fuel - 1).notes
    ensures !step(s).Replaced? ==>
      && Run(step, s, fuel).text == s
      && Run(step, s, fuel).notes == if step(s).NoCall? then [] else step(s).notes
  {
    if step(s).Replaced? {
      var r := Run(step, step(s).text, fuel - 1);
      assert before + (step(s).notes + r.notes) == (before + step(s).notes) + r.notes;
    }
  }

  /** While every text the loop reaches is one where an iteration replaces
      a call (`inv` holds of it, and of what the iteration makes of it), the
      loop runs until the fuel is spent. */
  lemma {:induction false} RunToCap(step: String -> Step, inv: String -> bool, s: String, fuel: nat)
    requires inv(s)
    requires forall t :: inv(t) ==> step(t).Replaced? && inv(step(t).text)
    ensures Run(step, s, fuel).steps == fuel && inv(Run(step, s, fuel).text)
    decreases fuel
  {
    if fuel > 0 {
      RunToCap(step, inv, step(s).text, fuel - 1);
    }
  }

  /** `_convert_all_functions` with `fuel` iterations allowed. */
  function Rewrite(table: Table, s: String, fuel: nat): Rewritten {
    Run(StepOf(table, ConvertCallOf(table)), s, fuel)
  }

  /** When every iteration adds at most one note, so does the loop per
      replacement, plus one for the iteration that stops it. */
  lemma {:induction false} RunNotes(step: String -> Step, s: String, fuel: nat)
    requires forall t :: step(t).NoCall? || |step(t).notes| <= 1
    ensures |Run(step, s, fuel).notes| <= Run(step, s, fuel).steps + 1
    decreases fuel
  {
    if fuel > 0 {
      match step(s)
      case NoCall =>
      case Stop(n) =>
      case Replaced(t, n) => RunNotes(step, t, fuel - 1);
    }
  }

  /** A conversion adds at most one note. */
  lemma ConvertCallNotes(table: Table, name: String, args: seq<String>)
    ensures |ConvertCall(table, name, args).notes| <= 1
  {
  }

  /** The loop adds at most one note per replacement, plus one. */
  lemma RewriteNotes(table: Table, s: String, fuel: nat)
    ensures |Rewrite(table, s, fuel).notes| <= Rewrite(table, s, fuel).steps + 1
  {
    var step := StepOf(table, ConvertCallOf(table));
    forall t ensures step(t).NoCall? || |step(t).notes| <= 1 {
      if Calls(table, t) != [] {
        var c := Picked(table, t);
        ConvertCallNotes(table, c.key, SplitArgsOf(t[c.open + 1..c.close]));
      }
    }
    RunNotes(step, s, fuel);
  }

  /** Text without a parenthesis leaves the loop unchanged and without notes. */
  lemma NoParenPassesThrough(table: Table, s: String, fuel: nat)
    requires '(' !in s
    ensures Rewrite(table, s, fuel) == Rewritten(s, [], 0)
  {
    NoParenNoCalls(table, s);
  }

  // ---------------------------------------------------------------------
  // `convert` as a whole
  // ---------------------------------------------------------------------

  /** The text `convert` hands to the rewrite loop. */
  function Prepare(expr: String): String {
    ReplaceOperators(QuoteFields(Strip(expr)))
  }

  /** The result and notes of `convert` on a non-empty expression. */
  function Converted(table: Table, expr: String): Rewritten {
    Rewrite(table, Prepare(expr), MaxIterations)
  }

  // ---------------------------------------------------------------------
  // Date formats and aggregations
  // ---------------------------------------------------------------------

  /** The first n replacements of `convert_date_format`, in table order. An
      empty specifier (the table has none) is skipped. */
  function ApplyDateFormats(table: seq<(String, String)>, s: String, n: nat): String
    requires n <= |table|
  {
    if n == 0 then s
    else
      var (spec, trino) := table[n - 1];
      if spec == [] then ApplyDateFormats(table, s, n - 1)
      else Replace(ApplyDateFormats(table, s, n - 1), spec, trino)
  }

  /** A format with no `%` is left alone when every specifier starts with
      `%`. */
  lemma {:induction false} NoSpecifierUnchanged(table: seq<(String, String)>, s: String, n: nat)
    requires n <= |table| && '%' !in s
    requires forall k :: 0 <= k < |table| ==> table[k].0 == [] || table[k].0[0] == '%'
    ensures ApplyDateFormats(table, s, n) == s
  {
    if n > 0 {
      NoSpecifierUnchanged(table, s, n - 1);
      var (spec, trino) := table[n - 1];
      if spec != [] {
        ReplaceAbsent(s, spec, trino);
      }
    }
  }

  /** Every Alteryx date specifier starts with `%`. */
  lemma DateSpecifiersArePercent()
    ensures forall k :: 0 <= k < |DateFormatTable| ==> |DateFormatTable[k].0| == 2 && DateFormatTable[k].0[0] == '%'
  {
  }

  /** `convert_aggregation`: a known aggregation with a `{d}` template is
      filled with the field and the extra arguments, falling back to the
      name before `(` applied to the field when there are too few; a
      plain name is applied to the field; an unknown one is kept behind a
      TODO comment. */
  function ConvertAggregation(action: String, field: String, extra: seq<String>): (r: String)
    ensures Dicts.Get(AggregationTable, action) in {None, Some("")} ==> r == "/* TODO: " + action + " */ " + field
  {
    match Dicts.Get(AggregationTable, action)
    case None => "/* TODO: " + action + " */ " + field
    case Some(m) =>
      if m == [] then "/* TODO: " + action + " */ " + field
      else if '{' in m then
        match Format(m, [field] + extra)
        case Some(f) => f
        case None => Split(m, '(')[0] + "(" + field + ")"
      else m + "(" + field + ")"
  }

  /** The full month name becomes `%M`: it is rewritten after the minutes, so it is not turned into minutes in turn. */
  lemma MonthNameExample()
    ensures ApplyDateFormats(DateFormatTable, "%B", |DateFormatTable|) == "%M"
  {
    var t := DateFormatTable;
    assert t[0] == ("%Y", "%Y");
    assert Replace("%B", "%Y", "%Y") == "%B";
    assert t[1] == ("%y", "%y");
    assert Replace("%B", "%y", "%y") == "%B";
    assert t[2] == ("%m", "%m");
    assert Replace("%B", "%m", "%m") == "%B";
    assert t[3] == ("%d", "%d");
    assert Replace("%B", "%d", "%d") == "%B";
    assert t[4] == ("%H", "%H");
    assert Replace("%B", "%H", "%H") == "%B";
    assert t[5] == ("%M", "%i");
    assert Replace("%B", "%M", "%i") == "%B";
    assert t[6] == ("%S", "%s");
    assert Replace("%B", "%S", "%s") == "%B";
    assert t[7] == ("%B", "%M");
    assert Replace("%B", "%B", "%M") == "%M";
    assert t[8] == ("%b", "%b");
    assert Replace("%M", "%b", "%b") == "%M";
    assert t[9] == ("%A", "%W");
    assert Replace("%M", "%A", "%W") == "%M";
    assert t[10] == ("%a", "%a");
    assert Replace("%M", "%a", "%a") == "%M";
    assert t[11] == ("%p", "%p");
    assert Replace("%M", "%p", "%p") == "%M";
    assert t[12] == ("%I", "%I");
    assert Replace("%M", "%I", "%I") == "%M";
  }

  /** Minutes become `%i`. */
  lemma MinutesExample()
    ensures ApplyDateFormats(DateFormatTable, "%M", |DateFormatTable|) == "%i"
  {
    var t := DateFormatTable;
    assert t[0] == ("%Y", "%Y");
    assert Replace("%M", "%Y", "%Y") == "%M";
    assert t[1] == ("%y", "%y");
    assert Replace("%M", "%y", "%y") == "%M";
    assert t[2] == ("%m", "%m");
    assert Replace("%M", "%m", "%m") == "%M";
    assert t[3] == ("%d", "%d");
    assert Replace("%M", "%d", "%d") == "%M";
    assert t[4] == ("%H", "%H");
    assert Replace("%M", "%H", "%H") == "%M";
    assert t[5] == ("%M", "%i");
    assert Replace("%M", "%M", "%i") == "%i";
    assert t[6] == ("%S", "%s");
    assert Replace("%i", "%S", "%s") == "%i";
    assert t[7] == ("%B", "%M");
    assert Replace("%i", "%B", "%M") == "%i";
    assert t[8] == ("%b", "%b");
    assert Replace("%i", "%b", "%b") == "%i";
    assert t[9] == ("%A", "%W");
    assert Replace("%i", "%A", "%W") == "%i";
    assert t[10] == ("%a", "%a");
    assert Replace("%i", "%a", "%a") == "%i";
    assert t[11] == ("%p", "%p");
    assert Replace("%i", "%p", "%p") == "%i";
    assert t[12] == ("%I", "%I");
    assert Replace("%i", "%I", "%I") == "%i";
  }

  /** An aggregation whose template takes the field and the extra arguments
      is filled with them. */
  lemma AggregationFilled(action: String, field: String, extra: seq<String>, m: String)
    requires Dicts.Get(AggregationTable, action) == Some(m) && '{' in m
    requires Format(m, [field] + extra).Some?
    ensures ConvertAggregation(action, field, extra) == Format(m, [field] + extra).value
  {
  }

  /** `Sum` is applied to the field. */
  lemma SumExample(field: String)
    ensures ConvertAggregation("Sum", field, []) == "SUM(" + field + ")"
  {
    var t := AggregationTable;
    assert t[0] == ("Sum", "SUM");
    assert forall j :: 0 < j < |t| ==> t[j].0 != "Sum";
    AggregationAt("Sum", 0, "SUM");
    AggregationApplied("Sum", field, [], "SUM");
    assert "SUM" + "(" == "SUM(";
  }



  /** `CountDistinct` fills its one-field template. */
  lemma CountDistinctExample(field: String)
    ensures ConvertAggregation("CountDistinct", field, []) == "COUNT(DISTINCT " + field + ")"
  {
    var m := "COUNT(DISTINCT {0})";
    CountDistinctListed();
    FillCountDistinct(field);
    assert m[15] == '{';
    assert [field] + [] == [field];
    AggregationFilled("CountDistinct", field, [], m);
  }

  /** An aggregation whose value has no template is applied to the field. */
  lemma AggregationApplied(action: String, field: String, extra: seq<String>, m: String)
    requires Dicts.Get(AggregationTable, action) == Some(m) && m != [] && '{' !in m
    ensures ConvertAggregation(action, field, extra) == m + "(" + field + ")"
  {
  }

  lemma CountDistinctListed()
    ensures Dicts.Get(AggregationTable, "CountDistinct") == Some("COUNT(DISTINCT {0})")
  {
    var m := "COUNT(DISTINCT {0})";
    assert AggregationTable[2] == ("CountDistinct", m);
    assert forall j :: 2 < j < |AggregationTable| ==> AggregationTable[j].0 != "CountDistinct";
    AggregationAt("CountDistinct", 2, m);
  }

  lemma AggregationAt(action: String, i: nat, m: String)
    requires i < |AggregationTable| && AggregationTable[i] == (action, m)
    requires forall j :: i < j < |AggregationTable| ==> AggregationTable[j].0 != action
    ensures Dicts.Get(AggregationTable, action) == Some(m)
  {
    Dicts.GetLast(AggregationTable, action, i);
  }

  lemma FillCountDistinct(field: String)
    ensures Format("COUNT(DISTINCT {0})", [field]) == Some("COUNT(DISTINCT " + field + ")")
  {
    assert "COUNT(DISTINCT " + ['{', DigitChar(0), '}'] + ")" == "COUNT(DISTINCT {0})";
    FormatOneField("COUNT(DISTINCT ", 0, ")", [field]);
  }



  /** An aggregation whose template needs more arguments than it is given
      falls back to the name before the `(` applied to the field. */
  lemma AggregationFallback(action: String, field: String, extra: seq<String>, m: String)
    requires Dicts.Get(AggregationTable, action) == Some(m) && '{' in m
    requires |extra| + 1 < Needed(m)
    ensures ConvertAggregation(action, field, extra) == Split(m, '(')[0] + "(" + field + ")"
  {
  }

  lemma NamedFallback(action: String, field: String, m: String, name: String)
    requires Dicts.Get(AggregationTable, action) == Some(m) && '{' in m
    requires 1 < Needed(m) && Split(m, '(')[0] == name
    ensures ConvertAggregation(action, field, []) == name + "(" + field + ")"
  {
    AggregationFallback(action, field, [], m);
  }

  /** Percentile without its extra argument falls back to the name before
      `(` applied to the field. */
  lemma PercentileFallbackExample(field: String)
    ensures ConvertAggregation("Percentile", field, []) == "APPROX_PERCENTILE" + "(" + field + ")"
  {
    PercentileLookup();
    PercentileNeedsTwo();
    PercentileName();
    NamedFallback("Percentile", field, "APPROX_PERCENTILE({0}, {1})", "APPROX_PERCENTILE");
  }

  /** Text without braces needs no arguments of its own. */
  lemma {:induction false} NeededSkip(pre: String, t: String)
    requires '{' !in pre
    ensures Needed(pre + t) == Needed(t)
    decreases |pre|
  {
    if pre != [] {
      assert (pre + t)[0] == pre[0] && !FieldAtStart(pre + t);
      assert Needed(pre + t) == Needed((pre + t)[1..]);
      assert (pre + t)[1..] == pre[1..] + t;
      assert '{' !in pre[1..];
      NeededSkip(pre[1..], t);
    } else {
      assert pre + t == t;
    }
  }

  lemma PercentileLookup()
    ensures Dicts.Get(AggregationTable, "Percentile") == Some("APPROX_PERCENTILE({0}, {1})")
    ensures '{' in "APPROX_PERCENTILE({0}, {1})"
  {
    assert "APPROX_PERCENTILE({0}, {1})"[18] == '{';
    AggregationAt("Percentile", 18, "APPROX_PERCENTILE({0}, {1})");
  }

  lemma PercentileNeedsTwo()
    ensures Needed("APPROX_PERCENTILE({0}, {1})") == 2
  {
    var f0, f1 := ['{', DigitChar(0), '}'], ['{', DigitChar(1), '}'];
    assert "APPROX_PERCENTILE({0}, {1})" == "APPROX_PERCENTILE(" + (f0 + (", " + (f1 + ")")));
    NeededSkip("APPROX_PERCENTILE(", f0 + (", " + (f1 + ")")));
    NeededField(0, ", " + (f1 + ")"));
    NeededSkip(", ", f1 + ")");
    NeededField(1, ")");
    NeededSkip(")", []);
    assert ")" + [] == ")";
  }

  /** A field `{d}` at the start needs d + 1 arguments, or what the rest
      needs if that is more. */
  lemma NeededField(d: nat, rest: String)
    requires d < 10
    ensures Needed(['{', DigitChar(d), '}'] + rest) == Max(d + 1, Needed(rest))
  {
    var t := ['{', DigitChar(d), '}'] + rest;
    assert FieldAtStart(t) && FieldIndex(t) == d && t[3..] == rest;
  }

  lemma PercentileName()
    ensures Split("APPROX_PERCENTILE({0}, {1})", '(')[0] == "APPROX_PERCENTILE"
  {
    assert "APPROX_PERCENTILE({0}, {1})" == "APPROX_PERCENTILE" + ['('] + "{0}, {1})";
    SplitFirst("APPROX_PERCENTILE", '(', "{0}, {1})");
  }

  /** An iteration read off the calls and their flags: none left, or the
      outcome of converting the picked one. */
  lemma StepOfCalls(table: Table, convert: (String, seq<String>) -> Conversion, step: String -> Step,
                    callsIn: String -> seq<Call>, nestingIn: String -> seq<bool>,
                    s: String, calls: seq<Call>, nested: seq<bool>)
    requires forall t {:trigger RewriteStep(table, convert, t)} :: step(t) == RewriteStep(table, convert, t)
    requires forall t {:trigger Calls(table, t)} ::
      callsIn(t) == Calls(table, t) && nestingIn(t) == Nesting(table, t, Calls(table, t))
    requires calls == callsIn(s) && nested == nestingIn(s)
    ensures |nested| == |calls|
    ensures calls == [] ==> step(s) == NoCall
    ensures calls != [] ==>
      var c := calls[Pick(calls, nested)];
      && c.start <= c.open < c.close < |s|
      && step(s) == Outcome(s, c, convert(c.key, SplitArgsOf(s[c.open + 1..c.close])))
  {
    assert step(s) == RewriteStep(table, convert, s);
  }

  class FormulaConverter {
    /** `_conversion_notes`, returned by `get_conversion_notes`. */
    var notes: seq<String>
    /** `function_map` */
    const functionMap: Table
    /** `date_format_map` */
    const dateFormatMap: seq<(String, String)>
    /** `_func_name_map`: lower-cased key to key. */
    const funcNameMap: seq<(String, String)>
    /** What `_convert_function` computes, as a function value. */
    ghost const convert: (String, seq<String>) -> Conversion
    /** What one iteration of `_convert_all_functions` computes. */
    ghost const step: String -> Step
    /** The calls of a text, and their `has_nested` flags. */
    ghost const callsIn: String -> seq<Call>
    ghost const nestingIn: String -> seq<bool>

    /** The name map is built from the function map, no date specifier is
        empty, and the function values agree with the functions they stand
        for on this function map. */
    ghost predicate Valid() {
      && Linked(functionMap, funcNameMap, convert, step, callsIn, nestingIn)
      && (forall k :: 0 <= k < |dateFormatMap| ==> dateFormatMap[k].0 != [])
    }

    /** `__init__`, given the function table and the date table it reads;
        no date specifier may be empty. */
    constructor (table: Table, dates: seq<(String, String)>)
      requires forall k :: 0 <= k < |dates| ==> dates[k].0 != []
      ensures functionMap == table && dateFormatMap == dates && notes == []
      ensures convert == ConvertCallOf(table) && step == StepOf(table, convert)
      ensures Valid()
    {
      functionMap := table;
      dateFormatMap := dates;
      funcNameMap := LowerNames(table);
      convert := ConvertCallOf(table);
      step := StepOf(table, ConvertCallOf(table));
      callsIn := CallsFn(table);
      nestingIn := NestingFn(table);
      notes := [];
      Links(table);
    }

    /** `convert`: the empty expression is `NULL` and leaves the notes alone;
        any other is prepared, run through the rewrite loop, and the notes
        are those of this conversion only. */
    method Convert(expr: String) returns (sql: String)
      requires Valid()
      modifies this
      ensures expr == [] ==> sql == "NULL" && notes == old(notes)
      ensures expr != [] ==> sql == Run(step, Prepare(expr), MaxIterations).text
      ensures expr != [] ==> notes == Run(step, Prepare(expr), MaxIterations).notes
    {
      if expr == [] {
        return "NULL";
      }
      notes := [];
      sql := Strip(expr);
      sql := QuoteFields(sql);
      sql := Replace(sql, "==", "=");
      sql := Replace(sql, "&&", " AND ");
      sql := Replace(sql, "||", " OR ");
      sql := Replace(sql, "!=", "<>");
      sql := Replace(sql, "!", " NOT ");
      sql := ConvertAllFunctions(sql, MaxIterations);
    }

    /** The `matches` of one iteration of `_convert_all_functions`, key by
        key in table order and left to right, each with its `has_nested`
        flag. */
    method FindCalls(s: String) returns (calls: seq<Call>, nested: seq<bool>)
      requires Valid()
      ensures calls == callsIn(s) && nested == nestingIn(s)
    {
      calls := [];
      nested := [];
      for j := 0 to |functionMap|
        invariant calls == CallsOfFirst(functionMap, s, j)
        invariant CallsInside(calls, s)
        invariant nested == Nesting(functionMap, s, calls)
      {
        var found, flags := KeyCalls(s, functionMap[j].0);
        NestingConcat(functionMap, s, calls, found);
        calls := calls + found;
        nested := nested + flags;
      }
      assert calls == Calls(functionMap, s);
    }

    /** The matches of one key, left to right (`re.finditer` with the
        filter of `_convert_all_functions`), each with its `has_nested`
        flag. */
    method KeyCalls(s: String, key: String) returns (calls: seq<Call>, nested: seq<bool>)
      ensures calls == CallsOf(functionMap, s, key)
      ensures CallsInside(calls, s)
      ensures nested == Nesting(functionMap, s, calls)
    {
      calls := [];
      nested := [];
      for i := 0 to |s|
        invariant calls == Collect(KeptAt(functionMap, s, key), i)
        invariant CallsInside(calls, s)
        invariant nested == Nesting(functionMap, s, calls)
      {
        assert KeptAt(functionMap, s, key)(i) == CallAt(functionMap, s, key, i);
        var m := MatchAt(s, key, i);
        if m.Some? {
          NestingSnoc(functionMap, s, calls, m.value);
          calls := calls + [m.value];
          nested := nested + [HasNested(functionMap, s, m.value.open, m.value.close)];
        }
      }
    }

    /** The match of the key's pattern at i, kept unless its `)` is missing
        or it is spelled as an upper-case name other than the key. */
    method MatchAt(s: String, key: String, i: nat) returns (m: Option<Call>)
      ensures m == CallAt(functionMap, s, key, i)
    {
      var p := CallOpenAt(s, key, i);
      if p.None? {
        return None;
      }
      var e := FindMatchingParen(s, p.value);
      if e == -1 {
        return None;
      }
      var spelled := Strip(s[i..p.value]);
      if IsUpper(spelled) && spelled != key {
        return None;
      }
      return Some(Call(i, p.value, e, key));
    }

    /** `_convert_all_functions`: at most `maxIterations` iterations, each
        replacing the call Pick chooses; the notes of every conversion are
        added. */
    method ConvertAllFunctions(expr: String, maxIterations: nat) returns (result: String)
      requires Valid()
      modifies this
      ensures result == Run(step, expr, maxIterations).text
      ensures notes == old(notes) + Run(step, expr, maxIterations).notes
    {
      result := expr;
      var iteration := 0;
      while iteration < maxIterations
        invariant iteration <= maxIterations
        invariant Run(step, result, maxIterations - iteration).text == Run(step, expr, maxIterations).text
        invariant old(notes) + Run(step, expr, maxIterations).notes
                  == notes + Run(step, result, maxIterations - iteration).notes
      {
        RunOnce(step, result, maxIterations - iteration, notes);
        var outcome := Iterate(result);
        if !outcome.Replaced? {
          break;
        }
        result := outcome.text;
        iteration := iteration + 1;
      }
    }

    /** The body of the loop of `_convert_all_functions`: find the calls,
        pick one, and convert it in place. */
    method Iterate(s: String) returns (outcome: Step)
      requires Valid()
      modifies this
      ensures outcome == step(s)
      ensures notes == old(notes) + (if outcome.NoCall? then [] else outcome.notes)
    {
      var calls, nested := FindCalls(s);
      StepOfCalls(functionMap, convert, step, callsIn, nestingIn, s, calls, nested);
      if calls == [] {
        return NoCall;
      }
      var c := calls[Pick(calls, nested)];
      outcome := ConvertPicked(s, c);
    }

    /** The rest of an iteration once call c is picked: split its
        arguments, convert it, and splice the conversion in unless it
        failed, is empty or changes nothing. */
    method ConvertPicked(s: String, c: Call) returns (outcome: Step)
      requires Valid() && c.start <= c.open < c.close < |s|
      modifies this
      ensures outcome == Outcome(s, c, convert(c.key, SplitArgsOf(s[c.open + 1..c.close])))
      ensures notes == old(notes) + outcome.notes
    {
      var args := SplitArgs(s[c.open + 1..c.close]);
      var kept := |notes|;
      var sql := ConvertFunction(c.key, args);
      var added := notes[kept..];
      assert convert(c.key, args) == Conversion(sql, added);
      if sql.Some? && sql.value != [] {
        var next := Splice(s, c.start, c.close, sql.value);
        if next == s {
          return Stop(added);
        }
        return Replaced(next, added);
      }
      return Stop(added);
    }

    /** `_convert_function`: the conversion of one call, adding its notes. */
    method ConvertFunction(name: String, args: seq<String>) returns (sql: Option<String>)
      requires Valid()
      modifies this
      ensures sql == convert(name, args).sql
      ensures notes == old(notes) + convert(name, args).notes
    {
      assert convert(name, args) == ConvertCall(functionMap, name, args);
      var canonical := Dicts.Get(funcNameMap, Lower(name));
      if canonical.None? || canonical.value == [] {
        notes := notes + ["No mapping for Alteryx function: " + name];
        return None;
      }
      var mapping := Dicts.Get(functionMap, canonical.value);
      if mapping.None? {
        return None;
      }
      var spec := mapping.value;
      if spec.template.None? {
        var special := HandleSpecialFunction(name, args);
        return Some(special);
      }
      var template := spec.template.value;
      if spec.arity == 0 {
        return Some(template);
      }
      if spec.arity == -1 {
        return Some(Apply(template, args));
      }
      if '{' in template {
        var filled := Format(template, args);
        if filled.Some? {
          return filled;
        }
        notes := notes + [MismatchNote(name, spec.arity, |args|)];
        return Some(MismatchText(name, args));
      }
      return Some(Apply(template, args));
    }

    /** `_handle_special_function`, building the WHEN clauses of Switch pair
        by pair. */
    method HandleSpecialFunction(name: String, args: seq<String>) returns (sql: String)
      modifies this
      ensures Some(sql) == SpecialConversion(name, args).sql
      ensures notes == old(notes) + SpecialConversion(name, args).notes
    {
      if Lower(name) != "switch" {
        return "/* TODO: Convert " + name + " */ " + Apply(name, args);
      }
      if |args| < 2 {
        return "/* Invalid Switch */ NULL";
      }
      var value := args[0];
      var defaultValue := args[1];
      var cases := args[2..];
      if |cases| % 2 != 0 {
        notes := notes + [OddSwitchNote];
        return "/* TODO: Fix Switch */ COALESCE(" + Join(args, ", ") + ")";
      }
      var caseStmts: seq<String> := [];
      var i := 0;
      while i < |cases|
        invariant 0 <= i <= |cases| && i % 2 == 0
        invariant caseStmts == WhenClauses(cases[..i])
      {
        assert cases[..i + 2][..i] == cases[..i];
        caseStmts := caseStmts + ["WHEN " + cases[i] + " THEN " + cases[i + 1]];
        i := i + 2;
      }
      assert cases[..i] == cases;
      sql := "CASE " + value + " " + Join(caseStmts, " ") + " ELSE " + defaultValue + " END";
    }

    /** `_find_matching_paren` */
    method FindMatchingParen(expr: String, start: nat) returns (j: int)
      ensures j == ClosingParen(expr, start)
    {
      var depth := 1;
      var i := start + 1;
      var inString := false;
      var stringChar: Option<char> := None;
      while i < |expr| && depth > 0
        invariant inString <==> stringChar.Some?
        invariant start + 1 <= i
        invariant i > |expr| ==> i == start + 1 && depth == 1
        invariant i <= |expr| ==> Scan(depth, stringChar) == ScanText(Scan(1, None), expr[start + 1..i])
        invariant forall k :: start < k < i - 1 ==> !ClosesAt(expr, start, k)
        invariant i - 1 > start ==> (depth == 0 <==> ClosesAt(expr, start, i - 1))
        invariant i - 1 == start ==> depth == 1
        decreases |expr| - i
      {
        var c := expr[i];
        ghost var before := Scan(depth, stringChar);
        if IsQuote(c) && !inString {
          inString := true;
          stringChar := Some(c);
        } else if stringChar == Some(c) && inString {
          inString := false;
          stringChar := None;
        } else if !inString {
          if c == '(' {
            depth := depth + 1;
          } else if c == ')' {
            depth := depth - 1;
          }
        }
        assert Scan(depth, stringChar) == Advance(before, c);
        ScanOneMore(expr, start, i, before);
        i := i + 1;
      }
      ClosingParenFirst(expr, start);
      if depth == 0 {
        j := i - 1;
      } else {
        j := -1;
      }
    }

    /** `_split_args` */
    static method SplitArgs(argsText: String) returns (args: seq<String>)
      ensures args == SplitArgsOf(argsText)
    {
      args := [];
      var current: String := "";
      var depth := 0;
      var inString := false;
      var stringChar: Option<char> := None;
      ghost var raw: seq<String> := [];
      for n := 0 to |argsText|
        invariant inString <==> stringChar.Some?
        invariant Scan(depth, stringChar) == ScanText(Scan(0, None), argsText[..n])
        invariant Pieces(argsText[..n]) == raw + [current]
        invariant args == StripEach(raw)
      {
        var c := argsText[n];
        ghost var before := Scan(depth, stringChar);
        SplitOneMore(argsText, n, before, raw, current);
        if IsQuote(c) && !inString {
          inString := true;
          stringChar := Some(c);
          current := current + [c];
        } else if stringChar == Some(c) && inString {
          inString := false;
          stringChar := None;
          current := current + [c];
        } else if c == '(' && !inString {
          depth := depth + 1;
          current := current + [c];
        } else if c == ')' && !inString {
          depth := depth - 1;
          current := current + [c];
        } else if c == ',' && depth == 0 && !inString {
          StripEachSnoc(raw, current);
          args := args + [Strip(current)];
          raw := raw + [current];
          current := "";
        } else {
          current := current + [c];
        }
        assert Scan(depth, stringChar) == Advance(before, c);
      }
      assert argsText[..|argsText|] == argsText;
      SplitArgsLast(argsText, raw, current);
      if Strip(current) != [] {
        args := args + [Strip(current)];
      }
    }

    /** `convert_date_format`: the table's replacements in order. */
    method ConvertDateFormat(format: String) returns (result: String)
      requires Valid()
      ensures result == ApplyDateFormats(dateFormatMap, format, |dateFormatMap|)
    {
      result := format;
      for i := 0 to |dateFormatMap|
        invariant result == ApplyDateFormats(dateFormatMap, format, i)
      {
        var (spec, trino) := dateFormatMap[i];
        result := Replace(result, spec, trino);
      }
    }

    /** `get_conversion_notes` */
    method GetConversionNotes() returns (r: seq<String>)
      ensures r == notes
    {
      r := notes;
    }
  }

  /** `convert_alteryx_expression`: a fresh converter's `convert`. */
  method ConvertAlteryxExpression(expr: String) returns (sql: String)
    ensures expr == [] ==> sql == "NULL"
    ensures expr != [] ==> sql == Converted(FunctionTable, expr).text
  {
    DateSpecifiersArePercent();
    var converter := new FormulaConverter(FunctionTable, DateFormatTable);
    sql := converter.Convert(expr);
  }
}
