/** The IIF pass of transformation_analyzer.py worked through for an IIF
    nested in the condition of another: `IIF(IIF(a,b,c)t,x,y)` becomes two
    CASE expressions, the inner one inside the outer one's condition. */
module AnalyzerExamples {
  import opened Wrappers
  import opened Text
  import opened Analyzer
  import Formula

  /** The scanner state before any character. */
  const Start := Formula.Scan(0, None)

  /** Without a `(` there is no call to find. */
  lemma NoParenNoSearch(s: String, name: String, i: nat)
    requires i <= |s| && '(' !in s
    ensures SearchCall(s, name, i).None?
  {
    var r := SearchCall(s, name, i);
    if r.Some? {
      Formula.CallOpenAtMatches(s, name, r.value.0);
    }
  }

  /** Without a `(` the IIF pass leaves the text alone. */
  lemma NoParenIifRepeat(s: String, fuel: nat, n: nat)
    requires '(' !in s
    ensures Repeat(IifRewriter(fuel), s, n).0 == s
  {
    if n > 0 {
      NoParenNoSearch(s, "IIF", 0);
      IifRewriterOf(fuel, s);
      RepeatUnfold(IifRewriter(fuel), s, n);
    }
  }

  /** A pass whose first rewrite leaves no `(` ends with that rewrite. */
  lemma IifPassOnce(s: String, fuel: nat, r: String)
    requires IifStepAt(s, fuel) == Some(r) && '(' !in r
    ensures IifPass(s, fuel) == r
  {
    IifRewriterOf(fuel, s);
    RepeatUnfold(IifRewriter(fuel), s, MaxIterations);
    NoParenIifRepeat(r, fuel, MaxIterations - 1);
  }

  /** A text that opens with `IIF(` has its leftmost match there. */
  lemma IifAtStart(s: String)
    requires |s| >= 4 && s[..4] == "IIF("
    ensures SearchCall(s, "IIF", 0) == Some((0, 3))
  {
    assert s[0] == 'I' && s[1] == 'I' && s[2] == 'F' && s[3] == '(';
    assert Formula.SpelledAt(s, 2, "F");
    assert Formula.SpelledAt(s, 1, "IF");
    assert Formula.SpelledAt(s, 0, "IIF");
    assert Formula.OpenAfterSpaces(s, 3) == Some(3);
  }

  /** Characters other than parentheses leave the quote-blind matcher's
      depth alone. */
  lemma {:induction false} PlainSkip(expr: String, start: nat, i: nat, j: nat, d: int)
    requires start + 1 <= i <= j <= |expr| && d > 0
    requires '(' !in expr[i..j] && ')' !in expr[i..j]
    ensures PlainCloseFrom(expr, start, i, d) == PlainCloseFrom(expr, start, j, d)
    decreases j - i
  {
    if i < j {
      assert expr[i] == expr[i..j][0];
      assert expr[i + 1..j] == expr[i..j][1..];
      PlainSkip(expr, start, i + 1, j, d);
    }
  }

  /** No quote and no parenthesis, and no comma unless inside a parenthesis. */
  predicate PlainRun(t: String, depth: int) {
    forall k :: 0 <= k < |t| ==> !Formula.IsQuote(t[k]) && t[k] != '(' && t[k] != ')' && (t[k] == ',' ==> depth != 0)
  }

  /** Such characters lengthen the current piece and leave the scan as it is. */
  lemma {:induction false} PiecesPlainRun(s: String, n: nat, m: nat, st: Formula.Scan, raw: seq<String>, current: String)
    requires n <= m <= |s| && st.quote.None? && PlainRun(s[n..m], st.depth)
    requires st == Formula.ScanText(Start, s[..n]) && Formula.Pieces(s[..n]) == raw + [current]
    ensures Formula.ScanText(Start, s[..m]) == st
    ensures Formula.Pieces(s[..m]) == raw + [current + s[n..m]]
    decreases m - n
  {
    if n < m {
      assert s[n] == s[n..m][0];
      Formula.SplitOneMore(s, n, st, raw, current);
      assert s[n + 1..m] == s[n..m][1..];
      PiecesPlainRun(s, n + 1, m, st, raw, current + [s[n]]);
      assert current + [s[n]] + s[n + 1..m] == current + s[n..m];
    } else {
      assert current + s[n..m] == current;
    }
  }

  /** Outside literals a parenthesis moves the depth and joins the current piece. */
  lemma PiecesParen(s: String, n: nat, st: Formula.Scan, raw: seq<String>, current: String)
    requires n < |s| && (s[n] == '(' || s[n] == ')') && st.quote.None?
    requires st == Formula.ScanText(Start, s[..n]) && Formula.Pieces(s[..n]) == raw + [current]
    ensures Formula.ScanText(Start, s[..n + 1]) == Formula.Scan(if s[n] == '(' then st.depth + 1 else st.depth - 1, None)
    ensures Formula.Pieces(s[..n + 1]) == raw + [current + [s[n]]]
  {
    Formula.SplitOneMore(s, n, st, raw, current);
  }

  /** A word: no quote, parenthesis or comma, and no space at either end. */
  predicate Word(w: String) {
    w != [] && PlainRun(w, 0) && !IsSpace(w[0]) && !IsSpace(w[|w| - 1])
  }

  /** Such a run holds no parenthesis. */
  lemma PlainRunNoParen(t: String, d: int)
    requires PlainRun(t, d)
    ensures '(' !in t && ')' !in t
  {
  }

  /** Two such runs at the same depth make one. */
  lemma PlainRunJoin(x: String, y: String, d: int)
    requires PlainRun(x, d) && PlainRun(y, d)
    ensures PlainRun(x + y, d)
  {
    forall k | 0 <= k < |x + y|
      ensures !Formula.IsQuote((x + y)[k]) && (x + y)[k] != '(' && (x + y)[k] != ')' && ((x + y)[k] == ',' ==> d != 0)
    {
      if k < |x| {
        assert (x + y)[k] == x[k];
      } else {
        assert (x + y)[k] == y[k - |x|];
      }
    }
  }

  /** A word is its own `strip()`. */
  lemma StripWord(w: String)
    requires Word(w)
    ensures Strip(w) == w
  {
    assert TrimSpaceStart(w) == w;
    assert TrimSpaceEnd(w) == w;
  }

  /** Before any character: no piece closed, the scan at its start. */
  lemma PiecesBegin(s: String)
    ensures Formula.ScanText(Start, s[..0]) == Start && Formula.Pieces(s[..0]) == [] + [s[0..0]]
  {
    assert s[..0] == [] && s[0..0] == [];
  }

  /** A plain run lengthens the piece begun at k. */
  lemma RunFrom(s: String, k: nat, n: nat, m: nat, st: Formula.Scan, raw: seq<String>)
    requires k <= n <= m <= |s| && st.quote.None? && PlainRun(s[n..m], st.depth)
    requires Formula.ScanText(Start, s[..n]) == st && Formula.Pieces(s[..n]) == raw + [s[k..n]]
    ensures Formula.ScanText(Start, s[..m]) == st && Formula.Pieces(s[..m]) == raw + [s[k..m]]
  {
    PiecesPlainRun(s, n, m, st, raw, s[k..n]);
    assert s[k..n] + s[n..m] == s[k..m];
  }

  /** A plain run to the end of s completes the piece begun at k. */
  lemma RunToEnd(s: String, k: nat, n: nat, st: Formula.Scan, raw: seq<String>)
    requires k <= n <= |s| && st.quote.None? && PlainRun(s[n..], st.depth)
    requires Formula.ScanText(Start, s[..n]) == st && Formula.Pieces(s[..n]) == raw + [s[k..n]]
    ensures Formula.ScanText(Start, s) == st && Formula.Pieces(s) == raw + [s[k..]]
  {
    assert s[n..|s|] == s[n..];
    RunFrom(s, k, n, |s|, st, raw);
    assert s[..|s|] == s && s[k..|s|] == s[k..];
  }

  /** A parenthesis lengthens the piece begun at k and moves the depth. */
  lemma ParenAt(s: String, k: nat, n: nat, st: Formula.Scan, raw: seq<String>)
    requires k <= n < |s| && (s[n] == '(' || s[n] == ')') && st.quote.None?
    requires Formula.ScanText(Start, s[..n]) == st && Formula.Pieces(s[..n]) == raw + [s[k..n]]
    ensures Formula.ScanText(Start, s[..n + 1]) == Formula.Scan(if s[n] == '(' then st.depth + 1 else st.depth - 1, None)
    ensures Formula.Pieces(s[..n + 1]) == raw + [s[k..n + 1]]
  {
    PiecesParen(s, n, st, raw, s[k..n]);
    assert s[k..n] + [s[n]] == s[k..n + 1];
  }

  /** A word is a single piece, and the scan ends where it began. */
  lemma WordPiece(w: String)
    requires Word(w)
    ensures Formula.ScanText(Start, w) == Start && Formula.Pieces(w) == [w]
  {
    PiecesBegin(w);
    assert w[0..|w|] == w;
    RunFrom(w, 0, 0, |w|, Start, []);
    assert w[..|w|] == w;
  }

  /** Up to and including the `)` at j matching the `(` at i, with no
      parenthesis between them, the text is one piece at depth zero. */
  lemma CallChain(e: String, i: nat, j: nat)
    requires i < j < |e| && e[i] == '(' && e[j] == ')'
    requires PlainRun(e[0..i], 0) && PlainRun(e[i + 1..j], 1)
    ensures Formula.ScanText(Start, e[..j + 1]) == Start && Formula.Pieces(e[..j + 1]) == [] + [e[0..j + 1]]
  {
    PiecesBegin(e);
    RunFrom(e, 0, 0, i, Start, []);
    ParenAt(e, 0, i, Start, []);
    RunFrom(e, 0, i + 1, j, Formula.Scan(1, None), []);
    ParenAt(e, 0, j, Formula.Scan(1, None), []);
  }

  /** Where the parts of `w(m)t` sit. */
  lemma CallSlices(w: String, m: String, t: String)
    ensures var e := w + "(" + m + ")" + t; var i := |w|; var j := i + 1 + |m|;
      && e[0..i] == w && e[i] == '(' && e[i + 1..j] == m && e[j] == ')' && e[j + 1..] == t
  {
  }

  /** A call `w(m)t`, its inner commas inside the parenthesis, is a single
      piece, and the scan ends where it began. */
  lemma CallPiece(w: String, m: String, t: String)
    requires PlainRun(w, 0) && PlainRun(m, 1) && PlainRun(t, 0)
    ensures var e := w + "(" + m + ")" + t;
      Formula.ScanText(Start, e) == Start && Formula.Pieces(e) == [e]
  {
    var e := w + "(" + m + ")" + t;
    var j := |w| + 1 + |m|;
    CallSlices(w, m, t);
    CallChain(e, |w|, j);
    RunToEnd(e, 0, j + 1, Start, []);
    assert e[0..] == e;
  }

  /** Reading x + y is reading x, then y. */
  lemma {:induction false} ScanConcat(st: Formula.Scan, x: String, y: String)
    ensures Formula.ScanText(st, x + y) == Formula.ScanText(Formula.ScanText(st, x), y)
    decreases |y|
  {
    if y == [] {
      assert x + y == x;
    } else {
      var z := x + y;
      assert z[..|z| - 1] == x + y[..|y| - 1];
      ScanConcat(st, x, y[..|y| - 1]);
    }
  }

  /** A comma read at the top level leaves the scan at its start. */
  lemma CommaScan(u: String)
    requires Formula.ScanText(Start, u) == Start
    ensures Formula.ScanText(Start, u + ",") == Start
  {
    var uc := u + ",";
    assert uc[..|uc| - 1] == u;
  }

  /** So the text after it scans as if read alone... */
  lemma ScanAfterComma(u: String, v: String)
    requires Formula.ScanText(Start, u) == Start
    ensures Formula.ScanText(Start, u + "," + v) == Formula.ScanText(Start, v)
  {
    CommaScan(u);
    ScanConcat(Start, u + ",", v);
  }

  /** ... and a character read after it is a top-level comma there exactly
      when it is one in that text alone. */
  lemma LastCommaAfterComma(u: String, pre: String, v': String, c: char)
    requires pre == u + "," + v' && Formula.ScanText(Start, u) == Start
    ensures Formula.TopLevelComma(pre + [c], |pre|) == Formula.TopLevelComma(v' + [c], |v'|)
  {
    assert (pre + [c])[..|pre|] == pre;
    assert (v' + [c])[..|v'|] == v';
    ScanAfterComma(u, v');
  }

  /** The pieces of `u,` are those of u and an empty one. */
  lemma PiecesOfComma(u: String)
    requires Formula.ScanText(Start, u) == Start
    ensures Formula.Pieces(u + ",") == Formula.Pieces(u) + [[]]
  {
    var w := u + ",";
    assert w[..|w| - 1] == u;
    assert Formula.TopLevelComma(w, |w| - 1);
  }

  /** The pieces of pre + [c], from those of pre. */
  lemma PiecesLast(pre: String, c: char, p: seq<String>)
    requires p == Formula.Pieces(pre)
    ensures Formula.TopLevelComma(pre + [c], |pre|) ==> Formula.Pieces(pre + [c]) == p + [[]]
    ensures !Formula.TopLevelComma(pre + [c], |pre|) ==> Formula.Pieces(pre + [c]) == p[..|p| - 1] + [p[|p| - 1] + [c]]
  {
    var s := pre + [c];
    assert s[..|s| - 1] == pre;
  }

  /** Replacing the last element of q + p replaces that of p. */
  lemma ReplaceLast<T>(q: seq<T>, p: seq<T>, x: T)
    requires p != []
    ensures (q + p)[..|q + p| - 1] + [x] == q + (p[..|p| - 1] + [x])
  {
    assert (q + p)[..|q + p| - 1] == q + p[..|p| - 1];
  }

  /** The same step taken after q and on its own. */
  lemma StepAfter(q: seq<String>, p: seq<String>, c: char, comma: bool, pw: seq<String>, pv: seq<String>)
    requires p != []
    requires comma ==> pw == (q + p) + [[]] && pv == p + [[]]
    requires !comma ==> pw == (q + p)[..|q + p| - 1] + [(q + p)[|q + p| - 1] + [c]] && pv == p[..|p| - 1] + [p[|p| - 1] + [c]]
    ensures pw == q + pv
  {
    if !comma {
      assert (q + p)[|q + p| - 1] == p[|p| - 1];
      ReplaceLast(q, p, p[|p| - 1] + [c]);
    }
  }

  /** One more character after the comma. */
  lemma PiecesAfterCommaStep(u: String, pre: String, v': String, c: char)
    requires pre == u + "," + v' && Formula.ScanText(Start, u) == Start
    requires Formula.Pieces(pre) == Formula.Pieces(u) + Formula.Pieces(v')
    ensures Formula.Pieces(pre + [c]) == Formula.Pieces(u) + Formula.Pieces(v' + [c])
  {
    LastCommaAfterComma(u, pre, v', c);
    var q := Formula.Pieces(u);
    var p := Formula.Pieces(v');
    PiecesLast(pre, c, q + p);
    PiecesLast(v', c, p);
    StepAfter(q, p, c, Formula.TopLevelComma(v' + [c], |v'|), Formula.Pieces(pre + [c]), Formula.Pieces(v' + [c]));
  }

  /** v is its last character appended to the rest, also after a. */
  lemma LastOff(a: String, v: String)
    requires v != []
    ensures v == v[..|v| - 1] + [v[|v| - 1]] && a + v == (a + v[..|v| - 1]) + [v[|v| - 1]]
  {
  }

  /** A comma read at the top level: the pieces before it, then those after. */
  lemma {:induction false} PiecesAfterComma(u: String, v: String)
    requires Formula.ScanText(Start, u) == Start
    ensures Formula.Pieces(u + "," + v) == Formula.Pieces(u) + Formula.Pieces(v)
    decreases |v|
  {
    if v == [] {
      assert u + "," + v == u + ",";
      PiecesOfComma(u);
    } else {
      var v' := v[..|v| - 1];
      var c := v[|v| - 1];
      PiecesAfterComma(u, v');
      PiecesAfterCommaStep(u, u + "," + v', v', c);
      LastOff(u + ",", v);
    }
  }

  /** A single piece followed by two words is three pieces. */
  lemma ThreePieces(e: String, x: String, y: String)
    requires Formula.ScanText(Start, e) == Start && Formula.Pieces(e) == [e]
    requires Word(x) && Word(y)
    ensures Formula.Pieces(e + "," + x + "," + y) == [e, x] + [y]
  {
    WordPiece(x);
    WordPiece(y);
    PiecesAfterComma(e, x);
    ScanAfterComma(e, x);
    PiecesAfterComma(e + "," + x, y);
  }

  /** ... and so three arguments, when none has space to strip. */
  lemma ThreeArgs(e: String, x: String, y: String)
    requires Formula.ScanText(Start, e) == Start && Formula.Pieces(e) == [e] && Strip(e) == e
    requires Word(x) && Word(y)
    ensures Formula.SplitArgsOf(e + "," + x + "," + y) == [e, x, y]
  {
    ThreePieces(e, x, y);
    Formula.SplitArgsLast(e + "," + x + "," + y, [e, x], y);
    StripWord(x);
    StripWord(y);
    assert [e, x][..1] == [e];
    assert Formula.StripEach([e]) == [e];
  }

  /** A word is its own IIF pass. */
  lemma WordPass(w: String, fuel: nat)
    requires Word(w)
    ensures IifPass(w, fuel) == w
  {
    PlainRunNoParen(w, 0);
    NoParenIifRepeat(w, fuel, MaxIterations);
  }

  /** A CASE expression adds no parenthesis of its own. */
  lemma CaseWhenNoParen(c: String, t: String, f: String)
    requires '(' !in c && '(' !in t && '(' !in f
    ensures '(' !in CaseWhen(c, t, f)
  {
    assert '(' !in "CASE WHEN " && '(' !in " THEN " && '(' !in " ELSE " && '(' !in " END";
  }

  /** `IIF(a,b,c)` followed by t. */
  function InnerCall(a: String, b: String, c: String, t: String): String {
    "IIF(" + (a + "," + b + "," + c) + ")" + t
  }

  /** Nothing before the start of a text. */
  lemma EmptyPrefix(s: String, x: String, y: String)
    ensures s[..0] + x + y == x + y
  {
    assert s[..0] == [];
  }

  /** The rewrite of a text opening with an IIF call of three arguments, for
      any conversion of the arguments. */
  lemma LeadingIifRewrite(s: String, convert: String -> String, close: int, a: String, b: String, c: String, ca: String, cb: String, cc: String)
    requires SearchCall(s, "IIF", 0) == Some((0, 3))
    requires close == PlainClosingParen(s, 3) && close != -1
    requires Formula.SplitArgsOf(s[4..close]) == [a, b, c]
    requires convert(a) == ca && convert(b) == cb && convert(c) == cc
    ensures IifRewrite(s, convert) == Some(CaseWhen(ca, cb, cc) + s[close + 1..])
  {
    var args := [a, b, c];
    IifRewriteAt(s, convert, 0, 3, close, args);
    assert args[0] == a && args[1] == b && args[2] == c;
    EmptyPrefix(s, CaseWhen(ca, cb, cc), s[close + 1..]);
  }

  /** The same, each argument converted one level down. */
  lemma LeadingIifStep(s: String, fuel: nat, close: int, a: String, b: String, c: String, ca: String, cb: String, cc: String)
    requires fuel > 0 && SearchCall(s, "IIF", 0) == Some((0, 3))
    requires close == PlainClosingParen(s, 3) && close != -1
    requires Formula.SplitArgsOf(s[4..close]) == [a, b, c]
    requires IifPass(a, fuel - 1) == ca && IifPass(b, fuel - 1) == cb && IifPass(c, fuel - 1) == cc
    ensures IifStepAt(s, fuel) == Some(CaseWhen(ca, cb, cc) + s[close + 1..])
  {
    ArgConversionOf(fuel, fuel - 1, a);
    ArgConversionOf(fuel, fuel - 1, b);
    ArgConversionOf(fuel, fuel - 1, c);
    LeadingIifRewrite(s, ArgConversion(fuel), close, a, b, c, ca, cb, cc);
  }

  /** The inner call converts in one rewrite, at any depth below the outer
      one. */
  lemma InnerPass(a: String, b: String, c: String, t: String)
    requires Word(a) && Word(b) && Word(c) && Word(t)
    ensures IifPass(InnerCall(a, b, c, t), IifDepth - 1) == CaseWhen(a, b, c) + t
  {
    var m := a + "," + b + "," + c;
    var s := InnerCall(a, b, c, t);
    assert s[..4] == "IIF(";
    IifAtStart(s);
    assert s[4..4 + |m|] == m;
    PlainRunNoParen(a, 0);
    PlainRunNoParen(b, 0);
    PlainRunNoParen(c, 0);
    assert '(' !in m && ')' !in m;
    PlainSkip(s, 3, 4, 4 + |m|, 1);
    assert s[4 + |m|] == ')';
    assert PlainClosingParen(s, 3) == 4 + |m|;
    WordPiece(a);
    StripWord(a);
    ThreeArgs(a, b, c);
    WordPass(a, IifDepth - 2);
    WordPass(b, IifDepth - 2);
    WordPass(c, IifDepth - 2);
    LeadingIifStep(s, IifDepth - 1, 4 + |m|, a, b, c, a, b, c);
    assert s[5 + |m|..] == t;
    var r := CaseWhen(a, b, c) + t;
    PlainRunNoParen(t, 0);
    CaseWhenNoParen(a, b, c);
    assert '(' !in r;
    IifPassOnce(s, IifDepth - 1, r);
  }

  /** `IIF(cond,x,y)`. */
  function OuterCall(cond: String, x: String, y: String): String {
    "IIF(" + (cond + "," + x + "," + y) + ")"
  }

  /** Where the parts of `IIF(IIF(m)r)` sit. */
  lemma OuterSlices(m: String, r: String)
    ensures var s := "IIF(" + ("IIF(" + m + ")" + r) + ")"; var j := 8 + |m|;
      && s[..4] == "IIF(" && s[4..7] == "IIF" && s[7] == '(' && s[8..j] == m && s[j] == ')'
      && s[j + 1..|s| - 1] == r && s[|s| - 1] == ')'
  {
  }

  /** The `)` matching the outer `(` is the last character, past the inner
      call's parentheses. */
  lemma OuterCloses(m: String, r: String)
    requires '(' !in m && ')' !in m && '(' !in r && ')' !in r
    ensures var s := "IIF(" + ("IIF(" + m + ")" + r) + ")";
      PlainClosingParen(s, 3) == |s| - 1
  {
    var s := "IIF(" + ("IIF(" + m + ")" + r) + ")";
    var j := 8 + |m|;
    OuterSlices(m, r);
    assert '(' !in "IIF" && ')' !in "IIF";
    PlainSkip(s, 3, 4, 7, 1);
    PlainSkip(s, 3, 8, j, 2);
    PlainSkip(s, 3, j + 1, |s| - 1, 1);
  }

  /** The inner call `IIF(a,b,c)t` is one piece with nothing to strip. */
  lemma InnerPiece(a: String, b: String, c: String, t: String)
    requires Word(a) && Word(b) && Word(c) && Word(t)
    ensures var cond := InnerCall(a, b, c, t);
      Formula.ScanText(Start, cond) == Start && Formula.Pieces(cond) == [cond] && Strip(cond) == cond
  {
    var cond := InnerCall(a, b, c, t);
    PlainRunJoin(a, ",", 1);
    PlainRunJoin(a + ",", b, 1);
    PlainRunJoin(a + "," + b, ",", 1);
    PlainRunJoin(a + "," + b + ",", c, 1);
    CallPiece("IIF", a + "," + b + "," + c, t);
    assert "IIF" + "(" == "IIF(";
    assert cond == "IIF" + "(" + (a + "," + b + "," + c) + ")" + t;
    assert TrimSpaceStart(cond) == cond;
    assert TrimSpaceEnd(cond) == cond;
  }

  /** The outer call: found at the start, closed by the last character, and
      split into the inner call and the two words. */
  lemma OuterShape(a: String, b: String, c: String, t: String, x: String, y: String)
    requires Word(a) && Word(b) && Word(c) && Word(t) && Word(x) && Word(y)
    ensures var s := OuterCall(InnerCall(a, b, c, t), x, y);
      && SearchCall(s, "IIF", 0) == Some((0, 3)) && PlainClosingParen(s, 3) == |s| - 1
      && Formula.SplitArgsOf(s[4..|s| - 1]) == [InnerCall(a, b, c, t), x, y]
  {
    var m := a + "," + b + "," + c;
    var cond := InnerCall(a, b, c, t);
    var r := t + "," + x + "," + y;
    var s := OuterCall(cond, x, y);
    assert s == "IIF(" + ("IIF(" + m + ")" + r) + ")";
    OuterSlices(m, r);
    IifAtStart(s);
    PlainRunNoParen(a, 0);
    PlainRunNoParen(b, 0);
    PlainRunNoParen(c, 0);
    PlainRunNoParen(t, 0);
    PlainRunNoParen(x, 0);
    PlainRunNoParen(y, 0);
    OuterCloses(m, r);
    assert s[4..|s| - 1] == cond + "," + x + "," + y;
    InnerPiece(a, b, c, t);
    ThreeArgs(cond, x, y);
  }

  /** The result has no `(` left for another round. */
  lemma NestedNoParen(a: String, b: String, c: String, t: String, x: String, y: String)
    requires Word(a) && Word(b) && Word(c) && Word(t) && Word(x) && Word(y)
    ensures '(' !in CaseWhen(CaseWhen(a, b, c) + t, x, y)
  {
    PlainRunNoParen(a, 0);
    PlainRunNoParen(b, 0);
    PlainRunNoParen(c, 0);
    PlainRunNoParen(t, 0);
    PlainRunNoParen(x, 0);
    PlainRunNoParen(y, 0);
    CaseWhenNoParen(a, b, c);
    CaseWhenNoParen(CaseWhen(a, b, c) + t, x, y);
  }

  /** The first round of the outer pass. */
  lemma NestedStep(a: String, b: String, c: String, t: String, x: String, y: String)
    requires Word(a) && Word(b) && Word(c) && Word(t) && Word(x) && Word(y)
    ensures IifStepAt(OuterCall(InnerCall(a, b, c, t), x, y), IifDepth) == Some(CaseWhen(CaseWhen(a, b, c) + t, x, y))
  {
    var s := OuterCall(InnerCall(a, b, c, t), x, y);
    OuterShape(a, b, c, t, x, y);
    InnerPass(a, b, c, t);
    WordPass(x, IifDepth - 1);
    WordPass(y, IifDepth - 1);
    var close := |s| - 1;
    LeadingIifStep(s, IifDepth, close, InnerCall(a, b, c, t), x, y, CaseWhen(a, b, c) + t, x, y);
    var r := CaseWhen(CaseWhen(a, b, c) + t, x, y);
    assert IifStepAt(s, IifDepth) == Some(r + s[close + 1..]);
    assert s[close + 1..] == [];
    assert r + s[close + 1..] == r;
  }

  /** `IIF(IIF(a,b,c)t,x,y)`, for words a, b, c, t, x and y: the inner call
      becomes a CASE expression inside the condition of the outer one, so
      the result holds exactly two `CASE WHEN` and two `END`. */
  lemma NestedIif(a: String, b: String, c: String, t: String, x: String, y: String)
    requires Word(a) && Word(b) && Word(c) && Word(t) && Word(x) && Word(y)
    ensures IifPass(OuterCall(InnerCall(a, b, c, t), x, y), IifDepth) == CaseWhen(CaseWhen(a, b, c) + t, x, y)
  {
    NestedStep(a, b, c, t, x, y);
    NestedNoParen(a, b, c, t, x, y);
    IifPassOnce(OuterCall(InnerCall(a, b, c, t), x, y), IifDepth, CaseWhen(CaseWhen(a, b, c) + t, x, y));
  }

  /** `IIF(IIF(a,b,c)>0,x,y)`: two CASE expressions, one inside the other's condition. */
  lemma NestedIifExample()
    ensures IifPass(OuterCall(InnerCall("a", "b", "c", ">0"), "x", "y"), IifDepth)
         == CaseWhen(CaseWhen("a", "b", "c") + ">0", "x", "y")
  {
    NestedIif("a", "b", "c", ">0", "x", "y");
  }
}
