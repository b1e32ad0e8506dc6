/** The string built-ins of Python that the core relies on, with their Python
    meaning: `str.strip`, `str.replace`, `str.lower`/`upper`/`isupper`,
    `str.join`, `str.split`, `sub in s`, `str.find`, `str.endswith`, slicing
    with negative or out-of-range bounds, and `str(int)`.
    Case mapping covers ASCII letters only; whitespace is the full set that
    `str.isspace()` (and the regular-expression class `\s`) accepts. */
module Text {

  type String = string

  /** The characters for which Python's `str.isspace()` is true: the ASCII
      controls from tab to carriage return and from 0x1C to the space, and
      the Unicode spaces and separators. */
  predicate IsSpace(c: char) {
    '\t' <= c <= '\r' || '\U{1C}' <= c <= ' ' || c == '\U{85}' || c == '\U{A0}'
    || c == '\U{1680}' || '\U{2000}' <= c <= '\U{200A}' || c == '\U{2028}' || c == '\U{2029}'
    || c == '\U{202F}' || c == '\U{205F}' || c == '\U{3000}'
  }

  predicate IsUpperChar(c: char) { 'A' <= c <= 'Z' }
  predicate IsLowerChar(c: char) { 'a' <= c <= 'z' }
  predicate IsLetter(c: char) { IsUpperChar(c) || IsLowerChar(c) }
  predicate IsDigit(c: char) { '0' <= c <= '9' }

  /** A character of the regular-expression class `\w` (letters, digits, `_`). */
  predicate IsWordChar(c: char) { IsLetter(c) || IsDigit(c) || c == '_' }

  function LowerChar(c: char): (d: char)
    ensures !IsUpperChar(d)
    ensures IsLetter(c) <==> IsLetter(d)
  {
    if IsUpperChar(c) then (c as int + 32) as char else c
  }

  function UpperChar(c: char): (d: char)
    ensures !IsLowerChar(d)
  {
    if IsLowerChar(c) then (c as int - 32) as char else c
  }

  /** `s.lower()` */
  function Lower(s: String): (r: String)
    ensures |r| == |s| && forall i :: 0 <= i < |s| ==> r[i] == LowerChar(s[i])
  {
    seq(|s|, i requires 0 <= i < |s| => LowerChar(s[i]))
  }

  /** `s.upper()` */
  function Upper(s: String): (r: String)
    ensures |r| == |s| && forall i :: 0 <= i < |s| ==> r[i] == UpperChar(s[i])
  {
    seq(|s|, i requires 0 <= i < |s| => UpperChar(s[i]))
  }

  /** `s.isupper()`: at least one cased character and no lower-case one. */
  predicate IsUpper(s: String) {
    HasLetter(s) && NoLower(s)
  }

  predicate HasLetter(s: String) {
    s != [] && (IsLetter(s[0]) || HasLetter(s[1..]))
  }

  predicate NoLower(s: String) {
    s == [] || (!IsLowerChar(s[0]) && NoLower(s[1..]))
  }

  /** IsUpper read character by character. */
  lemma {:induction false} IsUpperChars(s: String)
    ensures IsUpper(s) <==> (exists i :: 0 <= i < |s| && IsLetter(s[i])) && forall i :: 0 <= i < |s| ==> !IsLowerChar(s[i])
    decreases |s|
  {
    HasLetterChars(s);
    NoLowerChars(s);
  }

  lemma {:induction false} HasLetterChars(s: String)
    ensures HasLetter(s) <==> exists i :: 0 <= i < |s| && IsLetter(s[i])
    decreases |s|
  {
    if s != [] {
      HasLetterChars(s[1..]);
      if HasLetter(s[1..]) {
        var i :| 0 <= i < |s[1..]| && IsLetter(s[1..][i]);
        assert IsLetter(s[i + 1]);
      }
      if exists i :: 0 <= i < |s| && IsLetter(s[i]) {
        var i :| 0 <= i < |s| && IsLetter(s[i]);
        if i > 0 {
          assert IsLetter(s[1..][i - 1]);
        }
      }
    }
  }

  lemma {:induction false} NoLowerChars(s: String)
    ensures NoLower(s) <==> forall i :: 0 <= i < |s| ==> !IsLowerChar(s[i])
    decreases |s|
  {
    if s != [] {
      NoLowerChars(s[1..]);
      assert forall i :: 1 <= i < |s| ==> s[i] == s[1..][i - 1];
    }
  }

  /** `s.lstrip()` */
  function TrimSpaceStart(s: String): (r: String)
    ensures |r| <= |s|
    ensures r == [] || !IsSpace(r[0])
  {
    if s != [] && IsSpace(s[0]) then TrimSpaceStart(s[1..]) else s
  }

  /** `s.lstrip()` is a suffix of s. */
  lemma {:induction false} TrimSpaceStartSuffix(s: String)
    ensures TrimSpaceStart(s) == s[|s| - |TrimSpaceStart(s)|..]
    decreases |s|
  {
    if s != [] && IsSpace(s[0]) {
      TrimSpaceStartSuffix(s[1..]);
    }
  }

  /** `s.rstrip()` */
  function TrimSpaceEnd(s: String): (r: String)
    ensures |r| <= |s|
    ensures r == [] || !IsSpace(r[|r| - 1])
  {
    if s != [] && IsSpace(s[|s| - 1]) then TrimSpaceEnd(s[..|s| - 1]) else s
  }

  /** `s.rstrip()` is a prefix of s. */
  lemma {:induction false} TrimSpaceEndPrefix(s: String)
    ensures TrimSpaceEnd(s) == s[..|TrimSpaceEnd(s)|]
    decreases |s|
  {
    if s != [] && IsSpace(s[|s| - 1]) {
      TrimSpaceEndPrefix(s[..|s| - 1]);
    }
  }

  /** `s.strip()` */
  function Strip(s: String): (r: String)
    ensures |r| <= |s|
    ensures r == [] || (!IsSpace(r[0]) && !IsSpace(r[|r| - 1]))
  {
    var t := TrimSpaceStart(s);
    var r := TrimSpaceEnd(t);
    TrimSpaceEndPrefix(t);
    assert r != [] ==> r[0] == t[0];
    r
  }

  /** `s.lstrip()` removes only whitespace. */
  lemma {:induction false} TrimSpaceStartDrops(s: String)
    ensures forall i :: 0 <= i < |s| - |TrimSpaceStart(s)| ==> IsSpace(s[i])
    decreases |s|
  {
    if s != [] && IsSpace(s[0]) {
      TrimSpaceStartDrops(s[1..]);
      assert forall i :: 1 <= i < |s| ==> s[i] == s[1..][i - 1];
    }
  }

  /** `s.rstrip()` removes only whitespace. */
  lemma {:induction false} TrimSpaceEndDrops(s: String)
    ensures forall i :: |TrimSpaceEnd(s)| <= i < |s| ==> IsSpace(s[i])
    decreases |s|
  {
    if s != [] && IsSpace(s[|s| - 1]) {
      TrimSpaceEndDrops(s[..|s| - 1]);
    }
  }

  /** `s.rstrip(cs)` */
  function TrimEnd(s: String, cs: set<char>): (r: String)
    ensures |r| <= |s| && r == s[..|r|]
    ensures r == [] || r[|r| - 1] !in cs
  {
    if s != [] && s[|s| - 1] in cs then TrimEnd(s[..|s| - 1], cs) else s
  }

  /** `sep.join(parts)` */
  function Join(parts: seq<String>, sep: String): String {
    if |parts| == 0 then []
    else if |parts| == 1 then parts[0]
    else parts[0] + sep + Join(parts[1..], sep)
  }

  lemma {:induction false} JoinSnoc(parts: seq<String>, x: String, sep: String)
    requires parts != []
    ensures Join(parts + [x], sep) == Join(parts, sep) + sep + x
  {
    if |parts| == 1 {
      assert (parts + [x])[1..] == [x];
    } else {
      assert (parts + [x])[1..] == parts[1..] + [x];
      JoinSnoc(parts[1..], x, sep);
    }
  }

  /** Extending the last part extends the joined text. */
  lemma {:induction false} JoinExtendLast(parts: seq<String>, x: String, sep: String)
    requires parts != []
    ensures Join(parts[..|parts| - 1] + [parts[|parts| - 1] + x], sep) == Join(parts, sep) + x
  {
    var n := |parts|;
    var q := parts[..n - 1] + [parts[n - 1] + x];
    if n == 1 {
      assert q == [parts[0] + x];
    } else {
      assert q[0] == parts[0];
      assert q[1..] == parts[1..][..n - 2] + [parts[1..][n - 2] + x];
      JoinExtendLast(parts[1..], x, sep);
    }
  }

  /** `s.startswith(pre)` */
  predicate StartsWith(s: String, pre: String) {
    |pre| <= |s| && s[..|pre|] == pre
  }

  /** `s.endswith(suf)` */
  predicate EndsWith(s: String, suf: String) {
    |suf| <= |s| && s[|s| - |suf|..] == suf
  }

  /** `sub` occurs in `s` at index i. */
  predicate OccursAt(s: String, sub: String, i: int) {
    0 <= i && i + |sub| <= |s| && s[i..i + |sub|] == sub
  }

  /** `sub in s` */
  function Contains(s: String, sub: String): (b: bool)
    ensures b <==> exists i :: OccursAt(s, sub, i)
    decreases |s|
  {
    if |s| < |sub| then false
    else if s[..|sub|] == sub then assert OccursAt(s, sub, 0); true
    else
      var b := Contains(s[1..], sub);
      assert b ==> exists i :: OccursAt(s, sub, i) by {
        if b {
          var i :| OccursAt(s[1..], sub, i);
          assert s[i + 1..i + 1 + |sub|] == s[1..][i..i + |sub|];
          assert OccursAt(s, sub, i + 1);
        }
      }
      assert (exists i :: OccursAt(s, sub, i)) ==> b by {
        if exists i :: OccursAt(s, sub, i) {
          var i :| OccursAt(s, sub, i);
          assert i != 0;
          assert s[1..][i - 1..i - 1 + |sub|] == s[i..i + |sub|];
          assert OccursAt(s[1..], sub, i - 1);
        }
      }
      b
  }

  /** `s.find(sub, start)`: the least index at or after `start` where `sub`
      occurs, or -1. */
  function Find(s: String, sub: String, start: nat): (k: int)
    requires |sub| > 0
    ensures k == -1 || (start <= k && OccursAt(s, sub, k))
    ensures forall j :: start <= j && (k == -1 || j < k) ==> !OccursAt(s, sub, j)
    decreases |s| - start
  {
    if start + |sub| > |s| then -1
    else if s[start..start + |sub|] == sub then start
    else Find(s, sub, start + 1)
  }

  /** Python's slice `s[a:b]`: negative bounds count from the end and every
      bound is clamped to the string. */
  function PySlice(s: String, a: int, b: int): (r: String)
    ensures |r| <= |s|
  {
    var lo := Clamp(a, |s|);
    var hi := Clamp(b, |s|);
    if lo < hi then s[lo..hi] else []
  }

  function Clamp(a: int, n: nat): (k: nat)
    ensures k <= n
  {
    if a < 0 then (if a + n < 0 then 0 else a + n) else if a > n then n else a
  }

  /** `s.replace(p, r)`: every leftmost non-overlapping occurrence of p,
      scanning left to right, is replaced by r. */
  function Replace(s: String, p: String, r: String): String
    requires |p| > 0
    decreases |s|
  {
    if |s| < |p| then s
    else if s[..|p|] == p then r + Replace(s[|p|..], p, r)
    else [s[0]] + Replace(s[1..], p, r)
  }

  /** Replacing a pattern whose first character does not occur changes nothing. */
  lemma {:induction false} ReplaceAbsent(s: String, p: String, r: String)
    requires |p| > 0 && p[0] !in s
    ensures Replace(s, p, r) == s
    decreases |s|
  {
    if |s| >= |p| {
      assert s[..|p|][0] == s[0];
      ReplaceAbsent(s[1..], p, r);
    }
  }

  /** No two adjacent characters of s are both c. */
  predicate NoPair(s: String, c: char) {
    forall i :: 0 <= i < |s| - 1 ==> !(s[i] == c && s[i + 1] == c)
  }

  lemma NoPairIsNotContained(s: String, c: char)
    ensures NoPair(s, c) <==> !Contains(s, [c, c])
  {
    if !NoPair(s, c) {
      var i :| 0 <= i < |s| - 1 && s[i] == c && s[i + 1] == c;
      assert OccursAt(s, [c, c], i);
    }
    if Contains(s, [c, c]) {
      var i :| OccursAt(s, [c, c], i);
      assert s[i..i + 2][0] == s[i] && s[i..i + 2][1] == s[i + 1];
    }
  }

  lemma NoPairConcat(a: String, b: String, c: char)
    requires NoPair(a, c) && NoPair(b, c)
    requires a == [] || b == [] || a[|a| - 1] != c || b[0] != c
    ensures NoPair(a + b, c)
  {
    var s := a + b;
    forall i | 0 <= i < |s| - 1 ensures !(s[i] == c && s[i + 1] == c) {
      if i + 1 < |a| {
        assert s[i] == a[i] && s[i + 1] == a[i + 1];
      } else if i >= |a| {
        assert s[i] == b[i - |a|] && s[i + 1] == b[i + 1 - |a|];
      }
    }
  }

  /** The first character of a replacement result is the replacement text's
      or the input's. */
  lemma ReplaceHead(t: String, p: String, r: String)
    requires |p| > 0 && |r| > 0 && t != []
    ensures Replace(t, p, r) != []
    ensures Replace(t, p, r)[0] == if |t| >= |p| && t[..|p|] == p then r[0] else t[0]
  {
  }

  lemma {:induction false} ReplaceDropsChar(s: String, c: char, r: String)
    requires c !in r
    ensures c !in Replace(s, [c], r)
    decreases |s|
  {
    if |s| >= 1 {
      ReplaceDropsChar(s[1..], c, r);
    }
  }

  lemma {:induction false} ReplaceDropsPair(s: String, c: char, r: String)
    requires c !in r && |r| > 0
    ensures NoPair(Replace(s, [c, c], r), c)
    decreases |s|
  {
    var p := [c, c];
    if |s| < 2 {
    } else if s[..2] == p {
      ReplaceDropsPair(s[2..], c, r);
      NoPairConcat(r, Replace(s[2..], p, r), c);
    } else {
      ReplaceDropsPair(s[1..], c, r);
      var rest := Replace(s[1..], p, r);
      if rest != [] {
        ReplaceHead(s[1..], p, r);
        assert s[0] == c ==> s[1] != c;
      }
      NoPairConcat([s[0]], rest, c);
    }
  }

  lemma {:induction false} ReplaceKeepsNoPair(s: String, p: String, r: String, c: char)
    requires |p| > 0 && |r| > 0 && c !in r
    requires NoPair(s, c)
    ensures NoPair(Replace(s, p, r), c)
    decreases |s|
  {
    if |s| < |p| {
    } else if s[..|p|] == p {
      ReplaceKeepsNoPair(s[|p|..], p, r, c);
      NoPairConcat(r, Replace(s[|p|..], p, r), c);
    } else {
      ReplaceKeepsNoPair(s[1..], p, r, c);
      var rest := Replace(s[1..], p, r);
      if rest != [] {
        ReplaceHead(s[1..], p, r);
        assert s[0] == c ==> s[1] != c;
      }
      NoPairConcat([s[0]], rest, c);
    }
  }

  /** `s.split(c)`: the pieces between the occurrences of c. */
  function Split(s: String, c: char): (r: seq<String>)
    ensures |r| >= 1
    ensures forall k :: 0 <= k < |r| ==> c !in r[k]
    decreases |s|
  {
    if c !in s then [s]
    else
      var i := IndexOfChar(s, c);
      [s[..i]] + Split(s[i + 1..], c)
  }

  /** The position of the first c in s. */
  function IndexOfChar(s: String, c: char): (i: nat)
    requires c in s
    ensures i < |s| && s[i] == c && c !in s[..i]
  {
    if s[0] == c then 0 else 1 + IndexOfChar(s[1..], c)
  }

  /** The first piece of a split is the text before the first separator. */
  lemma SplitFirst(pre: String, c: char, post: String)
    requires c !in pre
    ensures Split(pre + [c] + post, c)[0] == pre
  {
    var s := pre + [c] + post;
    assert s[|pre|] == c;
    var i := IndexOfChar(s, c);
    assert s[..i] == pre;
  }

  /** Splitting at c and joining with c gives back the text. */
  lemma {:induction false} JoinSplit(s: String, c: char)
    ensures Join(Split(s, c), [c]) == s
    decreases |s|
  {
    if c in s {
      var i := IndexOfChar(s, c);
      var rest := Split(s[i + 1..], c);
      var parts := Split(s, c);
      assert parts == [s[..i]] + rest;
      assert |parts| >= 2 && parts[0] == s[..i] && parts[1..] == rest;
      JoinSplit(s[i + 1..], c);
      assert Join(parts, [c]) == s[..i] + [c] + Join(rest, [c]);
      assert s == s[..i] + [c] + s[i + 1..];
    }
  }

  function DigitChar(d: nat): (c: char)
    requires d < 10
    ensures IsDigit(c)
  {
    ('0' as int + d) as char
  }

  /** `str(n)` for a natural number. */
  function NatToString(n: nat): (r: String)
    ensures r != [] && forall i :: 0 <= i < |r| ==> IsDigit(r[i])
  {
    if n < 10 then [DigitChar(n)] else NatToString(n / 10) + [DigitChar(n % 10)]
  }

  /** `str(i)` for an integer. */
  function IntToString(i: int): (r: String)
    ensures r != []
  {
    if i < 0 then "-" + NatToString(-i) else NatToString(i)
  }
}
