/** The naming rules both generators share: `_sanitize_name`, written the
    same way in dbt_generator.py and doc_generator.py, and the `stem` of a
    path (`Path(p).stem`, read with POSIX separators). */
module Naming {
  import opened Text

  /** A character a sanitized name may hold: `[a-z0-9_]`. */
  predicate IsNameChar(c: char) { IsLowerChar(c) || IsDigit(c) || c == '_' }

  predicate AllWordChars(s: String) {
    forall i :: 0 <= i < |s| ==> IsWordChar(s[i])
  }

  predicate AllNameChars(s: String) {
    forall i :: 0 <= i < |s| ==> IsNameChar(s[i])
  }

  /** The length a sanitized name is cut to. */
  const MaxNameLength: nat := 50

  /** `re.sub(r'[^a-zA-Z0-9_]', '_', s)` */
  function WordCharsOnly(s: String): (r: String)
    ensures |r| == |s| && AllWordChars(r)
    ensures forall i :: 0 <= i < |s| ==> (r[i] == '_' <==> !IsLetter(s[i]) && !IsDigit(s[i]))
  {
    seq(|s|, i requires 0 <= i < |s| => if IsWordChar(s[i]) then s[i] else '_')
  }

  /** `re.sub(r'_+', '_', s)`: every run of underscores becomes one. */
  function CollapseUnderscores(s: String): (r: String)
    ensures NoPair(r, '_')
    ensures AllWordChars(s) ==> AllWordChars(r)
    ensures |r| <= |s| && (r == [] <==> s == [])
    ensures s != [] ==> r[0] == s[0] && r[|r| - 1] == s[|s| - 1]
    decreases |s|
  {
    if |s| < 2 then s
    else if s[0] == '_' && s[1] == '_' then CollapseUnderscores(s[1..])
    else
      var rest := CollapseUnderscores(s[1..]);
      NoPairConcat([s[0]], rest, '_');
      [s[0]] + rest
  }

  /** Text without two underscores in a row is left alone by the collapse. */
  lemma {:induction false} CollapseWithoutPairs(s: String)
    requires NoPair(s, '_')
    ensures CollapseUnderscores(s) == s
    decreases |s|
  {
    if |s| >= 2 {
      CollapseWithoutPairs(s[1..]);
    }
  }

  /** The number of underscores that lead s. */
  function Lead(s: String): (n: nat)
    ensures n <= |s| && forall i :: 0 <= i < n ==> s[i] == '_'
    ensures n < |s| ==> s[n] != '_'
  {
    if s != [] && s[0] == '_' then 1 + Lead(s[1..]) else 0
  }

  /** The number of underscores that end s. */
  function Trail(s: String): (n: nat)
    ensures n <= |s| && forall i :: |s| - n <= i < |s| ==> s[i] == '_'
    ensures n < |s| ==> s[|s| - 1 - n] != '_'
  {
    if s != [] && s[|s| - 1] == '_' then 1 + Trail(s[..|s| - 1]) else 0
  }

  /** `s.strip('_')` */
  function StripUnderscores(s: String): (r: String)
    ensures r == [] || (r[0] != '_' && r[|r| - 1] != '_')
    ensures NoPair(s, '_') ==> NoPair(r, '_')
    ensures AllWordChars(s) ==> AllWordChars(r)
    ensures r == [] <==> forall i :: 0 <= i < |s| ==> s[i] == '_'
  {
    var a := Lead(s);
    if a == |s| then []
    else
      var r := s[a..|s| - Trail(s)];
      assert forall i :: 0 <= i < |r| ==> r[i] == s[a + i];
      r
  }

  /** `_sanitize_name`: letters, digits and `_` are kept and every other
      character becomes `_`; runs of `_` shrink to one; `_` is stripped from
      both ends; letters are lower-cased; the result is cut to 50
      characters; an empty result becomes "unknown". */
  function Sanitize(name: String): (r: String)
    ensures name == [] ==> r == "unknown"
    ensures r != [] && |r| <= MaxNameLength && AllNameChars(r)
    ensures NoPair(r, '_') && r[0] != '_'
    ensures r[|r| - 1] == '_' ==> |r| == MaxNameLength
  {
    var w := WordCharsOnly(name);
    var c := CollapseUnderscores(w);
    var st := StripUnderscores(c);
    var s := Lower(st);
    LowerKeepsShape(st);
    var t := if |s| > MaxNameLength then s[..MaxNameLength] else s;
    assert forall i :: 0 <= i < |t| ==> t[i] == s[i];
    if t == [] then "unknown" else t
  }

  /** Lower-casing text of `\w` characters gives `[a-z0-9_]` text and keeps
      every underscore where it is. */
  lemma LowerKeepsShape(s: String)
    requires AllWordChars(s)
    ensures AllNameChars(Lower(s))
    ensures forall i :: 0 <= i < |s| ==> (Lower(s)[i] == '_' <==> s[i] == '_')
    ensures NoPair(s, '_') ==> NoPair(Lower(s), '_')
  {
  }

  /** A name already in the form `_sanitize_name` produces. */
  predicate Clean(s: String) {
    s != [] && |s| <= MaxNameLength && AllNameChars(s) && NoPair(s, '_')
    && s[0] != '_' && s[|s| - 1] != '_'
  }

  /** A clean name comes back unchanged. */
  lemma SanitizeClean(s: String)
    requires Clean(s)
    ensures Sanitize(s) == s
  {
    assert WordCharsOnly(s) == s;
    CollapseWithoutPairs(s);
    assert StripUnderscores(s) == s;
    assert Lower(s) == s;
  }

  /** Sanitizing twice is sanitizing once, except where the cut to 50
      characters left an `_` at the end: then the second pass strips it. */
  lemma SanitizeTwice(name: String)
    ensures var r := Sanitize(name);
      r[|r| - 1] != '_' ==> Sanitize(r) == r
  {
    var r := Sanitize(name);
    if r[|r| - 1] != '_' {
      SanitizeClean(r);
    }
  }

  /** `s.rfind(c)`: the last index of c in s, or -1. */
  function LastIndex(s: String, c: char): (i: int)
    ensures -1 <= i < |s| && (i >= 0 ==> s[i] == c)
    ensures forall j :: i < j < |s| ==> s[j] != c
    decreases |s|
  {
    if s == [] then -1
    else if s[|s| - 1] == c then |s| - 1
    else LastIndex(s[..|s| - 1], c)
  }

  /** Text without c appended to s leaves the last c where it was. */
  lemma {:induction false} LastIndexAppend(a: String, b: String, c: char)
    requires c !in b
    ensures LastIndex(a + b, c) == LastIndex(a, c)
    decreases |b|
  {
    if b != [] {
      var b' := b[..|b| - 1];
      assert (a + b)[..|a + b| - 1] == a + b';
      LastIndexAppend(a, b', c);
    } else {
      assert a + b == a;
    }
  }

  /** `PurePosixPath(p).name`: the last component of the path, where empty
      components and `.` do not count. */
  function PathName(p: String): (r: String)
    ensures '/' !in r
    decreases |p|
  {
    var k := LastIndex(p, '/');
    var last := p[k + 1..];
    if last != [] && last != "." then last
    else if k >= 0 then PathName(p[..k])
    else []
  }

  /** A last component other than `.` is the name. */
  lemma {:induction false} NameOfLast(p: String, k: int, name: String)
    requires k == LastIndex(p, '/') && p[k + 1..] == name
    requires name != [] && name != "."
    ensures PathName(p) == name
  {
  }

  /** `PurePosixPath(p).stem`: the name without its last suffix. A name
      whose only dot is its first or its last character has no suffix. */
  function Stem(p: String): (r: String)
    ensures '/' !in r
  {
    var name := PathName(p);
    var i := LastIndex(name, '.');
    if 0 < i < |name| - 1 then name[..i] else name
  }

  /** The name of `dir/name` is name. */
  lemma {:induction false} NameInDirectory(dir: String, name: String)
    requires dir == [] || dir[|dir| - 1] == '/'
    requires |name| >= 2 && '/' !in name
    ensures PathName(dir + name) == name
  {
    var p := dir + name;
    LastIndexAppend(dir, name, '/');
    var k := |dir| - 1;
    assert LastIndex(dir, '/') == k;
    assert p[k + 1..] == name;
    NameOfLast(p, k, name);
  }

  /** The stem of `dir/base.ext` is base. */
  lemma {:induction false} StemOfFile(dir: String, base: String, ext: String)
    requires dir == [] || dir[|dir| - 1] == '/'
    requires base != [] && ext != [] && '/' !in base && '/' !in ext && '.' !in ext
    ensures Stem(dir + base + "." + ext) == base
  {
    var dotted := base + ".";
    var name := dotted + ext;
    assert dir + base + "." + ext == dir + name;
    assert '/' !in name by {
      assert name == base + "." + ext;
    }
    NameInDirectory(dir, name);
    LastIndexAppend(dotted, ext, '.');
    assert LastIndex(dotted, '.') == |base|;
    assert name[..|base|] == base;
  }
}
