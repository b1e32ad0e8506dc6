/** Order-preserving list operations the core builds with comprehensions:
    mapping (`[f(x) for x in s]`), filtering (`[x for x in s if p(x)]`) and
    de-duplication keeping the first occurrence (`list(dict.fromkeys(s))`). */
module Seqs {

  /** No element occurs twice. */
  predicate Distinct<T(==)>(s: seq<T>) {
    forall i, j :: 0 <= i < j < |s| ==> s[i] != s[j]
  }

  /** `[x for x in s if p(x)]`: keeps exactly the elements satisfying p,
      with their multiplicities. */
  function Filter<T(==,!new)>(s: seq<T>, p: T -> bool): (r: seq<T>)
    ensures |r| <= |s|
    ensures forall x :: x in r <==> x in s && p(x)
    ensures forall x :: multiset(r)[x] == if p(x) then multiset(s)[x] else 0
  {
    if s == [] then []
    else
      assert s == [s[0]] + s[1..];
      (if p(s[0]) then [s[0]] else []) + Filter(s[1..], p)
  }

  /** Filtering commutes with concatenation, so the filter keeps the input order. */
  lemma {:induction false} FilterConcat<T(!new)>(a: seq<T>, b: seq<T>, p: T -> bool)
    ensures Filter(a + b, p) == Filter(a, p) + Filter(b, p)
  {
    if a == [] {
      assert a + b == b;
    } else {
      var ab := a + b;
      assert ab[0] == a[0] && ab[1..] == a[1..] + b;
      var head := if p(a[0]) then [a[0]] else [];
      var x, y := Filter(a[1..], p), Filter(b, p);
      assert Filter(ab, p) == head + Filter(a[1..] + b, p);
      FilterConcat(a[1..], b, p);
      assert Filter(a, p) == head + x;
      ConcatAssoc(head, x, y);
    }
  }

  lemma ConcatAssoc<T>(a: seq<T>, b: seq<T>, c: seq<T>)
    ensures a + (b + c) == (a + b) + c
  {
  }

  /** Filtering a duplicate-free list leaves it duplicate-free. */
  lemma {:induction false} FilterDistinct<T(!new)>(s: seq<T>, p: T -> bool)
    requires Distinct(s)
    ensures Distinct(Filter(s, p))
  {
    if s != [] {
      FilterDistinct(s[1..], p);
      assert s[0] !in s[1..];
    }
  }

  /** Two predicates that agree on the elements of s select the same list. */
  lemma {:induction false} FilterAgree<T(!new)>(s: seq<T>, p: T -> bool, q: T -> bool)
    requires forall i :: 0 <= i < |s| ==> p(s[i]) == q(s[i])
    ensures Filter(s, p) == Filter(s, q)
  {
    if s != [] {
      FilterAgree(s[1..], p, q);
    }
  }

  /** `list(dict.fromkeys(s))`: the first occurrence of every element, in order. */
  function Dedup<T(==,!new)>(s: seq<T>): (r: seq<T>)
    ensures forall x :: x in r <==> x in s
    ensures Distinct(r)
    ensures |r| <= |s|
    decreases |s|
  {
    if s == [] then []
    else
      var d := Dedup(s[..|s| - 1]);
      assert forall x :: x in s <==> x in s[..|s| - 1] || x == s[|s| - 1] by {
        assert s == s[..|s| - 1] + [s[|s| - 1]];
      }
      if s[|s| - 1] in d then d else d + [s[|s| - 1]]
  }

  /** De-duplicating an already duplicate-free list changes nothing. */
  lemma {:induction false} DedupOfDistinct<T(!new)>(s: seq<T>)
    requires Distinct(s)
    ensures Dedup(s) == s
  {
    if s != [] {
      var init := s[..|s| - 1];
      assert Distinct(init);
      DedupOfDistinct(init);
      assert s[|s| - 1] !in init;
      assert s == init + [s[|s| - 1]];
    }
  }

  /** The elements of s that do not occur in a, in s's order. */
  function Without<T(==,!new)>(s: seq<T>, a: seq<T>): (r: seq<T>)
    ensures forall x :: x in r <==> x in s && x !in a
    decreases |s|
  {
    if s == [] then []
    else
      var init := Without(s[..|s| - 1], a);
      assert s == s[..|s| - 1] + [s[|s| - 1]];
      if s[|s| - 1] in a then init else init + [s[|s| - 1]]
  }

  /** Merging: de-duplicating `a + b` keeps a's first occurrences in order and
      appends b's first occurrences that are not in `a`, in b's order. */
  lemma {:induction false} DedupAppend<T(!new)>(a: seq<T>, b: seq<T>)
    ensures Dedup(a + b) == Dedup(a) + Without(Dedup(b), a)
    decreases |b|
  {
    if b == [] {
      assert a + b == a;
    } else {
      var b' := b[..|b| - 1];
      var y := b[|b| - 1];
      assert (a + b)[..|a + b| - 1] == a + b';
      assert (a + b)[|a + b| - 1] == y;
      DedupAppend(a, b');
      var d := Dedup(a + b');
      assert y in d <==> y in a || y in b';
      if y in b' {
        assert Dedup(b) == Dedup(b');
      } else {
        var db := Dedup(b') + [y];
        assert Dedup(b) == db;
        assert db[..|db| - 1] == Dedup(b');
      }
    }
  }
  /** Leaving out elements keeps a duplicate-free list duplicate-free. */
  lemma {:induction false} WithoutDistinct<T(!new)>(s: seq<T>, a: seq<T>)
    requires Distinct(s)
    ensures Distinct(Without(s, a))
    decreases |s|
  {
    if s != [] {
      var init := s[..|s| - 1];
      WithoutDistinct(init, a);
      assert s[|s| - 1] !in init;
    }
  }

  /** Leaving out nothing keeps every element, repeated ones included. */
  lemma {:induction false} WithoutNothing<T(!new)>(s: seq<T>)
    ensures Without(s, []) == s
    decreases |s|
  {
    if s != [] {
      WithoutNothing(s[..|s| - 1]);
    }
  }

  /** Only the elements of a matter to Without, not their order or repeats. */
  lemma {:induction false} WithoutSameElements<T(!new)>(s: seq<T>, a: seq<T>, b: seq<T>)
    requires forall x :: x in a <==> x in b
    ensures Without(s, a) == Without(s, b)
    decreases |s|
  {
    if s != [] {
      WithoutSameElements(s[..|s| - 1], a, b);
    }
  }

  /** Merging into a de-duplicated list is de-duplicating the concatenation. */
  lemma DedupMerge<T(!new)>(a: seq<T>, b: seq<T>)
    ensures Dedup(Dedup(a) + b) == Dedup(a + b)
  {
    DedupAppend(Dedup(a), b);
    DedupAppend(a, b);
    DedupOfDistinct(Dedup(a));
    WithoutSameElements(Dedup(b), Dedup(a), a);
  }
  /** Appending the new elements of a duplicate-free b to a duplicate-free a
      leaves no duplicate. */
  lemma AppendWithoutDistinct<T(!new)>(a: seq<T>, b: seq<T>)
    requires Distinct(a) && Distinct(b)
    ensures Distinct(a + Without(b, a))
  {
    var w := Without(b, a);
    WithoutDistinct(b, a);
    var s := a + w;
    forall i, j | 0 <= i < j < |s|
      ensures s[i] != s[j]
    {
      if j >= |a| && i < |a| {
        assert s[j] in w;
      }
    }
  }

  /** `[f(x) for x in s]` */
  function Map<T, U>(f: T -> U, s: seq<T>): (r: seq<U>)
    ensures |r| == |s| && forall i :: 0 <= i < |s| ==> r[i] == f(s[i])
  {
    seq(|s|, i requires 0 <= i < |s| => f(s[i]))
  }

  /** Mapping commutes with concatenation. */
  lemma MapConcat<T, U>(f: T -> U, a: seq<T>, b: seq<T>)
    ensures Map(f, a + b) == Map(f, a) + Map(f, b)
  {
    forall i | 0 <= i < |a| + |b|
      ensures Map(f, a + b)[i] == (Map(f, a) + Map(f, b))[i]
    {
      if i < |a| {
        assert (a + b)[i] == a[i];
      } else {
        assert (a + b)[i] == b[i - |a|];
      }
    }
  }
}
