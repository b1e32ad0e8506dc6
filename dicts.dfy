/** Python dictionaries written as literals: an association list in source
    order. A key listed twice keeps its first position but the last value. */
module Dicts {
  import opened Wrappers

  /** `d.get(k)` on the dictionary built from the entries t. */
  function Get<K(==), V>(t: seq<(K, V)>, k: K): (r: Option<V>)
    ensures r.None? <==> forall i :: 0 <= i < |t| ==> t[i].0 != k
    ensures r.Some? ==> exists i :: 0 <= i < |t| && t[i] == (k, r.value)
                                    && forall j :: i < j < |t| ==> t[j].0 != k
  {
    if t == [] then None
    else if t[|t| - 1].0 == k then Some(t[|t| - 1].1)
    else Get(t[..|t| - 1], k)
  }

  /** The value of a key is the one at its last listing. */
  lemma GetLast<K, V>(t: seq<(K, V)>, k: K, i: nat)
    requires i < |t| && t[i].0 == k && forall j :: i < j < |t| ==> t[j].0 != k
    ensures Get(t, k) == Some(t[i].1)
  {
  }

  /** The key is listed in t. */
  predicate HasKey<K(==), V>(t: seq<(K, V)>, k: K) {
    exists i :: 0 <= i < |t| && t[i].0 == k
  }

  /** `d.get(k, default)` */
  function GetOr<K(==), V>(t: seq<(K, V)>, k: K, default: V): (r: V)
    ensures !HasKey(t, k) ==> r == default
    ensures HasKey(t, k) ==> Get(t, k) == Some(r)
  {
    Get(t, k).GetOr(default)
  }

  /** A dictionary literal split in two: a key of the second part takes its
      value from there, any other key from the first part. */
  lemma {:induction false} GetConcat<K, V>(a: seq<(K, V)>, b: seq<(K, V)>, k: K)
    ensures Get(a + b, k) == if HasKey(b, k) then Get(b, k) else Get(a, k)
    decreases |b|
  {
    if b == [] {
      assert a + b == a;
    } else {
      var b' := b[..|b| - 1];
      assert (a + b)[..|a + b| - 1] == a + b';
      if b[|b| - 1].0 != k {
        GetConcat(a, b', k);
        assert HasKey(b, k) ==> HasKey(b', k) by {
          if HasKey(b, k) {
            var i :| 0 <= i < |b| && b[i].0 == k;
            assert b'[i].0 == k;
          }
        }
      }
    }
  }

  /** The entries of a group of keys that share one value. */
  function Entries<K, V>(keys: seq<K>, v: V): (r: seq<(K, V)>)
    ensures |r| == |keys| && forall i :: 0 <= i < |keys| ==> r[i] == (keys[i], v)
  {
    seq(|keys|, i requires 0 <= i < |keys| => (keys[i], v))
  }

  lemma GetEntries<K, V>(keys: seq<K>, v: V, k: K)
    ensures HasKey(Entries(keys, v), k) <==> k in keys
    ensures Get(Entries(keys, v), k) == if k in keys then Some(v) else None
  {
    var e := Entries(keys, v);
    if k in keys {
      var i :| 0 <= i < |keys| && keys[i] == k;
      assert e[i].0 == k;
    }
  }

  /** A dictionary literal written as consecutive groups of entries. */
  function Flatten<K, V>(groups: seq<seq<(K, V)>>): seq<(K, V)> {
    if groups == [] then [] else Flatten(groups[..|groups| - 1]) + groups[|groups| - 1]
  }

  /** A key takes its value from the last group that lists it. */
  lemma {:induction false} GetFlatten<K, V>(groups: seq<seq<(K, V)>>, k: K, i: nat)
    requires i < |groups| && HasKey(groups[i], k)
    requires forall j :: i < j < |groups| ==> !HasKey(groups[j], k)
    ensures Get(Flatten(groups), k) == Get(groups[i], k)
    decreases |groups|
  {
    var init := groups[..|groups| - 1];
    GetConcat(Flatten(init), groups[|groups| - 1], k);
    if i < |groups| - 1 {
      GetFlatten(init, k, i);
    }
  }
}
