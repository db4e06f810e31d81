/**
 * Python dictionaries as insertion-ordered association lists.
 *
 * A dict iterates its keys in the order they were first inserted, and
 * assigning to a key that is already present keeps that key's position.
 * Both facts decide which worker is "seen first" by the analyses, so the
 * registry is a sequence of key/value pairs rather than a Dafny `map`.
 */
module Assoc {
  import opened Wrappers

  /** Every key occurs at most once, as in a dict. */
  ghost predicate UniqueKeys<K, V>(s: seq<(K, V)>) {
    forall i, j :: 0 <= i < j < |s| ==> s[i].0 != s[j].0
  }

  /** The keys in iteration order (`d.keys()`). */
  function Keys<K, V>(s: seq<(K, V)>): (ks: seq<K>)
    ensures |ks| == |s| && forall i :: 0 <= i < |s| ==> ks[i] == s[i].0
  {
    if s == [] then [] else [s[0].0] + Keys(s[1..])
  }

  /** `d.get(k)`: the value stored under `k`, if any. */
  function Get<K(==), V>(s: seq<(K, V)>, k: K): (r: Option<V>)
    ensures r.Some? <==> k in Keys(s)
  {
    if s == [] then None
    else if s[0].0 == k then Some(s[0].1)
    else Get(s[1..], k)
  }

  /** What `d.get` returns is stored in the dict under that key. */
  lemma {:induction false} GetIn<K, V>(s: seq<(K, V)>, k: K)
    ensures Get(s, k).Some? ==> (k, Get(s, k).value) in s
  {
    if s != [] && s[0].0 != k {
      GetIn(s[1..], k);
    }
  }

  /**
   * `d[k] = v`: overwrite the value of an existing key in place, or append
   * a new key at the end.
   */
  function Put<K(==), V>(s: seq<(K, V)>, k: K, v: V): (r: seq<(K, V)>)
    ensures Keys(r) == if k in Keys(s) then Keys(s) else Keys(s) + [k]
    ensures forall e :: e in r ==> e == (k, v) || e in s
  {
    if s == [] then [(k, v)]
    else if s[0].0 == k then
      var r := [(k, v)] + s[1..];
      assert r[1..] == s[1..];
      r
    else
      var r := [s[0]] + Put(s[1..], k, v);
      assert r[1..] == Put(s[1..], k, v);
      r
  }

  /** After `d[k] = v`, `d.get(k)` is `v` and every other key reads as before. */
  lemma {:induction false} PutGet<K, V>(s: seq<(K, V)>, k: K, v: V, k': K)
    ensures Get(Put(s, k, v), k') == if k' == k then Some(v) else Get(s, k')
  {
    if s != [] && s[0].0 != k {
      PutGet(s[1..], k, v, k');
    }
  }

  /** Assignment keeps a dict's keys unique. */
  lemma PutUnique<K, V>(s: seq<(K, V)>, k: K, v: V)
    requires UniqueKeys(s)
    ensures UniqueKeys(Put(s, k, v))
  {
    var r := Put(s, k, v);
    forall i, j | 0 <= i < j < |r| ensures r[i].0 != r[j].0 {
      assert r[i].0 == Keys(r)[i] && r[j].0 == Keys(r)[j];
      assert Keys(s)[i] == s[i].0;
      if j < |s| {
        assert Keys(s)[j] == s[j].0;
      }
    }
  }

  /** The keys of a prefix are the prefix of the keys. */
  lemma KeysOfPrefix<K, V>(s: seq<(K, V)>, n: int)
    requires 0 <= n <= |s|
    ensures Keys(s[..n]) == Keys(s)[..n]
  {
  }

  /** In a dict, the last key does not occur before it. */
  lemma LastKeyIsNew<K, V>(s: seq<(K, V)>)
    requires UniqueKeys(s) && s != []
    ensures UniqueKeys(s[..|s| - 1])
    ensures s[|s| - 1].0 !in Keys(s[..|s| - 1])
  {
    var n := |s| - 1;
    forall m | 0 <= m < n ensures Keys(s[..n])[m] != s[n].0 {
      assert Keys(s[..n])[m] == s[m].0;
    }
  }
}
