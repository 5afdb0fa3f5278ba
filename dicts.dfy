/**
 * A Python dict keyed by strings: its key/value pairs in insertion order,
 * which is the order `for k in d` and `list(d.keys())` visit them.
 */
module Dicts {
  import opened Wrappers

  type Dict<V> = seq<(string, V)>

  /** `list(d.keys())`. */
  function Keys<V>(d: Dict<V>): (ks: seq<string>)
    ensures |ks| == |d|
    ensures forall i :: 0 <= i < |d| ==> ks[i] == d[i].0
  {
    if d == [] then [] else [d[0].0] + Keys(d[1..])
  }

  /** The key of one entry. */
  function KeyOf<V>(e: (string, V)): string
  {
    e.0
  }

  /** No key occurs twice, as in every Python dict. */
  predicate DistinctKeys<V>(d: Dict<V>)
  {
    forall i, j :: 0 <= i < j < |d| ==> d[i].0 != d[j].0
  }

  /** `d[k]` when `k in d`, and nothing otherwise. */
  function Get<V>(d: Dict<V>, k: string): (r: Option<V>)
    ensures r.Some? <==> k in Keys(d)
  {
    if d == [] then None
    else if d[0].0 == k then Some(d[0].1)
    else Get(d[1..], k)
  }

  /** `d[k] = v`: replaces the value of an existing key in place, otherwise appends a new entry. */
  function SetItem<V>(d: Dict<V>, k: string, v: V): Dict<V>
  {
    if d == [] then [(k, v)]
    else if d[0].0 == k then [(k, v)] + d[1..]
    else [d[0]] + SetItem(d[1..], k, v)
  }

  /** Assigning to a key the dict does not have adds one entry at the end. */
  lemma {:induction false} SetItemNewKey<V>(d: Dict<V>, k: string, v: V)
    requires k !in Keys(d)
    ensures SetItem(d, k, v) == d + [(k, v)]
  {
    if d != [] {
      KeysCons(d);
      SetItemNewKey(d[1..], k, v);
      assert d == [d[0]] + d[1..];
    }
  }

  /**
   * After `d[k] = v`, `d[k]` is `v`, every other key keeps its value, the keys
   * are those of `d` plus `k`, and no key has a second entry.
   */
  lemma {:induction false} SetItemFrame<V>(d: Dict<V>, k: string, v: V)
    requires DistinctKeys(d)
    ensures Get(SetItem(d, k, v), k) == Some(v)
    ensures forall k' :: k' != k ==> Get(SetItem(d, k, v), k') == Get(d, k')
    ensures forall k' :: k' in Keys(SetItem(d, k, v)) <==> k' in Keys(d) || k' == k
    ensures DistinctKeys(SetItem(d, k, v))
  {
    var r := SetItem(d, k, v);
    if d == [] {
    } else if d[0].0 == k {
      assert r[1..] == d[1..];
      KeysCons(d);
      KeysCons(r);
    } else {
      var rest := SetItem(d[1..], k, v);
      SetItemFrame(d[1..], k, v);
      assert r == [d[0]] + rest;
      KeysCons(d);
      KeysCons(r);
      assert r[1..] == rest;
      assert d[0].0 !in Keys(rest);
      forall i, j | 0 <= i < j < |r|
        ensures r[i].0 != r[j].0
      {
        if i == 0 {
          assert r[j].0 == Keys(rest)[j - 1];
        } else {
          assert r[i] == rest[i - 1] && r[j] == rest[j - 1];
        }
      }
    }
  }

  lemma KeysCons<V>(d: Dict<V>)
    requires d != []
    ensures Keys(d) == [d[0].0] + Keys(d[1..])
  {
  }
}
