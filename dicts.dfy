/** Python dictionaries with string keys, kept as their entries in insertion order. */
module Dicts {
  import opened Wrappers

  type Dict<V> = seq<(string, V)>

  /** A Python dictionary holds each key once; the entry sequences here are not forced to. */
  predicate DistinctKeys<V>(d: Dict<V>)
  {
    forall i, j :: 0 <= i < j < |d| ==> d[i].0 != d[j].0
  }

  /** `d.get(key)`: the value of the first entry with that key. */
  function Get<V>(d: Dict<V>, key: string): (r: Option<V>)
    ensures r.Some? <==> exists i :: 0 <= i < |d| && d[i].0 == key
    ensures r.Some? ==> exists i :: 0 <= i < |d| && d[i] == (key, r.value)
  {
    if d == [] then None
    else if d[0].0 == key then Some(d[0].1)
    else Get(d[1..], key)
  }

  /** With distinct keys, as a Python dictionary has them, `get` finds the one entry under the key. */
  lemma {:induction false} GetDistinct<V>(d: Dict<V>, i: nat)
    requires DistinctKeys(d)
    requires i < |d|
    ensures Get(d, d[i].0) == Some(d[i].1)
  {
    if i > 0 {
      assert d[0].0 != d[i].0;
      var tail := d[1..];
      assert DistinctKeys(tail) by {
        forall k, l | 0 <= k < l < |tail|
          ensures tail[k].0 != tail[l].0
        {
          assert tail[k] == d[k + 1] && tail[l] == d[l + 1];
        }
      }
      assert tail[i - 1] == d[i];
      GetDistinct(tail, i - 1);
    }
  }
}
