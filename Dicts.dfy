/**
 * Python dictionaries with string keys, as the memory classes use them
 * (`inputs`, `outputs`, a message's `additional_kwargs`): an association list
 * in insertion order whose keys are pairwise distinct.
 */
module Dicts {
  import opened Wrappers

  ghost predicate DistinctKeys<V>(d: seq<(string, V)>) {
    forall i, j :: 0 <= i < j < |d| ==> d[i].0 != d[j].0
  }

  type Dict<V> = d: seq<(string, V)> | DistinctKeys(d) witness []

  /** The keys in insertion order, as `d.keys()` lists them. */
  function Keys<V>(d: seq<(string, V)>): (ks: seq<string>)
    ensures |ks| == |d|
    ensures forall i :: 0 <= i < |d| ==> ks[i] == d[i].0
  {
    seq(|d|, i requires 0 <= i < |d| => d[i].0)
  }

  /** Position of the first entry with key `k`, or `|d|` when there is none. */
  function IndexOf<V>(d: seq<(string, V)>, k: string): (i: nat)
    ensures i <= |d|
    ensures i < |d| ==> d[i].0 == k
    ensures forall j :: 0 <= j < i ==> d[j].0 != k
  {
    if d == [] then 0
    else if d[0].0 == k then 0
    else 1 + IndexOf(d[1..], k)
  }

  /** `d[k]`, with `None` where Python raises `KeyError`. */
  function Lookup<V>(d: seq<(string, V)>, k: string): (r: Option<V>)
    ensures r.None? <==> forall i :: 0 <= i < |d| ==> d[i].0 != k
    ensures r.Some? ==> exists i :: 0 <= i < |d| && d[i] == (k, r.value)
  {
    var i := IndexOf(d, k);
    if i < |d| then Some(d[i].1) else None
  }

  /**
   * `d[k] = v`: an existing key keeps its position and takes the new value,
   * a new key goes at the end.
   */
  function Put<V>(d: Dict<V>, k: string, v: V): (r: Dict<V>)
    ensures Lookup(r, k) == Some(v)
    ensures forall k' :: k' != k ==> Lookup(r, k') == Lookup(d, k')
    ensures Lookup(d, k).None? ==> r == d + [(k, v)]
    ensures Lookup(d, k).Some? ==> Keys(r) == Keys(d)
  {
    var i := IndexOf(d, k);
    if i < |d| then
      var r := d[i := (k, v)];
      assert Keys(r) == Keys(d);
      r
    else
      LookupAppend(d, k, v);
      d + [(k, v)]
  }

  /** `{k: v}`. */
  function Singleton<V>(k: string, v: V): (d: Dict<V>)
    ensures Keys(d) == [k]
    ensures Lookup(d, k) == Some(v)
  {
    var d := [(k, v)];
    assert DistinctKeys(d);
    d
  }

  /** In a dictionary the lookup of an entry's key finds that entry. */
  lemma LookupAt<V>(d: seq<(string, V)>, i: nat)
    requires DistinctKeys(d) && i < |d|
    ensures Lookup(d, d[i].0) == Some(d[i].1)
  {
    assert IndexOf(d, d[i].0) == i;
  }

  lemma LookupAppend<V>(d: seq<(string, V)>, k: string, v: V)
    requires DistinctKeys(d) && Lookup(d, k).None?
    ensures Lookup(d + [(k, v)], k) == Some(v)
    ensures forall k' :: k' != k ==> Lookup(d + [(k, v)], k') == Lookup(d, k')
  {
    var e := d + [(k, v)];
    LookupAt(e, |d|);
    forall k' | k' != k
      ensures Lookup(e, k') == Lookup(d, k')
    {
      var i := IndexOf(d, k');
      if i < |d| {
        LookupAt(e, i);
        LookupAt(d, i);
      } else {
        assert forall j :: 0 <= j < |e| ==> e[j].0 != k';
      }
    }
  }
}
