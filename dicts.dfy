/**
 * Python dictionaries, which iterate in insertion order, are modelled as
 * association lists: a sequence of (key, value) pairs in iteration order
 * whose keys are pairwise distinct.
 */
module Dicts {
  import opened Wrappers

  /** No key occurs twice, as in every Python dict. */
  ghost predicate DistinctKeys<K, V>(entries: seq<(K, V)>) {
    forall i, j :: 0 <= i < j < |entries| ==> entries[i].0 != entries[j].0
  }

  /** The keys of a dict. */
  function KeySet<K, V>(entries: seq<(K, V)>): set<K> {
    set i | 0 <= i < |entries| :: entries[i].0
  }

  /** The keys of a non-empty dict are its first key and the keys after it. */
  lemma KeySetCons<K, V>(entries: seq<(K, V)>)
    requires |entries| > 0
    ensures KeySet(entries) == {entries[0].0} + KeySet(entries[1..])
  {
    forall x | x in KeySet(entries)
      ensures x in {entries[0].0} + KeySet(entries[1..])
    {
      var i :| 0 <= i < |entries| && entries[i].0 == x;
      if i > 0 {
        assert entries[1..][i - 1].0 == x;
      }
    }
  }

  /** `d.get(key)`: the value stored under `key`, if any. */
  function Get<K(==), V>(entries: seq<(K, V)>, key: K): (r: Option<V>)
    ensures r.None? <==> forall i :: 0 <= i < |entries| ==> entries[i].0 != key
    ensures r.Some? ==> exists i :: 0 <= i < |entries| && entries[i] == (key, r.value)
  {
    if entries == [] then None
    else if entries[0].0 == key then Some(entries[0].1)
    else
      var r := Get(entries[1..], key);
      assert r.Some? ==> exists i :: 0 <= i < |entries[1..]| && entries[1..][i] == (key, r.value);
      assert r.Some? ==> exists i :: 1 <= i < |entries| && entries[i] == (key, r.value);
      r
  }

  /** Dropping the first entry keeps keys distinct, and no later key repeats the first. */
  lemma DistinctTail<K, V>(entries: seq<(K, V)>)
    requires DistinctKeys(entries) && |entries| > 0
    ensures DistinctKeys(entries[1..])
    ensures forall j :: 0 <= j < |entries[1..]| ==> entries[1..][j].0 != entries[0].0
  {
    forall a, b | 0 <= a < b < |entries[1..]| ensures entries[1..][a].0 != entries[1..][b].0 {
      assert entries[1..][a] == entries[a + 1] && entries[1..][b] == entries[b + 1];
    }
  }

  /** With distinct keys, `Get` finds exactly the value listed beside the key. */
  lemma {:induction false} GetListed<K, V>(entries: seq<(K, V)>, i: int)
    requires DistinctKeys(entries) && 0 <= i < |entries|
    ensures Get(entries, entries[i].0) == Some(entries[i].1)
  {
    if i > 0 {
      DistinctTail(entries);
      assert entries[0].0 != entries[i].0;
      GetListed(entries[1..], i - 1);
      assert entries[1..][i - 1] == entries[i];
    }
  }
}
