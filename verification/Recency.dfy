/**
 * The bounded least-recently-used map of `CacheStorage`, as the sequence of its
 * entries in order of use: the least recently used entry comes first. The `lru`
 * crate itself is not part of this model; these are the operations the cache
 * calls on it.
 */
module Recency {
  import opened Options

  datatype Entry<K, V> = Entry(key: K, value: V)

  ghost predicate DistinctKeys<K, V>(es: seq<Entry<K, V>>) {
    forall i, j :: 0 <= i < j < |es| ==> es[i].key != es[j].key
  }

  /** The position of a key, if the map has it. */
  function Find<K(==), V>(es: seq<Entry<K, V>>, key: K): (r: Option<nat>)
    ensures r.Some? ==> r.value < |es| && es[r.value].key == key
    ensures r.None? ==> forall i :: 0 <= i < |es| ==> es[i].key != key
  {
    if es == [] then None
    else if es[|es| - 1].key == key then Some(|es| - 1)
    else Find(es[..|es| - 1], key)
  }

  /** Move the entry at position i to the most recently used end, with value v. */
  function Promote<K, V>(es: seq<Entry<K, V>>, i: nat, v: V): (r: seq<Entry<K, V>>)
    requires i < |es|
    ensures |r| == |es|
  {
    es[..i] + es[i + 1..] + [Entry(es[i].key, v)]
  }

  /** Add an entry as the most recently used one; a full map loses its oldest entry. */
  function Insert<K, V>(es: seq<Entry<K, V>>, limit: nat, e: Entry<K, V>): (r: seq<Entry<K, V>>)
    requires 1 <= limit
    ensures |es| <= limit ==> |r| <= limit
  {
    if |es| < limit then es + [e] else es[1..] + [e]
  }

  lemma PromoteKeepsDistinct<K, V>(es: seq<Entry<K, V>>, i: nat, v: V)
    requires i < |es| && DistinctKeys(es)
    ensures DistinctKeys(Promote(es, i, v))
  {
    var r := Promote(es, i, v);
    forall a, b | 0 <= a < b < |r| ensures r[a].key != r[b].key {
      var oa := if a < i then a else if a < |es| - 1 then a + 1 else i;
      var ob := if b < i then b else if b < |es| - 1 then b + 1 else i;
      assert r[a].key == es[oa].key && r[b].key == es[ob].key && oa != ob;
    }
  }

  lemma InsertKeepsDistinct<K, V>(es: seq<Entry<K, V>>, limit: nat, e: Entry<K, V>)
    requires 1 <= limit && DistinctKeys(es)
    requires forall i :: 0 <= i < |es| ==> es[i].key != e.key
    ensures DistinctKeys(Insert(es, limit, e))
  {
  }
}
