/**
 Insertion-ordered dictionaries, as the in-memory store uses them: overwriting a key keeps
 its place, a new key goes to the end, and scans run in that order.
 */
module Dicts {
  import opened Wrappers

  datatype RawDict<K(==), V> = RawDict(keys: seq<K>, m: map<K, V>) {
    ghost predicate Valid() {
      && (forall k | k in keys :: k in m)
      && (forall k | k in m :: k in keys)
      && (forall i, j | 0 <= i < j < |keys| :: keys[i] != keys[j])
    }

    function Put(k: K, v: V): (d: RawDict<K, V>)
      requires Valid()
      ensures d.Valid() && d.m == m[k := v]
    {
      RawDict(if k in m then keys else keys + [k], m[k := v])
    }

    function Get(k: K): (r: Option<V>)
      ensures r.Some? <==> k in m
      ensures r.Some? ==> r.value == m[k]
    {
      if k in m then Some(m[k]) else None
    }
  }

  type Dict<K(==), V> = d: RawDict<K, V> | d.Valid() witness RawDict([], map[])

  function Empty<K(==), V>(): Dict<K, V> {
    RawDict([], map[])
  }

  /** The last of two writes under one key wins, and the key keeps its place. */
  lemma PutTwice<K, V>(d: Dict<K, V>, k: K, v: V, w: V)
    ensures d.Put(k, v).Put(k, w) == d.Put(k, w)
  {
    assert d.m[k := v][k := w] == d.m[k := w];
  }

  /** Rewrites every value in place; keys and their order are kept. */
  function MapValues<K(==), V>(d: Dict<K, V>, f: V -> V): (r: Dict<K, V>)
    ensures r.keys == d.keys
    ensures forall k | k in d.m :: k in r.m && r.m[k] == f(d.m[k])
  {
    RawDict(d.keys, map k | k in d.m :: f(d.m[k]))
  }
}
