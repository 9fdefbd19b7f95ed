/**
 * A JavaScript `Map`: a dictionary that remembers insertion order. `set` on a present
 * key replaces the value in place, `set` on a new key appends it, `delete` removes it,
 * `clear` empties it and `values()` enumerates in insertion order.
 */
module JsMaps {
  import opened Wrappers
  import opened Seqs

  datatype JsMap<K(==), V> = JsMap(keys: seq<K>, entries: map<K, V>)

  /** The key order lists every key of the dictionary exactly once. */
  ghost predicate Valid<K, V>(m: JsMap<K, V>) {
    && Distinct(m.keys)
    && (forall i :: 0 <= i < |m.keys| ==> m.keys[i] in m.entries)
    && (forall k :: k in m.entries ==> k in m.keys)
  }

  /** `new Map()` and the result of `clear()`. */
  function Empty<K(==), V>(): (r: JsMap<K, V>)
    ensures Valid(r) && r.keys == []
  {
    JsMap([], map[])
  }

  /** `map.get(k)`. */
  function Get<K(==), V>(m: JsMap<K, V>, k: K): (r: Option<V>)
    ensures r.Some? <==> k in m.entries
  {
    if k in m.entries then Some(m.entries[k]) else None
  }

  /** `map.set(k, v)`. */
  function Set<K(==,!new), V>(m: JsMap<K, V>, k: K, v: V): (r: JsMap<K, V>)
    requires Valid(m)
    ensures Valid(r)
    ensures Get(r, k) == Some(v)
    ensures forall j :: j != k ==> Get(r, j) == Get(m, j)
    ensures k in m.entries ==> r.keys == m.keys
    ensures k !in m.entries ==> r.keys == m.keys + [k]
  {
    if k in m.entries then JsMap(m.keys, m.entries[k := v])
    else JsMap(m.keys + [k], m.entries[k := v])
  }

  /** What `values()` lists after `set`: a new key's value at the end, a known key's value in place. */
  lemma SetValues<K(!new), V>(m: JsMap<K, V>, k: K, v: V)
    requires Valid(m)
    ensures k !in m.entries ==> Values(Set(m, k, v)) == Values(m) + [v]
    ensures k in m.entries ==>
              && |Values(Set(m, k, v))| == |Values(m)|
              && forall i :: 0 <= i < |m.keys| ==> Values(Set(m, k, v))[i] == if m.keys[i] == k then v else Values(m)[i]
  {
    if k !in m.entries {
      SetNewValue(m, k, v);
    } else {
      SetKnownValue(m, k, v);
    }
  }

  lemma SetNewValue<K(!new), V>(m: JsMap<K, V>, k: K, v: V)
    requires Valid(m) && k !in m.entries
    ensures Values(Set(m, k, v)) == Values(m) + [v]
  {
    var r := JsMap(m.keys + [k], m.entries[k := v]);
    assert Set(m, k, v) == r;
    var vs := Values(r);
    forall i | 0 <= i < |vs| ensures vs[i] == (Values(m) + [v])[i] {
      if i < |m.keys| {
        assert r.keys[i] == m.keys[i];
        assert m.keys[i] in m.entries;
      }
    }
  }

  lemma SetKnownValue<K(!new), V>(m: JsMap<K, V>, k: K, v: V)
    requires Valid(m) && k in m.entries
    ensures |Values(Set(m, k, v))| == |Values(m)|
    ensures forall i :: 0 <= i < |m.keys| ==> Values(Set(m, k, v))[i] == if m.keys[i] == k then v else Values(m)[i]
  {
    var r := JsMap(m.keys, m.entries[k := v]);
    assert Set(m, k, v) == r;
  }

  /** The key order with k taken out. */
  function Without<K(==)>(s: seq<K>, k: K): (r: seq<K>)
    ensures forall i :: 0 <= i < |r| ==> r[i] != k && r[i] in s
    ensures forall i :: 0 <= i < |s| && s[i] != k ==> s[i] in r
  {
    Filter(s, j => j != k)
  }

  lemma {:induction false} WithoutDistinct<K>(s: seq<K>, k: K)
    requires Distinct(s)
    ensures Distinct(Without(s, k))
  {
    if |s| > 0 {
      assert Distinct(s[1..]);
      WithoutDistinct(s[1..], k);
      var rest := Without(s[1..], k);
      forall i | 0 <= i < |rest| ensures rest[i] != s[0] {
        assert rest[i] in s[1..];
      }
    }
  }

  /** `map.delete(k)`; nothing happens when k is absent. */
  function Delete<K(==,!new), V>(m: JsMap<K, V>, k: K): (r: JsMap<K, V>)
    requires Valid(m)
    ensures Valid(r)
    ensures Get(r, k) == None
    ensures forall j :: j != k ==> Get(r, j) == Get(m, j)
    ensures k !in m.entries ==> r == m
  {
    WithoutDistinct(m.keys, k);
    if k !in m.entries then m else JsMap(Without(m.keys, k), m.entries - {k})
  }

  /** `Array.from(map.values())`: one value per key, in insertion order. */
  function Values<K(==), V>(m: JsMap<K, V>): (r: seq<V>)
    requires Valid(m)
    ensures |r| == |m.keys|
    ensures forall i :: 0 <= i < |r| ==> r[i] == m.entries[m.keys[i]]
  {
    ValuesOf(m.keys, m.entries)
  }

  function ValuesOf<K(==), V>(ks: seq<K>, entries: map<K, V>): (r: seq<V>)
    requires forall i :: 0 <= i < |ks| ==> ks[i] in entries
    ensures |r| == |ks|
    ensures forall i :: 0 <= i < |r| ==> r[i] == entries[ks[i]]
  {
    if |ks| == 0 then [] else [entries[ks[0]]] + ValuesOf(ks[1..], entries)
  }
}
