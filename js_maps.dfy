/** A model of the JavaScript `Map` object as far as the program uses it:
    construction from a list of `[key, value]` entries, `get`, and the
    insertion order of its keys. Setting a key that is already present
    replaces its value but keeps the key's original position. */
module JsMaps {
  import opened Wrappers

  datatype JsMap<K(!new), V> = JsMap(keys: seq<K>, values: map<K, V>) {

    /** The keys are listed once each, in insertion order, and are exactly
        the keys that carry a value. */
    predicate Valid() {
      && (forall i, j :: 0 <= i < j < |keys| ==> keys[i] != keys[j])
      && (forall k :: k in values ==> k in keys)
      && (forall i :: 0 <= i < |keys| ==> keys[i] in values)
    }

    /** `map.get(k)`: the value stored under `k`, or `undefined`. */
    function Get(k: K): (r: Option<V>)
      ensures r.Some? <==> k in values
      ensures r.Some? ==> r.value == values[k]
    {
      if k in values then Some(values[k]) else None
    }

    /** `map.set(k, v)`. */
    function Set(k: K, v: V): (r: JsMap<K, V>)
      requires Valid()
      ensures r.Valid()
      ensures r.values == values[k := v]
      ensures k in values ==> r.keys == keys
      ensures k !in values ==> r.keys == keys + [k]
    {
      if k in values then JsMap(keys, values[k := v]) else JsMap(keys + [k], values[k := v])
    }
  }

  function Empty<K(!new), V>(): (r: JsMap<K, V>)
    ensures r.Valid() && r.keys == [] && r.values == map[]
  {
    JsMap([], map[])
  }

  /** The first components of a list of entries, in order. */
  function EntryKeys<K, V>(entries: seq<(K, V)>): (r: seq<K>)
    ensures |r| == |entries|
    ensures forall i :: 0 <= i < |entries| ==> r[i] == entries[i].0
  {
    seq(|entries|, i requires 0 <= i < |entries| => entries[i].0)
  }

  predicate DistinctKeys<K(==), V>(entries: seq<(K, V)>) {
    forall i, j :: 0 <= i < j < |entries| ==> entries[i].0 != entries[j].0
  }

  /** `new Map(entries)`: the entries are set one after the other. */
  function FromEntries<K(!new), V>(entries: seq<(K, V)>): (r: JsMap<K, V>)
    ensures r.Valid()
    decreases |entries|
  {
    if |entries| == 0 then Empty()
    else FromEntries(entries[..|entries| - 1]).Set(entries[|entries| - 1].0, entries[|entries| - 1].1)
  }

  /** Entry `i` is the last one whose key is `k`. */
  predicate LastWithKey<K(==), V>(entries: seq<(K, V)>, i: int, k: K) {
    && 0 <= i < |entries|
    && entries[i].0 == k
    && forall j :: i < j < |entries| ==> entries[j].0 != k
  }

  /** The keys of `new Map(entries)` are exactly the keys of the entries. */
  lemma {:induction false} FromEntriesKeys<K(!new), V>(entries: seq<(K, V)>, k: K)
    ensures k in FromEntries(entries).values <==> k in EntryKeys(entries)
    decreases |entries|
  {
    if |entries| > 0 {
      var init := entries[..|entries| - 1];
      FromEntriesKeys(init, k);
      assert EntryKeys(entries) == EntryKeys(init) + [entries[|entries| - 1].0];
    }
  }

  /** A key that occurs several times gets the value of its last occurrence. */
  lemma {:induction false} FromEntriesLastWins<K(!new), V>(entries: seq<(K, V)>, i: int, k: K)
    requires LastWithKey(entries, i, k)
    ensures FromEntries(entries).Get(k) == Some(entries[i].1)
    decreases |entries|
  {
    var n := |entries|;
    var init := entries[..n - 1];
    if i < n - 1 {
      assert entries[n - 1].0 != k;
      assert LastWithKey(init, i, k) by {
        forall j | i < j < |init| ensures init[j].0 != k {
          assert init[j] == entries[j];
        }
      }
      FromEntriesLastWins(init, i, k);
    }
  }

  /** With pairwise distinct keys, the map lists the keys in entry order and
      maps each entry's key to that entry's value. */
  lemma {:induction false} FromEntriesDistinct<K(!new), V>(entries: seq<(K, V)>)
    requires DistinctKeys(entries)
    ensures FromEntries(entries).keys == EntryKeys(entries)
    ensures forall i :: 0 <= i < |entries| ==> FromEntries(entries).Get(entries[i].0) == Some(entries[i].1)
    decreases |entries|
  {
    var n := |entries|;
    if n > 0 {
      var init := entries[..n - 1];
      var last := entries[n - 1];
      assert DistinctKeys(init);
      FromEntriesDistinct(init);
      assert EntryKeys(entries) == EntryKeys(init) + [last.0];
      FromEntriesKeys(init, last.0);
      forall i | 0 <= i < n
        ensures FromEntries(entries).Get(entries[i].0) == Some(entries[i].1)
      {
        assert LastWithKey(entries, i, entries[i].0);
        FromEntriesLastWins(entries, i, entries[i].0);
      }
    }
  }
}
