/** The insertion-ordered maps (java.util.LinkedHashMap) that the catalog is built from. */
module LinkedMaps {
  import opened Wrappers

  ghost predicate Distinct<T>(s: seq<T>) {
    forall i, j :: 0 <= i < j < |s| ==> s[i] != s[j]
  }

  /** `keys` lists every key once, in the order of its FIRST insertion;
      `entries` holds the current value of each key. */
  datatype LinkedMap<K(==), V> = LinkedMap(keys: seq<K>, entries: map<K, V>) {

    ghost predicate Valid() {
      && Distinct(keys)
      && (forall k :: k in entries ==> k in keys)
      && (forall k :: k in keys ==> k in entries)
    }

    function Get(k: K): Option<V> {
      if k in entries then Some(entries[k]) else None
    }

    /** `put`: a new key goes to the end; an existing key keeps its position
        and only its value is replaced. */
    function Put(k: K, v: V): (r: LinkedMap<K, V>)
      ensures Valid() ==> r.Valid()
      ensures r.entries == entries[k := v]
      ensures k in entries ==> r.keys == keys
      ensures k !in entries ==> r.keys == keys + [k]
    {
      if k in entries then LinkedMap(keys, entries[k := v])
      else LinkedMap(keys + [k], entries[k := v])
    }

    /** `values()`: the values in key order. */
    function Items(): (vs: seq<V>)
      requires Valid()
      ensures |vs| == |keys|
    {
      seq(|keys|, i requires 0 <= i < |keys| => entries[keys[i]])
    }
  }

  function Empty<K, V>(): (m: LinkedMap<K, V>)
    ensures m.Valid() && m.keys == [] && m.entries == map[]
  {
    LinkedMap([], map[])
  }

  /** Inserting a key that is not yet present appends its value to the values. */
  lemma PutNewItems<K, V>(m: LinkedMap<K, V>, k: K, v: V)
    requires m.Valid() && k !in m.entries
    ensures m.Put(k, v).Items() == m.Items() + [v]
  {
    var r := m.Put(k, v);
    assert r.keys == m.keys + [k];
    forall i | 0 <= i < |r.keys|
      ensures r.Items()[i] == (m.Items() + [v])[i]
    {
      if i < |m.keys| {
        assert m.keys[i] != k;
      }
    }
  }

  /** When every value is stored under its own key, the values are pairwise distinct. */
  lemma {:induction false} ItemsDistinct<K, V>(m: LinkedMap<K, V>, key: V -> K)
    requires m.Valid()
    requires forall k :: k in m.entries ==> key(m.entries[k]) == k
    ensures Distinct(m.Items())
  {
    var vs := m.Items();
    forall i, j | 0 <= i < j < |vs|
      ensures vs[i] != vs[j]
    {
      assert key(vs[i]) == m.keys[i];
      assert key(vs[j]) == m.keys[j];
    }
  }
}
