/**
 * A JavaScript object or a Python dict used as a table: its entries together with the order
 * in which its keys were inserted. Both languages iterate such a table in insertion order
 * (for the non-numeric keys used here); updating a present key keeps its place, deleting a
 * key removes it from the order, and inserting a new key appends it.
 */
module OrderedMaps {

  predicate Distinct<K(==)>(s: seq<K>)
  {
    forall i, j :: 0 <= i < j < |s| ==> s[i] != s[j]
  }

  /** `s` without the occurrences of `k`, order kept. */
  function Without<K(==,!new)>(s: seq<K>, k: K): (r: seq<K>)
    ensures forall x :: x in r <==> x in s && x != k
    ensures Distinct(s) ==> Distinct(r)
    ensures k !in s ==> r == s
  {
    if s == [] then []
    else
      var rest := Without(s[1..], k);
      assert Distinct(s) ==> s[0] !in s[1..];
      if s[0] == k then rest else [s[0]] + rest
  }

  datatype OrderedMap<K(==,!new), V> = OrderedMap(entries: map<K, V>, keys: seq<K>)
  {
    /** The order lists every key exactly once. */
    ghost predicate Valid()
    {
      Distinct(keys) && forall k :: k in entries <==> k in keys
    }

    /** Lookup with a fallback, as in `table[k] || fallback` / `table.get(k, fallback)`. */
    function GetOr(k: K, default: V): V
    {
      if k in entries then entries[k] else default
    }

    /** `table[k] = v`: a present key keeps its place, a new key goes last. */
    function Put(k: K, v: V): (r: OrderedMap<K, V>)
      requires Valid()
      ensures r.Valid()
      ensures r.entries == entries[k := v]
      ensures k in entries ==> r.keys == keys
      ensures k !in entries ==> r.keys == keys + [k]
    {
      OrderedMap(entries[k := v], if k in entries then keys else keys + [k])
    }

    /** `del table[k]` (or nothing, for an absent key). */
    function Remove(k: K): (r: OrderedMap<K, V>)
      requires Valid()
      ensures r.Valid()
      ensures r.entries == entries - {k}
      ensures k !in entries ==> r == this
    {
      OrderedMap(entries - {k}, Without(keys, k))
    }
  }

  function Empty<K(==,!new), V>(): (r: OrderedMap<K, V>)
    ensures r.Valid() && r.entries == map[]
  {
    OrderedMap(map[], [])
  }

  /** Putting a key twice keeps only the second value; putting back a key's own value changes nothing. */
  lemma PutTwice<K(!new), V>(t: OrderedMap<K, V>, k: K, v1: V, v2: V)
    requires t.Valid() && k in t.entries && t.entries[k] == v2
    ensures t.Put(k, v1).Put(k, v2) == t
  {
    assert t.entries[k := v1][k := v2] == t.entries;
  }

  /** Putting a key and then removing it, when it was absent, gives back the table. */
  lemma PutThenRemove<K(!new), V>(t: OrderedMap<K, V>, k: K, v: V)
    requires t.Valid() && k !in t.entries
    ensures t.Put(k, v).Remove(k) == t
  {
    WithoutLast(t.keys, k);
    assert t.entries[k := v] - {k} == t.entries;
  }

  lemma {:induction false} WithoutLast<K(!new)>(s: seq<K>, k: K)
    requires k !in s
    ensures Without(s + [k], k) == s
  {
    if s != [] {
      WithoutLast(s[1..], k);
      assert (s + [k])[1..] == s[1..] + [k];
    }
  }
}
