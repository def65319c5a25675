/**
 * Listing the records of a map.  Go ranges over a map in an unspecified
 * order, so a listing is specified as a relation: the result holds every
 * entry of the map exactly once, in some order of its keys.
 */
module Listing {

  /** r lists the values of m in the order of keys, each key exactly once. */
  ghost predicate Enumerates<T>(r: seq<T>, keys: seq<string>, m: map<string, T>) {
    && |keys| == |r|
    && (forall i :: 0 <= i < |keys| ==> keys[i] in m && r[i] == m[keys[i]])
    && (forall i, j :: 0 <= i < j < |keys| ==> keys[i] != keys[j])
    && (forall k :: k in m ==> k in keys)
  }

  lemma {:induction false} DistinctCount(keys: seq<string>)
    requires forall i, j :: 0 <= i < j < |keys| ==> keys[i] != keys[j]
    ensures |set k | k in keys| == |keys|
    decreases |keys|
  {
    if keys != [] {
      var rest := keys[1..];
      DistinctCount(rest);
      assert (set k | k in keys) == {keys[0]} + (set k | k in rest);
      assert keys[0] !in (set k | k in rest);
    }
  }

  /** A listing has exactly as many elements as the map has entries. */
  lemma EnumerationCount<T>(r: seq<T>, keys: seq<string>, m: map<string, T>)
    requires Enumerates(r, keys, m)
    ensures |r| == |m|
  {
    DistinctCount(keys);
    assert (set k | k in keys) == m.Keys;
  }

  /** What a listing shows without its keys: one entry per map entry, and exactly the map's values. */
  predicate Lists<T(==)>(r: seq<T>, m: map<string, T>) {
    && |r| == |m|
    && (forall i :: 0 <= i < |r| ==> r[i] in m.Values)
    && (forall k :: k in m ==> m[k] in r)
  }

  lemma EnumerationLists<T>(r: seq<T>, keys: seq<string>, m: map<string, T>)
    requires Enumerates(r, keys, m)
    ensures Lists(r, m)
  {
    EnumerationCount(r, keys, m);
    forall k | k in m
      ensures m[k] in r
    {
      var i :| 0 <= i < |keys| && keys[i] == k;
      assert r[i] == m[k];
    }
    forall i | 0 <= i < |r|
      ensures r[i] in m.Values
    {
      assert m[keys[i]] == r[i];
    }
  }

  /** The records of m, one per key, in an arbitrary order (a Go range loop). */
  method Values<T(==)>(m: map<string, T>) returns (r: seq<T>, ghost keys: seq<string>)
    ensures Enumerates(r, keys, m)
    ensures Lists(r, m)
  {
    r, keys := [], [];
    var rest := m.Keys;
    while rest != {}
      invariant rest <= m.Keys
      invariant |keys| == |r|
      invariant forall i :: 0 <= i < |keys| ==> keys[i] in m && keys[i] !in rest && r[i] == m[keys[i]]
      invariant forall i, j :: 0 <= i < j < |keys| ==> keys[i] != keys[j]
      invariant forall k :: k in m && k !in rest ==> k in keys
      decreases rest
    {
      var k :| k in rest;
      r, keys := r + [m[k]], keys + [k];
      rest := rest - {k};
    }
    EnumerationLists(r, keys, m);
  }
}
