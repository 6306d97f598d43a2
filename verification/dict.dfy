/**
 A model of a Python `dict` as the game server uses it: a finite map together with
 the order in which its keys were first inserted. Assigning to a key that is already
 present keeps that key's position; assigning to a new key appends it; deleting a key
 leaves the remaining keys in their relative order. `values()` iterates in that order.
 */
module PyDict {

  datatype Dict<K, V> = Dict(order: seq<K>, entries: map<K, V>)

  /* No element occurs twice in s. */
  ghost predicate Distinct<K(!new)>(s: seq<K>) {
    forall i, j :: 0 <= i < j < |s| ==> s[i] != s[j]
  }

  /* The insertion order lists every key of the dict exactly once. */
  ghost predicate Valid<K(!new), V>(d: Dict<K, V>) {
    && Distinct(d.order)
    && (forall k :: k in d.order <==> k in d.entries)
  }

  function Empty<K(==,!new), V>(): (d: Dict<K, V>)
    ensures Valid(d)
    ensures d.entries == map[] && d.order == []
  {
    Dict([], map[])
  }

  /* `len(d)` */
  function Len<K(==,!new), V>(d: Dict<K, V>): nat {
    |d.order|
  }

  /* `d[k] = v` */
  function Put<K(==,!new), V>(d: Dict<K, V>, k: K, v: V): (r: Dict<K, V>)
    ensures r.entries.Keys == d.entries.Keys + {k}
    ensures r.entries[k] == v
    ensures forall x :: x in d.entries && x != k ==> r.entries[x] == d.entries[x]
    ensures Valid(d) && k in d.entries ==> r.order == d.order
    ensures Valid(d) && k !in d.entries ==> r.order == d.order + [k]
    ensures Valid(d) ==> Valid(r)
  {
    if k in d.entries then Dict(d.order, d.entries[k := v])
    else Dict(d.order + [k], d.entries[k := v])
  }

  /* `del d[k]`, taken as a no-op when k is absent */
  function Remove<K(==,!new), V>(d: Dict<K, V>, k: K): (r: Dict<K, V>)
    ensures r.entries.Keys == d.entries.Keys - {k}
    ensures forall x :: x in r.entries ==> r.entries[x] == d.entries[x]
    ensures Valid(d) && k !in d.entries ==> r == d
    ensures Valid(d) ==> Valid(r)
  {
    Dict(Without(d.order, k), d.entries - {k})
  }

  /* s with every occurrence of k dropped */
  function Without<K(==,!new)>(s: seq<K>, k: K): (r: seq<K>)
    ensures forall x :: x in r <==> x in s && x != k
    ensures Distinct(s) ==> Distinct(r)
    ensures k !in s ==> r == s
  {
    if s == [] then []
    else if s[0] == k then Without(s[1..], k)
    else
      var rest := Without(s[1..], k);
      assert s[0] !in s[1..] ==> s[0] !in rest;
      [s[0]] + rest
  }

  /* Deleting a key cuts it out of the insertion order and leaves the other keys in
     their relative order. */
  lemma {:induction false} WithoutCutsOut<K(!new)>(s: seq<K>, k: K, i: nat)
    requires Distinct(s)
    requires i < |s| && s[i] == k
    ensures Without(s, k) == s[..i] + s[i + 1..]
  {
    if i == 0 {
      assert k !in s[1..];
    } else {
      assert s[0] != k;
      assert Distinct(s[1..]);
      WithoutCutsOut(s[1..], k, i - 1);
      assert s[1..][..i - 1] == s[1..i];
      assert s[1..][i..] == s[i + 1..];
      assert [s[0]] + s[1..i] == s[..i];
    }
  }

  /* The values of `entries` at the listed keys, in the listed order; keys without an
     entry are skipped. */
  function ValuesOf<K(==,!new), V>(order: seq<K>, entries: map<K, V>): (vs: seq<V>)
    ensures |vs| <= |order|
    ensures (forall k :: k in order ==> k in entries) ==>
              && |vs| == |order|
              && (forall i :: 0 <= i < |order| ==> vs[i] == entries[order[i]])
  {
    if order == [] then []
    else
      var rest := ValuesOf(order[1..], entries);
      if order[0] in entries then [entries[order[0]]] + rest else rest
  }

  /* `list(d.values())` */
  function Values<K(==,!new), V>(d: Dict<K, V>): (vs: seq<V>)
    ensures Valid(d) ==> |vs| == Len(d)
    ensures Valid(d) ==> forall i :: 0 <= i < |vs| ==> vs[i] == d.entries[d.order[i]]
  {
    ValuesOf(d.order, d.entries)
  }

  /* The set of elements of a sequence without repetitions has as many members as
     the sequence has positions. */
  lemma {:induction false} DistinctCardinality<K(!new)>(s: seq<K>)
    requires Distinct(s)
    ensures |set x | x in s| == |s|
  {
    if s != [] {
      assert Distinct(s[1..]);
      DistinctCardinality(s[1..]);
      assert (set x | x in s) == {s[0]} + (set x | x in s[1..]);
      assert s[0] !in (set x | x in s[1..]);
    }
  }

  /* `len(d)` counts the entries: the insertion order has one position per key. */
  lemma LenCountsEntries<K(!new), V>(d: Dict<K, V>)
    requires Valid(d)
    ensures Len(d) == |d.entries|
  {
    assert d.entries.Keys == set x | x in d.order;
    DistinctCardinality(d.order);
  }
}
