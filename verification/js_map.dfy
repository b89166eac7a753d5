/**
 * JavaScript's `Map`: a finite map that also remembers the order in which its
 * keys were first inserted, which is the order `for ... of` and
 * `Array.from(m.entries())` walk it in. Setting a key that is already present
 * keeps its position; deleting a key forgets it.
 */
module JsMap {

  datatype RawMap<K(==,!new), V> = RawMap(order: seq<K>, entries: map<K, V>)

  ghost predicate Distinct<K>(s: seq<K>) {
    forall i, j :: 0 <= i < j < |s| ==> s[i] != s[j]
  }

  /** The iteration order lists every key exactly once. */
  ghost predicate WellFormed<K(!new), V>(m: RawMap<K, V>) {
    && Distinct(m.order)
    && (forall k :: k in m.order <==> k in m.entries)
  }

  type OrderedMap<K(==,!new), V> = m: RawMap<K, V> | WellFormed(m) witness RawMap([], map[])

  /** `new Map()` */
  function Empty<K(==,!new), V>(): (m: OrderedMap<K, V>)
    ensures m.entries == map[]
    ensures Size(m) == 0
  {
    RawMap([], map[])
  }

  /** `m.size` */
  function Size<K(==,!new), V>(m: OrderedMap<K, V>): nat {
    |m.order|
  }

  /** `m.set(k, v)` */
  function Set<K(==,!new), V>(m: OrderedMap<K, V>, k: K, v: V): (r: OrderedMap<K, V>)
    ensures r.entries == m.entries[k := v]
    ensures k in m.entries ==> r.order == m.order
    ensures k !in m.entries ==> r.order == m.order + [k]
  {
    if k in m.entries then RawMap(m.order, m.entries[k := v])
    else RawMap(m.order + [k], m.entries[k := v])
  }

  /** `s` with every occurrence of `k` dropped, the rest in their order. */
  function Without<K(==,!new)>(s: seq<K>, k: K): (r: seq<K>)
    ensures forall x :: x in r <==> x in s && x != k
    ensures Distinct(s) ==> Distinct(r)
    ensures Distinct(s) && k in s ==> |r| == |s| - 1
    ensures k !in s ==> r == s
  {
    if |s| == 0 then []
    else if s[0] == k then Without(s[1..], k)
    else
      assert Distinct(s) ==> s[0] !in s[1..];
      [s[0]] + Without(s[1..], k)
  }

  /** In a list without repeats, dropping `k` closes the gap where it stood and keeps the rest in order. */
  lemma WithoutKeepsOrder<K(!new)>(s: seq<K>, k: K)
    requires Distinct(s)
    ensures forall p :: 0 <= p < |s| && s[p] == k ==> Without(s, k) == s[..p] + s[p + 1..]
  {
    forall p | 0 <= p < |s| && s[p] == k
      ensures Without(s, k) == s[..p] + s[p + 1..]
    {
      WithoutAt(s, p);
    }
  }

  lemma {:induction false} WithoutAt<K(!new)>(s: seq<K>, p: nat)
    requires Distinct(s) && p < |s|
    ensures Without(s, s[p]) == s[..p] + s[p + 1..]
    decreases |s|
  {
    if p == 0 {
      assert s[0] !in s[1..];
      assert s[..0] + s[1..] == s[1..];
    } else {
      var k := s[p];
      var t := s[1..];
      assert s[0] != k;
      assert Without(s, k) == [s[0]] + Without(t, k);
      assert Distinct(t);
      assert t[p - 1] == k;
      WithoutAt(t, p - 1);
      assert t[..p - 1] == s[1..p] && t[p..] == s[p + 1..];
      assert s[..p] == [s[0]] + s[1..p];
    }
  }

  /** `m.delete(k)` */
  function Delete<K(==,!new), V>(m: OrderedMap<K, V>, k: K): (r: OrderedMap<K, V>)
    ensures r.entries == m.entries - {k}
    ensures k in m.entries ==> Size(r) == Size(m) - 1
    ensures k !in m.entries ==> r == m
    ensures forall p :: 0 <= p < |m.order| && m.order[p] == k ==> r.order == m.order[..p] + m.order[p + 1..]
  {
    var order := Without(m.order, k);
    var entries := m.entries - {k};
    assert forall x :: x in order <==> x in entries;
    WithoutKeepsOrder(m.order, k);
    RawMap(order, entries)
  }

  lemma {:induction false} DistinctCardinality<K(!new)>(s: seq<K>)
    requires Distinct(s)
    ensures |set x | x in s| == |s|
  {
    if |s| > 0 {
      var t := s[..|s| - 1];
      var last := s[|s| - 1];
      assert Distinct(t);
      DistinctCardinality(t);
      assert s == t + [last];
      assert (set x | x in s) == (set x | x in t) + {last};
    }
  }

  /** `m.size` counts the keys present: the iteration order holds no stale or repeated key. */
  lemma SizeIsKeyCount<K(!new), V>(m: OrderedMap<K, V>)
    ensures Size(m) == |m.entries|
  {
    DistinctCardinality(m.order);
    assert m.entries.Keys == set x | x in m.order;
  }
}
