/**
 * Insertion-ordered dictionaries. A .NET `Dictionary` that is only ever added to enumerates its
 * entries in insertion order, and the source depends on that order (column order in the CSV
 * header, the order channels are saved in). Such a dictionary is modelled as a sequence of
 * key/value pairs whose keys are pairwise distinct. Every dictionary
 * of the source is keyed by strings.
 */
module Assoc {
  import opened Wrappers

  type Assoc<V> = seq<(string, V)>

  /** The keys in enumeration order. */
  function Keys<V>(a: Assoc<V>): (ks: seq<string>)
    ensures |ks| == |a|
    ensures forall i :: 0 <= i < |a| ==> ks[i] == a[i].0
  {
    seq(|a|, i requires 0 <= i < |a| => a[i].0)
  }

  /** The values in enumeration order. */
  function Values<V>(a: Assoc<V>): (vs: seq<V>)
    ensures |vs| == |a|
    ensures forall i :: 0 <= i < |a| ==> vs[i] == a[i].1
  {
    seq(|a|, i requires 0 <= i < |a| => a[i].1)
  }

  /** No key occurs twice, as in every .NET dictionary. */
  ghost predicate DistinctKeys<V>(a: Assoc<V>) {
    forall i, j :: 0 <= i < j < |a| ==> a[i].0 != a[j].0
  }

  /** The value of the first entry with key `k` (the only one when keys are distinct). */
  function Lookup<V>(a: Assoc<V>, k: string): (r: Option<V>)
    ensures r.None? <==> k !in Keys(a)
    ensures r.Some? ==> exists i :: 0 <= i < |a| && a[i] == (k, r.value)
  {
    if a == [] then None
    else if a[0].0 == k then Some(a[0].1)
    else
      var r := Lookup(a[1..], k);
      assert Keys(a) == [a[0].0] + Keys(a[1..]);
      if r.Some? then
        ghost var i :| 0 <= i < |a[1..]| && a[1..][i] == (k, r.value);
        assert a[i + 1] == (k, r.value);
        r
      else r
  }

  /** The position of key `k`, which must be present. */
  function IndexOf<V>(a: Assoc<V>, k: string): (i: nat)
    requires k in Keys(a)
    ensures i < |a| && a[i].0 == k
    ensures forall j :: 0 <= j < i ==> a[j].0 != k
  {
    if a[0].0 == k then 0
    else
      assert Keys(a) == [a[0].0] + Keys(a[1..]);
      1 + IndexOf(a[1..], k)
  }

  /**
   * `dict[k] = v`: replaces the value of an existing key in place (its position is kept),
   * and appends a new key at the end.
   */
  function Put<V>(a: Assoc<V>, k: string, v: V): (r: Assoc<V>)
    ensures k in Keys(a) ==> |r| == |a| && Keys(r) == Keys(a)
    ensures k !in Keys(a) ==> r == a + [(k, v)]
    ensures Lookup(r, k) == Some(v)
    ensures forall k' :: k' != k ==> Lookup(r, k') == Lookup(a, k')
  {
    if k in Keys(a) then
      var i := IndexOf(a, k);
      var r := a[i := (k, v)];
      assert Keys(r) == Keys(a);
      LookupUpdate(a, i, k, v);
      r
    else
      LookupAppend(a, k, v);
      a + [(k, v)]
  }

  lemma {:induction false} LookupUpdate<V>(a: Assoc<V>, i: nat, k: string, v: V)
    requires i < |a| && a[i].0 == k
    requires forall j :: 0 <= j < i ==> a[j].0 != k
    ensures Lookup(a[i := (k, v)], k) == Some(v)
    ensures forall k' :: k' != k ==> Lookup(a[i := (k, v)], k') == Lookup(a, k')
  {
    if i > 0 {
      LookupUpdate(a[1..], i - 1, k, v);
      assert a[i := (k, v)][1..] == a[1..][i - 1 := (k, v)];
    }
    forall k' | k' != k ensures Lookup(a[i := (k, v)], k') == Lookup(a, k') {
      if i == 0 {
        assert a[i := (k, v)][1..] == a[1..];
      }
    }
  }

  lemma {:induction false} LookupAppend<V>(a: Assoc<V>, k: string, v: V)
    requires k !in Keys(a)
    ensures Lookup(a + [(k, v)], k) == Some(v)
    ensures forall k' :: k' != k ==> Lookup(a + [(k, v)], k') == Lookup(a, k')
  {
    if a != [] {
      assert (a + [(k, v)])[1..] == a[1..] + [(k, v)];
      assert Keys(a) == [a[0].0] + Keys(a[1..]);
      LookupAppend(a[1..], k, v);
    } else {
      assert (a + [(k, v)])[1..] == [];
    }
  }

  /** Adding to or replacing in a dictionary keeps its keys distinct. */
  lemma PutKeepsKeysDistinct<V>(a: Assoc<V>, k: string, v: V)
    requires DistinctKeys(a)
    ensures DistinctKeys(Put(a, k, v))
  {
    var r := Put(a, k, v);
    if k in Keys(a) {
      forall i, j | 0 <= i < j < |r| ensures r[i].0 != r[j].0 {
        assert Keys(r)[i] == Keys(a)[i] && Keys(r)[j] == Keys(a)[j];
      }
    } else {
      forall i, j | 0 <= i < j < |r| ensures r[i].0 != r[j].0 {
        if j == |a| {
          assert Keys(a)[i] == a[i].0;
        }
      }
    }
  }

  lemma SameKeysDistinct<V, W>(a: Assoc<V>, b: Assoc<W>)
    requires Keys(a) == Keys(b) && DistinctKeys(a)
    ensures DistinctKeys(b)
  {
    forall i, j | 0 <= i < j < |b| ensures b[i].0 != b[j].0 {
      assert Keys(b)[i] == a[i].0 && Keys(b)[j] == a[j].0;
    }
  }
}
