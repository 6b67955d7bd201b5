/**
 * The abstract value of a JavaScript `Map` (or of a plain record used as a
 * dictionary): its entries in insertion order. Setting an existing key keeps
 * its position; a new key is appended; deleting removes that one entry.
 */
module OrderedMap {
  import opened Common

  ghost predicate DistinctKeys<K, V>(es: seq<(K, V)>)
  {
    forall i, j :: 0 <= i < j < |es| ==> es[i].0 != es[j].0
  }

  function Keys<K, V>(es: seq<(K, V)>): (r: seq<K>)
    ensures |r| == |es|
    ensures forall i :: 0 <= i < |es| ==> r[i] == es[i].0
  {
    seq(|es|, i requires 0 <= i < |es| => es[i].0)
  }

  function Values<K, V>(es: seq<(K, V)>): (r: seq<V>)
    ensures |r| == |es|
    ensures forall i :: 0 <= i < |es| ==> r[i] == es[i].1
  {
    seq(|es|, i requires 0 <= i < |es| => es[i].1)
  }

  /** The position of the entry for `k`. */
  function Find<K(==), V>(es: seq<(K, V)>, k: K): (r: Option<nat>)
    ensures r.Some? ==> r.value < |es| && es[r.value].0 == k
    ensures r.Some? ==> forall i :: 0 <= i < r.value ==> es[i].0 != k
    ensures r.None? <==> forall i :: 0 <= i < |es| ==> es[i].0 != k
  {
    if |es| == 0 then None
    else if es[0].0 == k then Some(0)
    else match Find(es[1..], k)
      case None => None
      case Some(i) => Some(i + 1)
  }

  predicate Has<K(==), V>(es: seq<(K, V)>, k: K)
  {
    Find(es, k).Some?
  }

  /** `map.get(k)`. */
  function Get<K(==), V>(es: seq<(K, V)>, k: K): (r: Option<V>)
    ensures r.Some? <==> Has(es, k)
  {
    match Find(es, k)
    case None => None
    case Some(i) => Some(es[i].1)
  }

  /** `map.set(k, v)`. */
  function Put<K(==), V>(es: seq<(K, V)>, k: K, v: V): (r: seq<(K, V)>)
  {
    match Find(es, k)
    case None => es + [(k, v)]
    case Some(i) => es[i := (k, v)]
  }

  /** `map.delete(k)`. */
  function Remove<K(==), V>(es: seq<(K, V)>, k: K): (r: seq<(K, V)>)
  {
    match Find(es, k)
    case None => es
    case Some(i) => es[..i] + es[i + 1..]
  }

  /** The first entry carrying `k` is the one `Find` reports. */
  lemma FindIs<K, V>(es: seq<(K, V)>, k: K, j: nat)
    requires j < |es| && es[j].0 == k
    requires forall i :: 0 <= i < j ==> es[i].0 != k
    ensures Find(es, k) == Some(j)
  {
  }

  lemma DistinctFind<K, V>(es: seq<(K, V)>, j: nat)
    requires DistinctKeys(es) && j < |es|
    ensures Find(es, es[j].0) == Some(j)
  {
  }

  /** After `set`, the key reads back the new value and every other key reads as before. */
  lemma PutGet<K, V>(es: seq<(K, V)>, k: K, v: V, other: K)
    ensures Get(Put(es, k, v), k) == Some(v)
    ensures other != k ==> Get(Put(es, k, v), other) == Get(es, other)
  {
    var r := Put(es, k, v);
    match Find(es, k)
    case None =>
      assert r[|es|] == (k, v);
      FindIs(r, k, |es|);
      if other != k {
        match Find(es, other)
        case None =>
          assert forall i :: 0 <= i < |r| ==> r[i].0 != other;
        case Some(j) =>
          FindIs(r, other, j);
      }
    case Some(i) =>
      FindIs(r, k, i);
      if other != k {
        match Find(es, other)
        case None =>
          assert forall t :: 0 <= t < |r| ==> r[t].0 != other;
        case Some(j) =>
          FindIs(r, other, j);
      }
  }

  /** `set` keeps the key order of existing entries and appends a new key last. */
  lemma PutKeys<K, V>(es: seq<(K, V)>, k: K, v: V)
    ensures Keys(Put(es, k, v)) == if Has(es, k) then Keys(es) else Keys(es) + [k]
    ensures DistinctKeys(es) ==> DistinctKeys(Put(es, k, v))
  {
  }

  /** After `delete`, the key is gone and every other key reads as before. */
  lemma RemoveGet<K, V>(es: seq<(K, V)>, k: K, other: K)
    requires DistinctKeys(es)
    ensures !Has(Remove(es, k), k)
    ensures other != k ==> Get(Remove(es, k), other) == Get(es, other)
    ensures DistinctKeys(Remove(es, k))
    ensures |Remove(es, k)| == if Has(es, k) then |es| - 1 else |es|
  {
    match Find(es, k)
    case None =>
    case Some(i) =>
      RemoveAt(es, k, i);
      if other != k {
        RemoveOther(es, k, i, other);
      }
  }

  /** Deleting the entry at `i` shifts the later entries down by one. */
  lemma RemoveAt<K, V>(es: seq<(K, V)>, k: K, i: nat)
    requires DistinctKeys(es) && Find(es, k) == Some(i)
    ensures Remove(es, k) == es[..i] + es[i + 1..]
    ensures |Remove(es, k)| == |es| - 1
    ensures forall t :: 0 <= t < |Remove(es, k)| ==> Remove(es, k)[t] == if t < i then es[t] else es[t + 1]
    ensures forall t :: 0 <= t < |Remove(es, k)| ==> Remove(es, k)[t].0 != k
    ensures DistinctKeys(Remove(es, k))
  {
  }

  lemma RemoveOther<K, V>(es: seq<(K, V)>, k: K, i: nat, other: K)
    requires DistinctKeys(es) && Find(es, k) == Some(i) && other != k
    ensures Get(Remove(es, k), other) == Get(es, other)
  {
    RemoveAt(es, k, i);
    var r := Remove(es, k);
    match Find(es, other)
    case None =>
      assert forall t :: 0 <= t < |r| ==> r[t].0 != other;
    case Some(j) =>
      FindIs(r, other, if j < i then j else j - 1);
  }

  /** The keys after `delete` are the old keys with that one removed, in their old order. */
  lemma RemoveKeys<K, V>(es: seq<(K, V)>, k: K)
    ensures Find(es, k).Some? ==>
      Keys(Remove(es, k)) == Keys(es)[..Find(es, k).value] + Keys(es)[Find(es, k).value + 1..]
    ensures Find(es, k).None? ==> Remove(es, k) == es
  {
  }
}
