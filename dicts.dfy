/**
 * A JSON object as the tracker sees it after parsing: a Python `dict`, which keeps its
 * keys in insertion order. It is written as a sequence of key/value pairs; a parsed
 * object never repeats a key (`DistinctKeys`), and `Put` keeps it that way.
 */
module Dicts {
  import opened Wrappers

  type Dict<V> = seq<(string, V)>

  /** The keys in order, as `d.keys()` iterates them. */
  function Keys<V>(d: Dict<V>): (ks: seq<string>)
    ensures |ks| == |d|
    ensures forall i :: 0 <= i < |d| ==> ks[i] == d[i].0
  {
    seq(|d|, i requires 0 <= i < |d| => d[i].0)
  }

  /** The keys as a set, as `set(d.keys())`. */
  function KeySet<V>(d: Dict<V>): (s: set<string>)
    ensures forall k :: k in s <==> exists i :: 0 <= i < |d| && d[i].0 == k
  {
    set i | 0 <= i < |d| :: d[i].0
  }

  /** No key occurs twice. */
  predicate DistinctKeys<V>(d: Dict<V>)
  {
    forall i, j :: 0 <= i < j < |d| ==> d[i].0 != d[j].0
  }

  /** The position of key `k`, if it is present (its first position). */
  function IndexOf<V>(d: Dict<V>, k: string): (r: Option<nat>)
    ensures r.Some? ==> r.value < |d| && d[r.value].0 == k
    ensures r.Some? ==> forall j :: 0 <= j < r.value ==> d[j].0 != k
    ensures r.None? <==> k !in KeySet(d)
  {
    if d == [] then None
    else if d[0].0 == k then Some(0)
    else match IndexOf(d[1..], k)
      case None => None
      case Some(i) => Some(i + 1)
  }

  /** `d.get(k)`: the value stored under `k`, or `None`. */
  function Get<V>(d: Dict<V>, k: string): (r: Option<V>)
    ensures r.Some? <==> k in KeySet(d)
    ensures DistinctKeys(d) ==> forall i :: 0 <= i < |d| && d[i].0 == k ==> r == Some(d[i].1)
  {
    match IndexOf(d, k)
    case Some(i) => Some(d[i].1)
    case None => None
  }

  /** `d[k] = v`: overwrite in place when `k` is present, otherwise append at the end. */
  function Put<V>(d: Dict<V>, k: string, v: V): (r: Dict<V>)
    ensures Get(r, k) == Some(v)
    ensures forall k' :: k' != k ==> Get(r, k') == Get(d, k')
    ensures Keys(r) == if k in KeySet(d) then Keys(d) else Keys(d) + [k]
    ensures DistinctKeys(d) ==> DistinctKeys(r)
  {
    match IndexOf(d, k)
    case Some(i) =>
      var r := d[i := (k, v)];
      assert forall k' :: k' != k ==> IndexOf(r, k') == IndexOf(d, k') by {
        forall k' | k' != k ensures IndexOf(r, k') == IndexOf(d, k') {
          IndexOfUpdate(d, i, k, v, k');
        }
      }
      assert Keys(r) == Keys(d);
      r
    case None =>
      var r := d + [(k, v)];
      assert forall k' :: k' != k ==> IndexOf(r, k') == IndexOf(d, k') by {
        forall k' | k' != k ensures IndexOf(r, k') == IndexOf(d, k') {
          IndexOfAppend(d, k, v, k');
        }
      }
      IndexOfAppend(d, k, v, k);
      assert Keys(r) == Keys(d) + [k];
      r
  }

  /** Appending an entry adds exactly its key to the key set. */
  lemma KeySetAppend<V>(d: Dict<V>, k: string, v: V)
    ensures KeySet(d + [(k, v)]) == KeySet(d) + {k}
  {
    var e := d + [(k, v)];
    assert forall i :: 0 <= i < |d| ==> e[i] == d[i];
    assert e[|d|] == (k, v);
  }

  /** Appending an entry under a new key keeps the keys distinct. */
  lemma DistinctAppend<V>(d: Dict<V>, k: string, v: V)
    requires DistinctKeys(d) && k !in KeySet(d)
    ensures DistinctKeys(d + [(k, v)])
  {
    var e := d + [(k, v)];
    forall i, j | 0 <= i < j < |e| ensures e[i].0 != e[j].0 {
      assert e[i] == d[i];
      if j < |d| {
        assert e[j] == d[j];
      }
    }
  }

  /** Overwriting the value at a position whose key is `k` moves no other key. */
  lemma {:induction false} IndexOfUpdate<V>(d: Dict<V>, i: nat, k: string, v: V, k': string)
    requires i < |d| && d[i].0 == k && k' != k
    ensures IndexOf(d[i := (k, v)], k') == IndexOf(d, k')
  {
    if i > 0 {
      assert d[i := (k, v)][1..] == d[1..][i - 1 := (k, v)];
      IndexOfUpdate(d[1..], i - 1, k, v, k');
    }
  }

  /** Appending a pair with a new key leaves the positions of the other keys alone,
      and puts the new key last. */
  lemma {:induction false} IndexOfAppend<V>(d: Dict<V>, k: string, v: V, k': string)
    requires k !in KeySet(d)
    ensures k' != k ==> IndexOf(d + [(k, v)], k') == IndexOf(d, k')
    ensures IndexOf(d + [(k, v)], k) == Some(|d|)
  {
    if d != [] {
      assert (d + [(k, v)])[1..] == d[1..] + [(k, v)];
      IndexOfAppend(d[1..], k, v, k');
    }
  }

  /** The dictionary as a map from keys to values; two dictionaries are equal in Python
      (`==`) exactly when these maps are equal, whatever their key order. */
  function AsMap<V>(d: Dict<V>): (m: map<string, V>)
    ensures m.Keys == KeySet(d)
    ensures forall k :: k in m ==> Get(d, k) == Some(m[k])
  {
    map k | k in KeySet(d) :: Get(d, k).value
  }
}
