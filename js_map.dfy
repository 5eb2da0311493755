/**
 * A JavaScript `Map`: key/value entries in insertion order, each key at most once.
 * `set` on a key already present replaces its value where it stands; `delete` removes the
 * entry; iteration (`entries()`) visits the entries in this order.
 */
module JsMap {
  import opened Wrappers

  datatype Entry<K, V> = Entry(key: K, value: V)

  /** A plain object with string-valued own properties, in insertion order. */
  type JsObject = seq<Entry<string, string>>

  ghost predicate DistinctKeys<K, V>(m: seq<Entry<K, V>>) {
    forall i, j :: 0 <= i < j < |m| ==> m[i].key != m[j].key
  }

  /** The index of the entry for `k`, if any. */
  function IndexOf<K(==), V>(m: seq<Entry<K, V>>, k: K): (r: Option<nat>)
    ensures r.Some? ==> r.value < |m| && m[r.value].key == k
    ensures r.Some? ==> forall j :: 0 <= j < r.value ==> m[j].key != k
    ensures r.None? ==> forall j :: 0 <= j < |m| ==> m[j].key != k
  {
    if |m| == 0 then None
    else if m[0].key == k then Some(0)
    else match IndexOf(m[1..], k)
      case None => None
      case Some(i) => Some(i + 1)
  }

  /** `map.get(k)`. */
  function Get<K(==), V>(m: seq<Entry<K, V>>, k: K): (r: Option<V>)
    ensures r.Some? <==> IndexOf(m, k).Some?
    ensures r.Some? ==> r.value == m[IndexOf(m, k).value].value
  {
    match IndexOf(m, k)
    case None => None
    case Some(i) => Some(m[i].value)
  }

  /** `map.set(k, v)`. */
  function Set<K(==), V>(m: seq<Entry<K, V>>, k: K, v: V): seq<Entry<K, V>> {
    match IndexOf(m, k)
    case None => m + [Entry(k, v)]
    case Some(i) => m[i := Entry(k, v)]
  }

  /** `map.delete(k)`. */
  function Delete<K(==), V>(m: seq<Entry<K, V>>, k: K): seq<Entry<K, V>> {
    match IndexOf(m, k)
    case None => m
    case Some(i) => m[..i] + m[i + 1..]
  }

  lemma GetSetSame<K, V>(m: seq<Entry<K, V>>, k: K, v: V)
    ensures Get(Set(m, k, v), k) == Some(v)
  {
    var m' := Set(m, k, v);
    match IndexOf(m, k)
    case None =>
      assert IndexOf(m', k).Some? by { assert m'[|m|].key == k; }
    case Some(i) =>
      assert m'[i].key == k;
  }

  lemma GetSetOther<K, V>(m: seq<Entry<K, V>>, k: K, v: V, k': K)
    requires k' != k
    ensures Get(Set(m, k, v), k') == Get(m, k')
  {
    var m' := Set(m, k, v);
    match IndexOf(m, k')
    case None =>
      assert forall j :: 0 <= j < |m'| ==> m'[j].key != k';
    case Some(i) =>
      assert m'[i] == m[i];
      assert forall j :: 0 <= j < i ==> m'[j].key != k';
      assert IndexOf(m', k') == Some(i);
  }

  lemma SetDistinct<K, V>(m: seq<Entry<K, V>>, k: K, v: V)
    requires DistinctKeys(m)
    ensures DistinctKeys(Set(m, k, v))
  {
  }

  lemma GetDeleteSame<K, V>(m: seq<Entry<K, V>>, k: K)
    requires DistinctKeys(m)
    ensures Get(Delete(m, k), k) == None
  {
    var m' := Delete(m, k);
    match IndexOf(m, k)
    case None =>
    case Some(i) =>
      forall j | 0 <= j < |m'| ensures m'[j].key != k {
        if j < i { assert m'[j] == m[j]; } else { assert m'[j] == m[j + 1]; }
      }
  }

  lemma GetDeleteOther<K, V>(m: seq<Entry<K, V>>, k: K, k': K)
    requires k' != k
    ensures Get(Delete(m, k), k') == Get(m, k')
  {
    var m' := Delete(m, k);
    match IndexOf(m, k)
    case None =>
    case Some(i) =>
      match IndexOf(m, k')
      case None =>
        forall j | 0 <= j < |m'| ensures m'[j].key != k' {
          if j < i { assert m'[j] == m[j]; } else { assert m'[j] == m[j + 1]; }
        }
      case Some(i') =>
        var n := if i' < i then i' else i' - 1;
        assert m'[n] == m[i'];
        forall j | 0 <= j < n ensures m'[j].key != k' {
          if j < i { assert m'[j] == m[j]; } else { assert m'[j] == m[j + 1]; }
        }
        assert IndexOf(m', k') == Some(n);
  }

  lemma DeleteDistinct<K, V>(m: seq<Entry<K, V>>, k: K)
    requires DistinctKeys(m)
    ensures DistinctKeys(Delete(m, k))
  {
    match IndexOf(m, k)
    case None =>
    case Some(i) =>
      var m' := Delete(m, k);
      forall a, b | 0 <= a < b < |m'| ensures m'[a].key != m'[b].key {
        var a' := if a < i then a else a + 1;
        var b' := if b < i then b else b + 1;
        assert m'[a] == m[a'] && m'[b] == m[b'];
      }
  }

  /** Deleting an absent key leaves the map as it was. */
  lemma DeleteAbsent<K, V>(m: seq<Entry<K, V>>, k: K)
    requires Get(m, k).None?
    ensures Delete(m, k) == m
  {
  }

  /** With distinct keys, what `get` answers is exactly which entries the map holds. */
  lemma GetMember<K, V>(m: seq<Entry<K, V>>, k: K, v: V)
    requires DistinctKeys(m)
    ensures Get(m, k) == Some(v) <==> Entry(k, v) in m
  {
    if Entry(k, v) in m {
      var i :| 0 <= i < |m| && m[i] == Entry(k, v);
      assert IndexOf(m, k) == Some(i);
    }
  }

  /** Two maps with distinct keys holding the same entries answer every `get` alike. */
  lemma GetSameEntries<K, V>(a: seq<Entry<K, V>>, b: seq<Entry<K, V>>, k: K)
    requires DistinctKeys(a) && DistinctKeys(b)
    requires forall e :: e in a <==> e in b
    ensures Get(a, k) == Get(b, k)
  {
    if Get(a, k).Some? {
      GetMember(a, k, Get(a, k).value);
      GetMember(b, k, Get(a, k).value);
    } else if Get(b, k).Some? {
      GetMember(a, k, Get(b, k).value);
      GetMember(b, k, Get(b, k).value);
    }
  }
}
