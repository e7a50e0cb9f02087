/** JavaScript `Map` objects as association lists: iteration order is insertion order,
    and `set` on an existing key replaces its value in place. */
module AssocMaps {
  import opened Wrappers

  /** The keys of `m` in iteration order. */
  function Keys<K, V>(m: seq<(K, V)>): (r: seq<K>)
    ensures |r| == |m|
    ensures forall i :: 0 <= i < |m| ==> r[i] == m[i].0
  {
    if m == [] then [] else [m[0].0] + Keys(m[1..])
  }

  /** `m.get(k)`: the value of the first entry with key `k`, or `undefined`. */
  function Get<K(==), V>(m: seq<(K, V)>, k: K): (r: Option<V>)
  {
    if m == [] then None
    else if m[0].0 == k then Some(m[0].1)
    else Get(m[1..], k)
  }

  /** `get` finds exactly the keys of the map, with a value stored under that key. */
  lemma {:induction false} GetIsKey<K, V>(m: seq<(K, V)>, k: K)
    ensures Get(m, k).Some? <==> k in Keys(m)
    ensures Get(m, k).Some? ==> (k, Get(m, k).value) in m
  {
    if m != [] {
      assert Keys(m) == [m[0].0] + Keys(m[1..]);
      GetIsKey(m[1..], k);
    }
  }

  /** `m.set(k, v)`: an existing key keeps its position and takes the new value; a new key
      is appended at the end. */
  function Set<K(==,!new), V>(m: seq<(K, V)>, k: K, v: V): (r: seq<(K, V)>)
    ensures Get(r, k) == Some(v)
    ensures forall k' :: k' != k ==> Get(r, k') == Get(m, k')
  {
    if m == [] then [(k, v)]
    else if m[0].0 == k then [(k, v)] + m[1..]
    else [m[0]] + Set(m[1..], k, v)
  }

  /** `set` keeps the key order: a new key goes last. */
  lemma {:induction false} SetKeys<K(!new), V>(m: seq<(K, V)>, k: K, v: V)
    ensures k in Keys(m) ==> Keys(Set(m, k, v)) == Keys(m)
    ensures k !in Keys(m) ==> Keys(Set(m, k, v)) == Keys(m) + [k]
  {
    if m != [] {
      SetKeys(m[1..], k, v);
      assert Keys(m) == [m[0].0] + Keys(m[1..]);
      var r := Set(m, k, v);
      assert Keys(r) == [r[0].0] + Keys(r[1..]);
    }
  }

  /** No key occurs twice, as in every JavaScript `Map`. */
  predicate UniqueKeys<K(==), V>(m: seq<(K, V)>)
  {
    forall i, j :: 0 <= i < j < |m| ==> m[i].0 != m[j].0
  }

  /** `set` keeps the keys of a map distinct. */
  lemma SetKeepsKeysUnique<K(!new), V>(m: seq<(K, V)>, k: K, v: V)
    requires UniqueKeys(m)
    ensures UniqueKeys(Set(m, k, v))
  {
    var r := Set(m, k, v);
    SetKeys(m, k, v);
    var km, kr := Keys(m), Keys(r);
    assert forall i :: 0 <= i < |r| ==> r[i].0 == kr[i];
    assert forall i, j :: 0 <= i < j < |km| ==> km[i] != km[j];
  }

  /** Looking a key up after appending an entry. */
  lemma {:induction false} GetSnoc<K, V>(m: seq<(K, V)>, k: K, v: V, k': K)
    ensures Get(m + [(k, v)], k') == if k' in Keys(m) then Get(m, k') else if k' == k then Some(v) else None
  {
    if m != [] {
      assert (m + [(k, v)])[1..] == m[1..] + [(k, v)];
      assert Keys(m) == [m[0].0] + Keys(m[1..]);
      GetSnoc(m[1..], k, v, k');
    }
  }

  /** The keys of a prefix are a prefix of the keys. */
  lemma KeysPrefix<K, V>(m: seq<(K, V)>, n: nat)
    requires n <= |m|
    ensures Keys(m[..n]) == Keys(m)[..n]
  {
  }

  /** `set` of a new key appends it. */
  lemma {:induction false} SetAbsentAppends<K(!new), V>(m: seq<(K, V)>, k: K, v: V)
    requires k !in Keys(m)
    ensures Set(m, k, v) == m + [(k, v)]
  {
    if m != [] {
      assert Keys(m) == [m[0].0] + Keys(m[1..]);
      SetAbsentAppends(m[1..], k, v);
    }
  }

  /** In a map without repeated keys, `get` of the key at position `i` finds its value. */
  lemma {:induction false} GetOfUniqueKey<K, V>(m: seq<(K, V)>, i: nat)
    requires i < |m| && UniqueKeys(m)
    ensures Get(m, m[i].0) == Some(m[i].1)
  {
    if i > 0 {
      GetOfUniqueKey(m[1..], i - 1);
    }
  }
}
