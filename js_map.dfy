/**
 * A JavaScript `Map`: entries in insertion order, keys compared with `===`
 * (strings by value, objects by reference). `set` on a present key replaces the
 * value where the entry stands; on a new key it appends.
 */
module JsMap {
  import opened Wrappers

  type Map<K, V> = seq<(K, V)>

  function Keys<K, V>(m: Map<K, V>): (ks: seq<K>)
    ensures |ks| == |m| && forall i :: 0 <= i < |m| ==> ks[i] == m[i].0
  {
    if m == [] then [] else [m[0].0] + Keys(m[1..])
  }

  /** No key occurs twice, as in every `Map`. */
  predicate KeysUnique<K(==), V>(m: Map<K, V>) {
    forall i, j :: 0 <= i < j < |m| ==> m[i].0 != m[j].0
  }

  /** `map.get(k)`; `None` is `undefined`. */
  function Get<K(==), V>(m: Map<K, V>, k: K): Option<V> {
    if m == [] then None else if m[0].0 == k then Some(m[0].1) else Get(m[1..], k)
  }

  /** `map.set(k, v)`: afterwards k has the entry (k, v), and the map grew by one entry only if k was new. */
  function Set<K(==), V>(m: Map<K, V>, k: K, v: V): (r: Map<K, V>)
    ensures (k, v) in r
    ensures |r| == if k in Keys(m) then |m| else |m| + 1
  {
    if m == [] then [(k, v)]
    else if m[0].0 == k then [(k, v)] + m[1..]
    else [m[0]] + Set(m[1..], k, v)
  }

  lemma {:induction false} GetIsPresent<K, V>(m: Map<K, V>, k: K)
    ensures Get(m, k).Some? <==> k in Keys(m)
  {
    if m != [] {
      GetIsPresent(m[1..], k);
      assert Keys(m) == [m[0].0] + Keys(m[1..]);
    }
  }

  /** After `set(k, v)`, `get(k)` is v. */
  lemma {:induction false} SetThenGet<K, V>(m: Map<K, V>, k: K, v: V)
    ensures Get(Set(m, k, v), k) == Some(v)
  {
    if m != [] && m[0].0 != k {
      SetThenGet(m[1..], k, v);
    }
  }

  /** `set(k, v)` leaves every other key's entry as it was. */
  lemma {:induction false} SetKeepsOthers<K, V>(m: Map<K, V>, k: K, v: V, other: K)
    requires other != k
    ensures Get(Set(m, k, v), other) == Get(m, other)
  {
    if m != [] && m[0].0 != k {
      SetKeepsOthers(m[1..], k, v, other);
    }
  }

  /** On a present key `set` keeps the key order; on a new key it appends the entry. */
  lemma {:induction false} SetOrder<K, V>(m: Map<K, V>, k: K, v: V)
    ensures k in Keys(m) ==> Keys(Set(m, k, v)) == Keys(m)
    ensures k !in Keys(m) ==> Set(m, k, v) == m + [(k, v)]
  {
    if m != [] {
      SetOrder(m[1..], k, v);
      assert Keys(m) == [m[0].0] + Keys(m[1..]);
      if m[0].0 != k {
        assert Keys(Set(m, k, v)) == [m[0].0] + Keys(Set(m[1..], k, v));
        assert m == [m[0]] + m[1..];
      }
    }
  }

  /** `set` keeps keys unique. */
  lemma SetKeepsKeysUnique<K, V>(m: Map<K, V>, k: K, v: V)
    requires KeysUnique(m)
    ensures KeysUnique(Set(m, k, v))
  {
    SetOrder(m, k, v);
    var r := Set(m, k, v);
    if k !in Keys(m) {
      forall i, j | 0 <= i < j < |r|
        ensures r[i].0 != r[j].0
      {
        if j == |m| {
          assert r[i].0 == Keys(m)[i];
        }
      }
    } else {
      assert Keys(r) == Keys(m);
      forall i, j | 0 <= i < j < |r|
        ensures r[i].0 != r[j].0
      {
        assert Keys(r)[i] == Keys(m)[i] && Keys(r)[j] == Keys(m)[j];
      }
    }
  }

  /** With unique keys, looking a key up from the end finds the same entry. */
  lemma {:induction false} GetSnoc<K, V>(m: Map<K, V>, k: K)
    requires m != [] && KeysUnique(m)
    ensures Get(m, k) == if m[|m| - 1].0 == k then Some(m[|m| - 1].1) else Get(m[..|m| - 1], k)
  {
    if |m| > 1 && m[0].0 != k {
      assert m[1..][..|m| - 2] == m[..|m| - 1][1..];
      GetSnoc(m[1..], k);
    } else if |m| > 1 {
      assert m[..|m| - 1][0] == m[0];
    }
  }
}
