/** Insertion-ordered dictionaries with the semantics of a Python `dict`.

    A dictionary is a sequence of key/value pairs; the order of the pairs is
    the order in which the keys were first inserted, which is the order in
    which the dashboard lists sectors, industries and sub-industries.
 */
module Dicts {

  datatype Option<+T> = None | Some(value: T)

  type Dict<K, V> = seq<(K, V)>

  /** The keys in insertion order (`list(d.keys())`). */
  function Keys<K, V>(m: Dict<K, V>): seq<K>
  {
    seq(|m|, i requires 0 <= i < |m| => m[i].0)
  }

  /** The keys of a dictionary with one pair in front. */
  lemma KeysCons<K, V>(p: (K, V), t: Dict<K, V>)
    ensures Keys([p] + t) == [p.0] + Keys(t)
  {
  }

  /** The keys of a non-empty dictionary: the first key, then the others. */
  lemma KeysFirst<K, V>(m: Dict<K, V>)
    requires m != []
    ensures Keys(m) == [m[0].0] + Keys(m[1..])
  {
    KeysCons(m[0], m[1..]);
    assert [m[0]] + m[1..] == m;
  }

  /** `k in d` */
  predicate HasKey<K(==), V>(m: Dict<K, V>, k: K)
  {
    k in Keys(m)
  }

  /** The representation invariant of a dictionary: no key occurs twice. */
  predicate DistinctKeys<K(==), V>(m: Dict<K, V>)
  {
    forall i, j :: 0 <= i < j < |m| ==> m[i].0 != m[j].0
  }

  /** `d.get(k)`: the value of the first pair with key `k`. */
  function Get<K(==), V>(m: Dict<K, V>, k: K): (r: Option<V>)
    ensures r.Some? <==> HasKey(m, k)
    ensures r.Some? ==> (k, r.value) in m
  {
    if m == [] then None
    else
      KeysFirst(m);
      if m[0].0 == k then Some(m[0].1)
      else Get(m[1..], k)
  }

  /** `d[k]` on a key the caller knows to be present. */
  function At<K(==), V>(m: Dict<K, V>, k: K): V
    requires HasKey(m, k)
  {
    Get(m, k).value
  }

  /** `d[k] = v`: a present key keeps its position, a new key goes last. */
  function Put<K(==), V>(m: Dict<K, V>, k: K, v: V): (r: Dict<K, V>)
    ensures Keys(r) == if HasKey(m, k) then Keys(m) else Keys(m) + [k]
    ensures !HasKey(m, k) ==> r == m + [(k, v)]
    ensures Get(r, k) == Some(v)
  {
    if m == [] then [(k, v)]
    else
      KeysFirst(m);
      if m[0].0 == k then
        KeysCons((k, v), m[1..]);
        [(k, v)] + m[1..]
      else
        var t := Put(m[1..], k, v);
        KeysCons(m[0], t);
        assert [m[0]] + (m[1..] + [(k, v)]) == m + [(k, v)];
        [m[0]] + t
  }

  /** `del d[k]`: every pair with key `k` goes, the others keep their order.
      Python raises `KeyError` when `k` is absent; `Del` is total and then
      returns `m` unchanged. Every call site tests `k in d` first. */
  function Del<K(==), V>(m: Dict<K, V>, k: K): (r: Dict<K, V>)
    ensures !HasKey(r, k)
    ensures !HasKey(m, k) ==> r == m
  {
    if m == [] then []
    else
      KeysFirst(m);
      var t := Del(m[1..], k);
      if m[0].0 == k then t
      else
        KeysCons(m[0], t);
        [m[0]] + t
  }

  /** Two dictionaries with the same keys in the same order that agree on every
      key except possibly `k`. */
  ghost predicate SameExcept<K(!new), V>(m0: Dict<K, V>, m1: Dict<K, V>, k: K)
  {
    Keys(m1) == Keys(m0) && forall j :: j != k ==> Get(m1, j) == Get(m0, j)
  }

  /** In a dictionary without repeated keys, `d[k]` is the value paired with `k`. */
  lemma {:induction false} AtIsPairedValue<K, V>(m: Dict<K, V>, i: nat)
    requires DistinctKeys(m) && i < |m|
    ensures HasKey(m, m[i].0) && At(m, m[i].0) == m[i].1
  {
    assert Keys(m)[i] == m[i].0;
    if i > 0 {
      assert m[1..][i - 1] == m[i];
      AtIsPairedValue(m[1..], i - 1);
    }
  }

  /** Every pair after `d[k] = v` is the new pair or was there before. */
  lemma {:induction false} PutPairs<K, V>(m: Dict<K, V>, k: K, v: V)
    ensures forall p :: p in Put(m, k, v) ==> p in m || p == (k, v)
  {
    if m != [] && m[0].0 != k {
      PutPairs(m[1..], k, v);
    }
  }

  /** `d[k] = v` keeps the keys of a dictionary distinct. */
  lemma PutKeepsDistinct<K, V>(m: Dict<K, V>, k: K, v: V)
    requires DistinctKeys(m)
    ensures DistinctKeys(Put(m, k, v))
  {
    var r := Put(m, k, v);
    if HasKey(m, k) {
      assert Keys(r) == Keys(m);
      forall i, j | 0 <= i < j < |r| ensures r[i].0 != r[j].0 {
        assert r[i].0 == Keys(r)[i] == Keys(m)[i] == m[i].0;
        assert r[j].0 == Keys(r)[j] == Keys(m)[j] == m[j].0;
      }
    } else {
      assert r == m + [(k, v)];
      forall i, j | 0 <= i < j < |r| ensures r[i].0 != r[j].0 {
        assert r[i] == m[i];
        if j == |m| {
          assert Keys(m)[i] == m[i].0;
        } else {
          assert r[j] == m[j];
        }
      }
    }
  }

  /** The pairs left by `del d[k]` are exactly the pairs of `d` whose key is not `k`. */
  lemma {:induction false} DelPairs<K, V>(m: Dict<K, V>, k: K)
    ensures forall p :: p in Del(m, k) ==> p in m && p.0 != k
    ensures forall p :: p in m && p.0 != k ==> p in Del(m, k)
  {
    if m != [] {
      DelPairs(m[1..], k);
      assert m == [m[0]] + m[1..];
    }
  }

  /** `del d[k]` keeps the keys of a dictionary distinct. */
  lemma {:induction false} DelKeepsDistinct<K, V>(m: Dict<K, V>, k: K)
    requires DistinctKeys(m)
    ensures DistinctKeys(Del(m, k))
  {
    if m != [] {
      DelKeepsDistinct(m[1..], k);
      DelPairs(m[1..], k);
      if m[0].0 != k {
        var t := Del(m[1..], k);
        forall j | 0 <= j < |t| ensures t[j].0 != m[0].0 {
          assert t[j] in t;
          var q :| 0 <= q < |m[1..]| && m[1..][q] == t[j];
          assert m[q + 1] == t[j];
        }
      }
    }
  }

  /** A dictionary without repeated keys stays so without its first pair. */
  lemma DistinctKeysTail<K, V>(m: Dict<K, V>)
    requires DistinctKeys(m) && m != []
    ensures DistinctKeys(m[1..])
    ensures !HasKey(m[1..], m[0].0)
  {
    var t := m[1..];
    forall i, j | 0 <= i < j < |t| ensures t[i].0 != t[j].0 {
      assert t[i] == m[i + 1] && t[j] == m[j + 1];
    }
    forall i | 0 <= i < |t| ensures Keys(t)[i] != m[0].0 {
      assert t[i] == m[i + 1];
    }
  }

  /** Deleting the key of the pair at position `i` removes that pair alone. */
  lemma {:induction false} DelAtIndex<K, V>(m: Dict<K, V>, i: nat)
    requires DistinctKeys(m) && i < |m|
    ensures Del(m, m[i].0) == m[..i] + m[i + 1..]
  {
    var k, t := m[i].0, m[1..];
    DistinctKeysTail(m);
    if i == 0 {
      assert Del(m, k) == Del(t, k);
      assert m[..0] + m[1..] == t;
    } else {
      assert t[i - 1] == m[i];
      DelAtIndex(t, i - 1);
      assert Del(m, k) == [m[0]] + Del(t, k);
      assert [m[0]] + (t[..i - 1] + t[i..]) == m[..i] + m[i + 1..];
    }
  }

  /** Deleting a present key removes exactly one pair and keeps the order of
      the others. */
  lemma DelRemovesOnePair<K, V>(m: Dict<K, V>, k: K)
    requires DistinctKeys(m) && HasKey(m, k)
    ensures |Del(m, k)| == |m| - 1
    ensures exists i :: 0 <= i < |m| && m[i].0 == k && Del(m, k) == m[..i] + m[i + 1..]
  {
    var i :| 0 <= i < |m| && Keys(m)[i] == k;
    DelAtIndex(m, i);
  }

  /** Writing to a key leaves every other key's value as it was. */
  lemma {:induction false} PutChangesOneKey<K(!new), V>(m: Dict<K, V>, k: K, v: V)
    ensures forall j :: j != k ==> Get(Put(m, k, v), j) == Get(m, j)
  {
    if m != [] {
      PutChangesOneKey(m[1..], k, v);
      var r := Put(m, k, v);
      assert r[0].0 == m[0].0 && r[1..] == if m[0].0 == k then m[1..] else Put(m[1..], k, v);
    }
  }

  /** Deleting a key leaves every other key's value as it was. */
  lemma {:induction false} DelChangesOneKey<K(!new), V>(m: Dict<K, V>, k: K)
    ensures forall j :: j != k ==> Get(Del(m, k), j) == Get(m, j)
  {
    if m != [] {
      DelChangesOneKey(m[1..], k);
      if m[0].0 != k {
        var r := Del(m, k);
        assert r[0] == m[0] && r[1..] == Del(m[1..], k);
      }
    }
  }
}
