/**
 * A JavaScript Map: keys kept in insertion order, `set` on a present key
 * replacing its value in place, `delete` closing the gap. Modelled as a
 * sequence of pairs whose keys are distinct.
 */
module OrderedMaps {
  import opened Wrappers

  /** No element occurs twice: the order of a JavaScript Set, or of an object's keys. */
  predicate Distinct<T(==)>(s: seq<T>) {
    forall i, j :: 0 <= i < j < |s| ==> s[i] != s[j]
  }

  predicate KeysDistinct<K(==), V>(m: seq<(K, V)>) {
    forall i, j :: 0 <= i < j < |m| ==> m[i].0 != m[j].0
  }

  function Keys<K, V>(m: seq<(K, V)>): (ks: seq<K>)
    ensures |ks| == |m|
    ensures forall i :: 0 <= i < |m| ==> ks[i] == m[i].0
  {
    if m == [] then [] else [m[0].0] + Keys(m[1..])
  }

  /** The position of key `k`, or -1. */
  function IndexOfKey<K(==), V>(m: seq<(K, V)>, k: K): (i: int)
    ensures -1 <= i < |m|
    ensures i >= 0 ==> m[i].0 == k
    ensures i < 0 ==> forall j :: 0 <= j < |m| ==> m[j].0 != k
  {
    if m == [] then -1
    else if m[0].0 == k then 0
    else
      var j := IndexOfKey(m[1..], k);
      if j < 0 then -1 else j + 1
  }

  predicate HasKey<K(==), V>(m: seq<(K, V)>, k: K) {
    IndexOfKey(m, k) >= 0
  }

  /** Map.prototype.get; None stands for undefined. */
  function Get<K(==), V>(m: seq<(K, V)>, k: K): Option<V> {
    var i := IndexOfKey(m, k);
    if i < 0 then None else Some(m[i].1)
  }

  /** Map.prototype.set */
  function Put<K(==), V>(m: seq<(K, V)>, k: K, v: V): (r: seq<(K, V)>)
    ensures |r| == if HasKey(m, k) then |m| else |m| + 1
  {
    var i := IndexOfKey(m, k);
    if i >= 0 then m[i := (k, v)] else m + [(k, v)]
  }

  /** Map.prototype.delete */
  function Remove<K(==), V>(m: seq<(K, V)>, k: K): seq<(K, V)> {
    var i := IndexOfKey(m, k);
    if i >= 0 then m[..i] + m[i + 1..] else m
  }

  lemma {:induction false} IndexOfKeyUnique<K, V>(m: seq<(K, V)>, i: int)
    requires KeysDistinct(m) && 0 <= i < |m|
    ensures IndexOfKey(m, m[i].0) == i
  {
  }

  /** After `set(k, v)`, `get(k)` is v and every other key reads as before. */
  lemma {:induction false} PutGet<K, V>(m: seq<(K, V)>, k: K, v: V, k': K)
    requires KeysDistinct(m)
    ensures KeysDistinct(Put(m, k, v))
    ensures Get(Put(m, k, v), k) == Some(v)
    ensures k' != k ==> Get(Put(m, k, v), k') == Get(m, k')
  {
    var r := Put(m, k, v);
    var i := IndexOfKey(m, k);
    assert KeysDistinct(r);
    IndexOfKeyUnique(r, if i >= 0 then i else |m|);
    var j := IndexOfKey(m, k');
    if k' != k && j >= 0 {
      IndexOfKeyUnique(r, j);
    }
  }

  /** `set` keeps the key order: a present key keeps its place, a new key goes last. */
  lemma {:induction false} PutKeys<K, V>(m: seq<(K, V)>, k: K, v: V)
    ensures Keys(Put(m, k, v)) == if HasKey(m, k) then Keys(m) else Keys(m) + [k]
  {
  }

  /** `delete` on a present key closes the gap: the entries before it stay, the ones after move down by one. */
  lemma {:induction false} RemoveShifts<K, V>(m: seq<(K, V)>, k: K)
    requires HasKey(m, k)
    ensures var i := IndexOfKey(m, k);
      && |Remove(m, k)| == |m| - 1
      && (forall j :: 0 <= j < i ==> Remove(m, k)[j] == m[j])
      && (forall j :: i <= j < |m| - 1 ==> Remove(m, k)[j] == m[j + 1])
  {
  }

  lemma {:induction false} RemoveDistinct<K, V>(m: seq<(K, V)>, k: K)
    requires KeysDistinct(m) && HasKey(m, k)
    ensures KeysDistinct(Remove(m, k))
    ensures forall j :: 0 <= j < |Remove(m, k)| ==> Remove(m, k)[j].0 != k
  {
    var i := IndexOfKey(m, k);
    var r := Remove(m, k);
    RemoveShifts(m, k);
    forall a, b | 0 <= a < b < |r|
      ensures r[a].0 != r[b].0
    {
      assert r[a] == m[if a < i then a else a + 1];
      assert r[b] == m[if b < i then b else b + 1];
    }
    forall j | 0 <= j < |r|
      ensures r[j].0 != k
    {
      assert r[j] == m[if j < i then j else j + 1];
    }
  }

  lemma {:induction false} RemoveKeepsOthers<K, V>(m: seq<(K, V)>, k: K, k': K)
    requires KeysDistinct(m) && HasKey(m, k) && k' != k
    ensures Get(Remove(m, k), k') == Get(m, k')
  {
    var i := IndexOfKey(m, k);
    var r := Remove(m, k);
    RemoveShifts(m, k);
    RemoveDistinct(m, k);
    var j := IndexOfKey(m, k');
    if j >= 0 {
      assert r[if j < i then j else j - 1] == m[j];
      IndexOfKeyUnique(r, if j < i then j else j - 1);
    } else {
      forall x | 0 <= x < |r|
        ensures r[x].0 != k'
      {
        assert r[x] == m[if x < i then x else x + 1];
      }
    }
  }

  /** After `delete(k)`, `get(k)` is undefined, every other key reads as before, and the others keep their order. */
  lemma {:induction false} RemoveGet<K, V>(m: seq<(K, V)>, k: K, k': K)
    requires KeysDistinct(m)
    ensures KeysDistinct(Remove(m, k))
    ensures Get(Remove(m, k), k) == None
    ensures k' != k ==> Get(Remove(m, k), k') == Get(m, k')
    ensures HasKey(m, k) ==> Keys(Remove(m, k)) == Keys(m)[..IndexOfKey(m, k)] + Keys(m)[IndexOfKey(m, k) + 1..]
  {
    if HasKey(m, k) {
      RemoveShifts(m, k);
      RemoveDistinct(m, k);
      if k' != k {
        RemoveKeepsOthers(m, k, k');
      }
    }
  }
}
