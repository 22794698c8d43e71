/**
 * `HashMap::from_iter` over a sequence of (key, value) pairs: each pair is inserted
 * in turn, so every key of the sequence is present and a repeated key keeps the value
 * of its last pair.
 */
module Collect {

  /** `pairs[i]` is the last pair of the sequence whose key is `k`. */
  predicate IsLastWithKey<K(==), V>(pairs: seq<(K, V)>, i: int, k: K) {
    0 <= i < |pairs| && pairs[i].0 == k && forall j :: i < j < |pairs| ==> pairs[j].0 != k
  }

  /** `m` holds exactly the keys of `pairs`, each with the value of its last pair. */
  ghost predicate Collected<K(!new), V>(pairs: seq<(K, V)>, m: map<K, V>) {
    && (forall k :: k in m <==> exists i :: 0 <= i < |pairs| && pairs[i].0 == k)
    && (forall k :: k in m ==> exists i :: IsLastWithKey(pairs, i, k) && m[k] == pairs[i].1)
  }

  function Collect<K(==, !new), V>(pairs: seq<(K, V)>): (m: map<K, V>)
    ensures forall k :: k in m <==> exists i :: 0 <= i < |pairs| && pairs[i].0 == k
    ensures forall k :: k in m ==> exists i :: IsLastWithKey(pairs, i, k) && m[k] == pairs[i].1
  {
    if pairs == [] then map[]
    else
      var last := pairs[|pairs| - 1];
      var m := Collect(pairs[..|pairs| - 1]);
      CollectStep(pairs, m);
      m[last.0 := last.1]
  }

  /** Inserting the last pair into the map of the others gives the map of all of them. */
  lemma CollectStep<K(!new), V>(pairs: seq<(K, V)>, m: map<K, V>)
    requires pairs != []
    requires Collected(pairs[..|pairs| - 1], m)
    ensures Collected(pairs, m[pairs[|pairs| - 1].0 := pairs[|pairs| - 1].1])
  {
    var n := |pairs| - 1;
    var init := pairs[..n];
    var key := pairs[n].0;
    var m' := m[key := pairs[n].1];
    forall k | exists i :: 0 <= i < |pairs| && pairs[i].0 == k
      ensures k in m'
    {
      var i :| 0 <= i < |pairs| && pairs[i].0 == k;
      if i < n {
        assert init[i].0 == k;
      }
    }
    forall k | k in m'
      ensures exists i :: 0 <= i < |pairs| && pairs[i].0 == k
    {
      if k == key {
        assert pairs[n].0 == k;
      } else {
        var i :| 0 <= i < n && init[i].0 == k;
        assert pairs[i].0 == k;
      }
    }
    forall k | k in m'
      ensures exists i :: IsLastWithKey(pairs, i, k) && m'[k] == pairs[i].1
    {
      if k == key {
        assert IsLastWithKey(pairs, n, k);
      } else {
        var i :| IsLastWithKey(init, i, k) && m[k] == init[i].1;
        assert IsLastWithKey(pairs, i, k);
      }
    }
  }

  /** Inserting one more pair: the later value wins for its key. */
  lemma CollectSnoc<K(!new), V>(pairs: seq<(K, V)>, k: K, v: V)
    ensures Collect(pairs + [(k, v)]) == Collect(pairs)[k := v]
  {
    assert (pairs + [(k, v)])[..|pairs|] == pairs;
  }
}
