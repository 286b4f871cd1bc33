/**
 * Python's `dict`: a map that remembers the order in which its keys were
 * first inserted. Assigning to a present key keeps its position.
 */
module OrderedMaps {
  import opened Wrappers

  datatype OrderedMap<K(==,!new), V> = OrderedMap(keys: seq<K>, m: map<K, V>) {

    /** The keys are distinct and are exactly the keys of the map. */
    ghost predicate Valid() {
      (forall i, j :: 0 <= i < j < |keys| ==> keys[i] != keys[j])
      && (forall k :: k in m <==> k in keys)
    }

    /** `d.get(k)`. */
    function Get(k: K): Option<V> {
      if k in m then Some(m[k]) else None
    }

    /** `d[k] = v`: a new key goes last, a present one keeps its place. */
    function Put(k: K, v: V): (r: OrderedMap<K, V>)
      requires Valid()
      ensures r.Valid()
    {
      OrderedMap(if k in m then keys else keys + [k], m[k := v])
    }

    /** `list(d.items())`. */
    function Items(): (items: seq<(K, V)>)
      requires Valid()
      ensures |items| == |keys|
      ensures forall i :: 0 <= i < |keys| ==> items[i] == (keys[i], m[keys[i]])
    {
      seq(|keys|, i requires 0 <= i < |keys| => (keys[i], m[keys[i]]))
    }
  }

  /** `{}`. */
  function Empty<K(==,!new), V>(): (r: OrderedMap<K, V>)
    ensures r.Valid() && r.keys == []
  {
    OrderedMap([], map[])
  }

  /** `dict(pairs)`: the pairs are put in order, so a later pair overrides an earlier one with the same key. */
  function FromPairs<K(==,!new), V>(pairs: seq<(K, V)>): (r: OrderedMap<K, V>)
    ensures r.Valid()
  {
    if pairs == [] then Empty()
    else FromPairs(pairs[..|pairs| - 1]).Put(pairs[|pairs| - 1].0, pairs[|pairs| - 1].1)
  }

  /** The pair at `i` is the last one with its key. */
  ghost predicate LastWithKey<K(!new), V>(pairs: seq<(K, V)>, i: nat) {
    i < |pairs| && forall j :: i < j < |pairs| ==> pairs[j].0 != pairs[i].0
  }

  /**
   * `dict(pairs)` holds a key exactly when some pair has it, and then the
   * value of the last such pair.
   */
  lemma {:induction false} FromPairsLastWins<K(!new), V>(pairs: seq<(K, V)>, k: K)
    ensures k in FromPairs(pairs).m <==> exists i :: 0 <= i < |pairs| && pairs[i].0 == k
    ensures k in FromPairs(pairs).m ==>
      exists i: nat :: LastWithKey(pairs, i) && pairs[i].0 == k && FromPairs(pairs).m[k] == pairs[i].1
  {
    if pairs != [] {
      var n := |pairs| - 1;
      var init := pairs[..n];
      FromPairsLastWins(init, k);
      if pairs[n].0 == k {
        assert LastWithKey(pairs, n);
      } else {
        if exists i :: 0 <= i < |init| && init[i].0 == k {
          var i :| 0 <= i < |init| && init[i].0 == k;
          assert pairs[i].0 == k;
        }
        if exists i :: 0 <= i < |pairs| && pairs[i].0 == k {
          var i :| 0 <= i < |pairs| && pairs[i].0 == k;
          assert init[i].0 == k;
        }
        if k in FromPairs(pairs).m {
          var i: nat :| LastWithKey(init, i) && init[i].0 == k && FromPairs(init).m[k] == init[i].1;
          LastWithKeyExtend(pairs, i);
          assert FromPairs(pairs).m[k] == FromPairs(init).m[k];
        }
      }
    }
  }

  /** A pair that is last with its key stays last when a pair with another key is added. */
  lemma LastWithKeyExtend<K(!new), V>(pairs: seq<(K, V)>, i: nat)
    requires pairs != [] && LastWithKey(pairs[..|pairs| - 1], i)
    requires pairs[|pairs| - 1].0 != pairs[i].0
    ensures LastWithKey(pairs, i)
  {
    var init := pairs[..|pairs| - 1];
    assert pairs[i] == init[i];
    forall j | i < j < |pairs| ensures pairs[j].0 != pairs[i].0 {
      if j < |pairs| - 1 {
        assert pairs[j] == init[j];
      }
    }
  }

  /** Some pair has key `x` before any pair has key `y`. */
  ghost predicate AppearsBefore<K(!new), V>(pairs: seq<(K, V)>, x: K, y: K) {
    exists i :: 0 <= i < |pairs| && pairs[i].0 == x && NotUpTo(pairs, y, i)
  }

  /** No pair at or before `i` has key `y`. */
  ghost predicate NotUpTo<K, V>(pairs: seq<(K, V)>, y: K, i: int) {
    forall j :: 0 <= j <= i && j < |pairs| ==> pairs[j].0 != y
  }

  /** The keys of `dict(pairs)` come in the order of their first appearance among the pairs. */
  lemma {:induction false} FromPairsKeyOrder<K(!new), V>(pairs: seq<(K, V)>, a: nat, b: nat)
    requires a < b < |FromPairs(pairs).keys|
    ensures AppearsBefore(pairs, FromPairs(pairs).keys[a], FromPairs(pairs).keys[b])
  {
    assert pairs != [];
    var n := |pairs| - 1;
    var init := pairs[..n];
    var prev := FromPairs(init);
    var r := FromPairs(pairs);
    var x, y := r.keys[a], r.keys[b];
    if b < |prev.keys| {
      assert prev.keys[a] == x && prev.keys[b] == y;
      FromPairsKeyOrder(init, a, b);
      var i :| 0 <= i < |init| && init[i].0 == x && NotUpTo(init, y, i);
      assert pairs[i].0 == x;
      NotUpToExtend(pairs, y, i);
    } else {
      // The key at `b` is new: it is the last pair's key and no earlier pair has it.
      assert y == pairs[n].0 && y !in prev.m;
      assert x == prev.keys[a] && x in prev.m;
      FromPairsLastWins(init, y);
      FromPairsLastWins(init, x);
      var i :| 0 <= i < |init| && init[i].0 == x;
      assert pairs[i].0 == x;
      assert NotUpTo(init, y, i);
      NotUpToExtend(pairs, y, i);
    }
  }

  /** No pair up to `i` has key `y` in the pairs but the last, so none has in all of them. */
  lemma NotUpToExtend<K(!new), V>(pairs: seq<(K, V)>, y: K, i: nat)
    requires pairs != [] && i < |pairs| - 1 && NotUpTo(pairs[..|pairs| - 1], y, i)
    ensures NotUpTo(pairs, y, i)
  {
    var init := pairs[..|pairs| - 1];
    forall j | 0 <= j <= i && j < |pairs| ensures pairs[j].0 != y {
      assert pairs[j] == init[j];
    }
  }
}
