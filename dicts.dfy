/** Python dicts whose order matters, as insertion-ordered item lists:
    `d[k] = v` and `dict(pairs)`, where a repeated key keeps its first
    position and takes its last value. */
module Dicts {

  predicate HasKey<K(==), V>(d: seq<(K, V)>, k: K) {
    exists i :: 0 <= i < |d| && d[i].0 == k
  }

  predicate DistinctKeys<K(==), V>(d: seq<(K, V)>) {
    forall i, j :: 0 <= i < j < |d| ==> d[i].0 != d[j].0
  }

  /** `d[k] = v` on a dict: an existing key keeps its position and takes the
      new value, a new key is appended. */
  function DictSet<K(==), V>(d: seq<(K, V)>, k: K, v: V): (r: seq<(K, V)>)
    requires DistinctKeys(d)
    ensures DistinctKeys(r)
    ensures HasKey(d, k) ==> |r| == |d|
    ensures !HasKey(d, k) ==> |r| == |d| + 1 && r[|d|] == (k, v)
    ensures forall j :: 0 <= j < |d| ==> r[j] == (if d[j].0 == k then (k, v) else d[j])
  {
    if |d| == 0 then [(k, v)]
    else if d[0].0 == k then [(k, v)] + d[1..]
    else
      var rest := DictSet(d[1..], k, v);
      assert HasKey(d[1..], k) <==> HasKey(d, k) by {
        if HasKey(d, k) {
          var i :| 0 <= i < |d| && d[i].0 == k;
          assert d[1..][i - 1].0 == k;
        }
        if HasKey(d[1..], k) {
          var i :| 0 <= i < |d| - 1 && d[1..][i].0 == k;
          assert d[i + 1].0 == k;
        }
      }
      [d[0]] + rest
  }

  /** `dict(pairs)`: the pairs inserted in order, later values replacing
      earlier ones under an equal key. */
  function FromPairs<K(==), V>(ps: seq<(K, V)>): (r: seq<(K, V)>)
    ensures DistinctKeys(r)
  {
    if |ps| == 0 then []
    else DictSet(FromPairs(ps[..|ps| - 1]), ps[|ps| - 1].0, ps[|ps| - 1].1)
  }

  /** The keys after `d[k] = v` are those of `d` and `k`. */
  lemma {:induction false} DictSetKeys<K, V>(d: seq<(K, V)>, k: K, v: V, x: K)
    requires DistinctKeys(d)
    ensures HasKey(DictSet(d, k, v), x) <==> HasKey(d, x) || x == k
  {
    var r := DictSet(d, k, v);
    if HasKey(r, x) && x != k {
      var j :| 0 <= j < |r| && r[j].0 == x;
      assert d[j].0 == x;
    }
    if HasKey(d, x) {
      var j :| 0 <= j < |d| && d[j].0 == x;
      assert r[j].0 == x;
    }
    if x == k {
      if !HasKey(d, k) {
        assert r[|d|].0 == k;
      } else {
        var j :| 0 <= j < |d| && d[j].0 == k;
        assert r[j].0 == k;
      }
    }
  }

  /** A dict built from pairs has exactly the keys of the pairs. */
  lemma {:induction false} FromPairsKeys<K, V>(ps: seq<(K, V)>, x: K)
    ensures HasKey(FromPairs(ps), x) <==> HasKey(ps, x)
  {
    if |ps| > 0 {
      var init := ps[..|ps| - 1];
      var last := ps[|ps| - 1];
      var d := FromPairs(init);
      assert FromPairs(ps) == DictSet(d, last.0, last.1);
      FromPairsKeys(init, x);
      DictSetKeys(d, last.0, last.1, x);
      HasKeyLast(ps, x);
    }
  }

  /** The keys of a non-empty list are those before its last pair and the
      last pair's. */
  lemma HasKeyLast<K, V>(d: seq<(K, V)>, x: K)
    requires |d| > 0
    ensures HasKey(d, x) <==> HasKey(d[..|d| - 1], x) || x == d[|d| - 1].0
  {
    var init := d[..|d| - 1];
    if HasKey(d, x) && x != d[|d| - 1].0 {
      var i :| 0 <= i < |d| && d[i].0 == x;
      assert init[i].0 == x;
    }
    if HasKey(init, x) {
      var i :| 0 <= i < |init| && init[i].0 == x;
      assert d[i].0 == x;
    }
  }

  /** Every item of a dict built from pairs is the last pair with its key. */
  lemma {:induction false} FromPairsLastWins<K, V>(ps: seq<(K, V)>, j: nat)
    requires j < |FromPairs(ps)|
    ensures LastWith(ps, FromPairs(ps)[j])
  {
    assert |ps| > 0;
    var n := |ps| - 1;
    var init := ps[..n];
    var d := FromPairs(init);
    var r := FromPairs(ps);
    assert r == DictSet(d, ps[n].0, ps[n].1);
    DictSetItem(d, ps[n].0, ps[n].1, j);
    if r[j].0 == ps[n].0 {
      assert ps[n] == r[j] && NoLaterKey(ps, n, r[j].0);
    } else {
      assert j < |d| && r[j] == d[j];
      FromPairsLastWins(init, j);
      var i :| 0 <= i < |init| && init[i] == d[j] && NoLaterKey(init, i, d[j].0);
      assert ps[i] == r[j];
      NoLaterKeySnoc(ps, i, r[j].0);
    }
  }

  /** A key absent after `i` before the last pair, and not the last
      pair's key, is absent after `i`. */
  lemma NoLaterKeySnoc<K, V>(ps: seq<(K, V)>, i: nat, k: K)
    requires |ps| > 0 && NoLaterKey(ps[..|ps| - 1], i, k) && ps[|ps| - 1].0 != k
    ensures NoLaterKey(ps, i, k)
  {
    var init := ps[..|ps| - 1];
    forall i' | i < i' < |ps|
      ensures ps[i'].0 != k
    {
      if i' < |ps| - 1 {
        assert ps[i'] == init[i'];
      }
    }
  }

  /** An item after `d[k] = v` is the new pair when it has key `k`, and
      otherwise the item of `d` at the same position. */
  lemma DictSetItem<K, V>(d: seq<(K, V)>, k: K, v: V, j: nat)
    requires DistinctKeys(d) && j < |DictSet(d, k, v)|
    ensures DictSet(d, k, v)[j].0 == k ==> DictSet(d, k, v)[j] == (k, v)
    ensures DictSet(d, k, v)[j].0 != k ==> j < |d| && DictSet(d, k, v)[j] == d[j]
  {
  }

  /** `p` is the last pair of `ps` with its key. */
  ghost predicate LastWith<K, V>(ps: seq<(K, V)>, p: (K, V)) {
    exists i :: 0 <= i < |ps| && ps[i] == p && NoLaterKey(ps, i, p.0)
  }

  /** No pair after position `i` has key `k`. */
  ghost predicate NoLaterKey<K, V>(ps: seq<(K, V)>, i: nat, k: K) {
    forall i' :: i < i' < |ps| ==> ps[i'].0 != k
  }

  /** Pairs with distinct keys make a dict of those pairs in their order. */
  lemma {:induction false} FromDistinctPairs<K, V>(ps: seq<(K, V)>)
    requires DistinctKeys(ps)
    ensures FromPairs(ps) == ps
  {
    if |ps| > 0 {
      var init := ps[..|ps| - 1];
      var last := ps[|ps| - 1];
      FromDistinctPairs(init);
      assert !HasKey(init, last.0);
      assert init + [last] == ps;
    }
  }
}
