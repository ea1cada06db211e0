/** The keyed accumulator the pages build with a plain object,
    `acc[k] = (acc[k] || 0) + v`, one entry at a time. Its meaning is given by
    the sequence of (key, weight) pairs it is fed: the weight of a key is the
    sum of the weights paired with it, and the object's keys, in the order
    `Object.keys` lists them, are the distinct keys in order of first
    appearance. */
module Tally {

  /** Object keys are strings; so are the names and identifiers tallied here. */
  type Key = string

  /** Sum of the weights paired with `k`. */
  function Weight(ps: seq<(Key, int)>, k: Key): int {
    if ps == [] then 0
    else Weight(ps[..|ps| - 1], k) + (if ps[|ps| - 1].0 == k then ps[|ps| - 1].1 else 0)
  }

  /** Sum of all weights. */
  function Total(ps: seq<(Key, int)>): int {
    if ps == [] then 0 else Total(ps[..|ps| - 1]) + ps[|ps| - 1].1
  }

  /** The distinct keys of `ps`, in order of first appearance. */
  function Keys(ps: seq<(Key, int)>): (ks: seq<Key>)
    ensures Distinct(ks)
    ensures forall k :: k in ks <==> exists i :: 0 <= i < |ps| && ps[i].0 == k
  {
    if ps == [] then []
    else
      var init := ps[..|ps| - 1];
      var ks := Keys(init);
      var k := ps[|ps| - 1].0;
      assert forall j :: 0 <= j < |init| ==> init[j] == ps[j];
      if k in ks then ks else ks + [k]
  }

  predicate Distinct(ks: seq<Key>) {
    forall i, j :: 0 <= i < j < |ks| ==> ks[i] != ks[j]
  }

  /** Sum of the weights of the keys listed in `ks`. */
  function SumOver(ks: seq<Key>, ps: seq<(Key, int)>): int {
    if ks == [] then 0 else SumOver(ks[..|ks| - 1], ps) + Weight(ps, ks[|ks| - 1])
  }

  /** A key that never occurs has weight 0. */
  lemma {:induction false} AbsentWeight(ps: seq<(Key, int)>, k: Key)
    requires k !in Keys(ps)
    ensures Weight(ps, k) == 0
  {
    if ps != [] {
      var init := ps[..|ps| - 1];
      assert forall j :: 0 <= j < |init| ==> init[j] == ps[j];
      AbsentWeight(init, k);
    }
  }

  /** Feeding one more pair adds its weight to the sum over `ks` exactly when
      its key is listed in `ks` (once, since `ks` is distinct). */
  lemma {:induction false} SumOverStep(ks: seq<Key>, init: seq<(Key, int)>, p: (Key, int))
    requires Distinct(ks)
    ensures SumOver(ks, init + [p]) == SumOver(ks, init) + (if p.0 in ks then p.1 else 0)
  {
    var ps := init + [p];
    assert ps[..|ps| - 1] == init;
    if ks != [] {
      var front := ks[..|ks| - 1];
      assert Distinct(front);
      SumOverStep(front, init, p);
      assert ks == front + [ks[|ks| - 1]];
      assert p.0 in ks <==> p.0 in front || p.0 == ks[|ks| - 1];
      assert p.0 == ks[|ks| - 1] ==> p.0 !in front;
    }
  }

  /** Summing the per-key weights over all distinct keys gives the total of
      all weights: the accumulator loses nothing and counts nothing twice. */
  lemma {:induction false} SumOverKeys(ps: seq<(Key, int)>)
    ensures SumOver(Keys(ps), ps) == Total(ps)
  {
    if ps != [] {
      var init := ps[..|ps| - 1];
      var p := ps[|ps| - 1];
      assert ps == init + [p];
      var ks := Keys(init);
      SumOverKeys(init);
      SumOverStep(ks, init, p);
      if p.0 !in ks {
        AbsentWeight(init, p.0);
        assert Keys(ps) == ks + [p.0];
        assert (ks + [p.0])[..|ks|] == ks;
      }
    }
  }

  /** With positive weights, a key has positive weight exactly when it occurs. */
  lemma {:induction false} PositiveWeight(ps: seq<(Key, int)>, k: Key)
    requires forall i :: 0 <= i < |ps| ==> ps[i].1 > 0
    ensures Weight(ps, k) > 0 <==> k in Keys(ps)
    ensures Weight(ps, k) >= 0
  {
    if ps != [] {
      var init := ps[..|ps| - 1];
      assert forall j :: 0 <= j < |init| ==> init[j] == ps[j];
      PositiveWeight(init, k);
    }
  }
}
