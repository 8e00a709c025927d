/** Promises as books: for each promise, everything it has been given. */
module Ledger {
  function Give<V>(got: map<nat, seq<V>>, id: nat, x: V): map<nat, seq<V>> {
    got[id := (if id in got then got[id] else []) + [x]]
  }

  function GiveAll<V>(got: map<nat, seq<V>>, ids: seq<nat>, x: V): map<nat, seq<V>> {
    if ids == [] then got else Give(GiveAll(got, ids[..|ids| - 1], x), ids[|ids| - 1], x)
  }

  /** Completing every promise of a list: each gets one result for each time it occurs. */
  lemma {:induction false} GiveAllIs<V>(got: map<nat, seq<V>>, ids: seq<nat>, x: V, id: nat)
    requires forall q :: q in ids ==> q in got
    ensures GiveAll(got, ids, x).Keys == got.Keys
    ensures id in got ==> |GiveAll(got, ids, x)[id]| == |got[id]| + multiset(ids)[id]
    ensures id in got && id !in ids ==> GiveAll(got, ids, x)[id] == got[id]
  {
    if ids != [] {
      var n := |ids| - 1;
      assert ids == ids[..n] + [ids[n]];
      GiveAllIs(got, ids[..n], x, id);
    }
  }

  lemma {:induction false} GiveAllHas<V>(got: map<nat, seq<V>>, ids: seq<nat>, x: V, id: nat, y: V)
    requires (forall q :: q in ids ==> q in got) && id in got
    ensures GiveAll(got, ids, x).Keys == got.Keys
    ensures y in GiveAll(got, ids, x)[id] <==> y in got[id] || (id in ids && y == x)
  {
    if ids != [] {
      var n := |ids| - 1;
      assert ids == ids[..n] + [ids[n]];
      GiveAllHas(got, ids[..n], x, id, y);
    }
  }

  /** A promise that has been given nothing and occurs once is given exactly that. */
  lemma GivenOnce<V>(got: map<nat, seq<V>>, ids: seq<nat>, x: V, id: nat)
    requires (forall q :: q in ids ==> q in got) && id in got && got[id] == [] && multiset(ids)[id] == 1
    ensures id in GiveAll(got, ids, x) && GiveAll(got, ids, x)[id] == [x]
  {
    GiveAllIs(got, ids, x, id);
    var ys := GiveAll(got, ids, x)[id];
    GiveAllHas(got, ids, x, id, ys[0]);
    assert ys[0] in ys;
  }

  /** Gives the same thing to each promise in turn. */
  method SetAll<V>(got: map<nat, seq<V>>, ids: seq<nat>, x: V) returns (r: map<nat, seq<V>>)
    ensures r == GiveAll(got, ids, x)
  {
    r := got;
    for i := 0 to |ids|
      invariant r == GiveAll(got, ids[..i], x)
    {
      assert ids[..i + 1][..i] == ids[..i];
      r := Give(r, ids[i], x);
    }
    assert ids[..|ids|] == ids;
  }
}
