/** Queues of numbered waiters, in order of arrival, from which some are taken out. */
module Waiters {
  import opened Prelude
  import opened Ledger

  /** A call still waiting: its own number and the id its caller gave. */
  datatype Waiter = Waiter(id: nat, client: nat)

  function Ids(ws: seq<Waiter>): (r: seq<nat>)
    ensures |r| == |ws|
  {
    seq(|ws|, i requires 0 <= i < |ws| => ws[i].id)
  }

  predicate Meant(w: Waiter, client: Option<nat>) {
    client.None? || w.client == client.value
  }

  /** The waiters a cancel leaves, and those it takes; both in order. */
  function Kept(ws: seq<Waiter>, client: Option<nat>): seq<Waiter> {
    if ws == [] then []
    else
      var rest, w := Kept(ws[..|ws| - 1], client), ws[|ws| - 1];
      if Meant(w, client) then rest else rest + [w]
  }

  function Removed(ws: seq<Waiter>, client: Option<nat>): seq<Waiter> {
    if ws == [] then []
    else
      var rest, w := Removed(ws[..|ws| - 1], client), ws[|ws| - 1];
      if Meant(w, client) then rest + [w] else rest
  }

  /** The queue without the waiter numbered id. */
  function WithoutId(ws: seq<Waiter>, id: nat): seq<Waiter> {
    if ws == [] then []
    else
      var rest, w := WithoutId(ws[..|ws| - 1], id), ws[|ws| - 1];
      if w.id == id then rest else rest + [w]
  }

  predicate Waits(ws: seq<Waiter>, id: nat) {
    exists k :: 0 <= k < |ws| && ws[k].id == id
  }

  /** Kept and Removed from the front. */
  lemma {:induction false} FromTheFront(ws: seq<Waiter>, client: Option<nat>)
    requires ws != []
    ensures Kept(ws, client) == (if Meant(ws[0], client) then [] else [ws[0]]) + Kept(ws[1..], client)
    ensures Removed(ws, client) == (if Meant(ws[0], client) then [ws[0]] else []) + Removed(ws[1..], client)
  {
    var n := |ws| - 1;
    if n == 0 {
      assert ws[..0] == [] && ws[1..] == [];
    } else {
      FromTheFront(ws[..n], client);
      assert ws[1..][..n - 1] == ws[..n][1..];
    }
  }

  /** Moving past the first of what is left, or erasing it. */
  lemma PastHead<T>(k: seq<T>, r: seq<T>)
    requires r != []
    ensures (k + r)[|k|] == r[0]
    ensures (k + r)[..|k|] + (k + r)[|k| + 1..] == k + r[1..]
    ensures k + r == (k + [r[0]]) + r[1..]
  {
  }

  lemma Regroup<T>(a: seq<T>, x: T, b: seq<T>)
    ensures a + ([x] + b) == (a + [x]) + b
    ensures a + ([] + b) == a + b
  {
  }

  /** Walks the queue, erasing the waiters meant. */
  method EraseMeant(all: seq<Waiter>, client: Option<nat>) returns (q: seq<Waiter>, promises: seq<Waiter>)
    ensures q == Kept(all, client) && promises == Removed(all, client)
  {
    q, promises := all, [];
    var it := 0;
    ghost var kept: seq<Waiter>, rest := [], all;
    while it < |q|
      invariant q == kept + rest && it == |kept|
      invariant Kept(all, client) == kept + Kept(rest, client)
      invariant Removed(all, client) == promises + Removed(rest, client)
      decreases |rest|
    {
      PastHead(kept, rest);
      FromTheFront(rest, client);
      Regroup(kept, rest[0], Kept(rest[1..], client));
      Regroup(promises, rest[0], Removed(rest[1..], client));
      var w := q[it];
      if client.None? || w.client == client.value {
        promises := promises + [w];
        q := q[..it] + q[it + 1..];
      } else {
        kept := kept + [w];
        it := it + 1;
      }
      rest := rest[1..];
    }
    assert rest == [];
  }

  ghost predicate Increasing(ws: seq<Waiter>) {
    forall i, j :: 0 <= i < j < |ws| ==> ws[i].id < ws[j].id
  }

  /**
   A cancel takes exactly the waiters meant and leaves exactly the others, both in the order they
   came: with increasing numbers, who is in a queue determines the queue.
   */
  lemma KeptIsExact(ws: seq<Waiter>, client: Option<nat>)
    requires Increasing(ws)
    ensures forall w :: w in Kept(ws, client) <==> w in ws && !Meant(w, client)
    ensures Increasing(Kept(ws, client))
  {
    KeptMembers(ws, client);
    KeptInOrder(ws, client);
  }

  lemma RemovedIsExact(ws: seq<Waiter>, client: Option<nat>)
    requires Increasing(ws)
    ensures forall w :: w in Removed(ws, client) <==> w in ws && Meant(w, client)
    ensures Increasing(Removed(ws, client))
  {
    KeptMembers(ws, client);
    KeptInOrder(ws, client);
  }

  lemma {:induction false} KeptMembers(ws: seq<Waiter>, client: Option<nat>)
    ensures forall w :: w in Kept(ws, client) <==> w in ws && !Meant(w, client)
    ensures forall w :: w in Removed(ws, client) <==> w in ws && Meant(w, client)
  {
    if ws != [] {
      KeptMembers(ws[..|ws| - 1], client);
      assert ws == ws[..|ws| - 1] + [ws[|ws| - 1]];
    }
  }

  lemma {:induction false} KeptInOrder(ws: seq<Waiter>, client: Option<nat>)
    requires Increasing(ws)
    ensures Increasing(Kept(ws, client)) && Increasing(Removed(ws, client))
  {
    if ws != [] {
      var n := |ws| - 1;
      KeptInOrder(ws[..n], client);
      KeptMembers(ws[..n], client);
      AddLast(ws[..n], Kept(ws[..n], client), ws[n]);
      AddLast(ws[..n], Removed(ws[..n], client), ws[n]);
    }
  }

  lemma AddLast(ws: seq<Waiter>, part: seq<Waiter>, w: Waiter)
    requires Increasing(part) && (forall v :: v in part ==> v in ws) && forall v :: v in ws ==> v.id < w.id
    ensures Increasing(part + [w])
  {
  }

  lemma {:induction false} TimeoutIsExact(ws: seq<Waiter>, id: nat)
    requires Increasing(ws)
    ensures forall w :: w in WithoutId(ws, id) <==> w in ws && w.id != id
    ensures Increasing(WithoutId(ws, id))
  {
    if ws != [] {
      var n := |ws| - 1;
      TimeoutIsExact(ws[..n], id);
      assert ws == ws[..n] + [ws[n]];
      AddLast(ws[..n], WithoutId(ws[..n], id), ws[n]);
    }
  }

  lemma OnceIn(s: seq<nat>, k: nat)
    requires k < |s| && forall i, j :: 0 <= i < j < |s| ==> s[i] < s[j]
    ensures multiset(s)[s[k]] == 1
  {
    assert s == s[..k] + [s[k]] + s[k + 1..];
    assert s[k] !in s[..k] && s[k] !in s[k + 1..];
  }

  lemma WaitsTail(ws: seq<Waiter>, id: nat)
    requires ws != []
    ensures Waits(ws, id) <==> ws[0].id == id || Waits(ws[1..], id)
  {
    if Waits(ws[1..], id) {
      var k :| 0 <= k < |ws[1..]| && ws[1..][k].id == id;
      assert ws[k + 1].id == id;
    }
    forall k | 0 < k < |ws| && ws[k].id == id
      ensures Waits(ws[1..], id)
    {
      assert ws[1..][k - 1].id == id;
    }
  }

  lemma WaitsLast(ws: seq<Waiter>, w: Waiter, id: nat)
    ensures Waits(ws + [w], id) <==> Waits(ws, id) || w.id == id
  {
    assert (ws + [w])[|ws|] == w;
    if Waits(ws, id) {
      var k :| 0 <= k < |ws| && ws[k].id == id;
      assert (ws + [w])[k].id == id;
    }
  }

  lemma WaitsIn(ws: seq<Waiter>, id: nat)
    ensures Waits(ws, id) <==> exists w :: w in ws && w.id == id
  {
    if Waits(ws, id) {
      var k :| 0 <= k < |ws| && ws[k].id == id;
      assert ws[k] in ws;
    }
  }

  lemma WaitsSplit(ws: seq<Waiter>, kept: seq<Waiter>, gone: seq<Waiter>, id: nat)
    requires Increasing(ws) && (forall w :: w in ws <==> w in kept || w in gone)
    requires forall w :: w in gone ==> w !in kept
    ensures Waits(ws, id) <==> Waits(kept, id) || Waits(gone, id)
    ensures !(Waits(kept, id) && Waits(gone, id))
  {
    WaitsIn(ws, id);
    WaitsIn(kept, id);
    WaitsIn(gone, id);
  }

  lemma OneWaiter(ws: seq<Waiter>, id: nat)
    requires Increasing(ws)
    ensures forall v, w :: v in ws && w in ws && v.id == id && w.id == id ==> v == w
  {
  }

  lemma IdsAre(ws: seq<Waiter>, id: nat)
    ensures id in Ids(ws) <==> Waits(ws, id)
  {
    if Waits(ws, id) {
      var k :| 0 <= k < |ws| && ws[k].id == id;
      assert Ids(ws)[k] == id;
    }
  }

  /** Each of the waiters that leave is given x, once. */
  lemma GivenToThose<V>(got: map<nat, seq<V>>, ws: seq<Waiter>, x: V, id: nat)
    requires Increasing(ws) && (forall w :: w in ws ==> w.id in got) && id in got
    requires Waits(ws, id) ==> got[id] == []
    ensures GiveAll(got, Ids(ws), x).Keys == got.Keys
    ensures GiveAll(got, Ids(ws), x)[id] == if Waits(ws, id) then [x] else got[id]
  {
    forall q | q in Ids(ws)
      ensures q in got
    {
      var k :| 0 <= k < |ws| && Ids(ws)[k] == q;
      assert ws[k] in ws;
    }
    if Waits(ws, id) {
      var k :| 0 <= k < |ws| && ws[k].id == id;
      OnceIn(Ids(ws), k);
      GivenOnce(got, Ids(ws), x, id);
    } else {
      assert id !in Ids(ws);
    }
    GiveAllIs(got, Ids(ws), x, id);
  }
}
