/** The code of the accept queue, proved against its model. */
module AcceptServer {
  import opened Prelude
  import opened Ledger
  import opened Waiters
  import opened AcceptQueue

  class TcpPipeServerEnv {
    var ops: seq<Waiter>
    var objs: map<nat, OpObj>
    var next: nat
    var accepting: Option<nat>
    var got: map<nat, seq<WaitRes>>
    ghost var finishing: set<nat>
    ghost var aborts: seq<Abort>
    ghost var first: map<nat, Cause>

    ghost function View(): Srv
      reads this
    {
      Srv(ops, objs, next, accepting, finishing, got, aborts, first)
    }

    constructor ()
      ensures View() == NEW_SRV
    {
      ops, objs, next, accepting, got := [], map[], 0, None, map[];
      finishing, aborts, first := {}, [], map[];
    }

    /** The preconditions are the two assertions of the source, and that the acceptor is free. */
    method StartOp(id: nat)
      requires id in objs && !objs[id].started && !objs[id].canceled && accepting.None?
      modifies this`objs, this`accepting
      ensures View() == Start(old(View()), id)
    {
      objs := objs[id := objs[id].(started := true)];
      accepting := Some(id);
    }

    method CancelOp(id: nat, byTimer: bool) returns (r: Option<WaitRes>)
      requires id in objs
      modifies this`objs, this`aborts
      ensures r == CancelRes(old(objs[id]), byTimer)
      ensures View() == CancelObj(old(View()), id, byTimer)
    {
      var o := objs[id];
      if o.canceled {
        assert objs == objs[id := o];
        return None;
      }
      objs := objs[id := o.(canceled := true, byTimer := byTimer)];
      if o.started {
        aborts := aborts + [Abort(id, accepting)];
        return None;
      }
      return Some(if byTimer then WTimeout else WCanceled);
    }

    method CompleteOp(id: nat, r: WaitRes)
      modifies this`got, this`finishing
      ensures View() == Complete(old(View()), id, r)
    {
      got := Give(got, id, r);
      finishing := finishing + {id};
    }

    method CreatePipe(client: nat) returns (id: nat)
      requires ops == [] ==> accepting.None?
      modifies this
      ensures id == old(next) && View() == Create(old(View()), client)
    {
      id := next;
      next := next + 1;
      objs := objs[id := OpObj(false, false, false)];
      got := got[id := []];
      ops := ops + [Waiter(id, client)];
      if |ops| == 1 {
        StartOp(id);
      }
    }

    method OnTimeout(id: nat)
      requires Known(View())
      modifies this
      ensures View() == AcceptQueue.OnTimeout(old(View()), id)
    {
      first := Strike(first, [id], ByTimer);
      if exists k :: 0 <= k < |ops| && ops[k].id == id {
        WaitsIn(ops, id);
        var r := CancelOp(id, true);
        if id != ops[0].id {
          ops := WithoutId(ops, id);
        }
        if r.Some? {
          CompleteOp(id, r.value);
        }
      }
    }

    method OnCompleted(id: nat)
      requires Inv(View()) && id in finishing
      modifies this
      ensures View() == AcceptQueue.OnCompleted(old(View()), id)
    {
      finishing := finishing - {id};
      if ops != [] && ops[0].id == id {
        assert got[id] != [];
        ops := ops[1..];
        if ops != [] {
          assert ops[0] == old(ops[1]) && WaitsItsTurn(old(View()), ops[0].id);
          StartOp(ops[0].id);
        }
      }
    }

    method AcceptHandler(arrival: Arrival)
      requires accepting.Some? && accepting.value in objs
      modifies this
      ensures View() == Accepted(old(View()), arrival)
    {
      var id := accepting.value;
      var o := objs[id];
      accepting := None;
      first := Strike(first, [id], Arrived(arrival));
      var r: WaitRes;
      if o.canceled {
        r := if o.byTimer then WTimeout else WCanceled;
      } else if arrival.AcceptError? {
        r := WFailed;
      } else if arrival.OptionError? {
        r := WFailed;
      } else {
        r := WSuccess;
      }
      CompleteOp(id, r);
    }

    /** Cancels operations that have not been started: each of them completes. */
    method CancelEach(gone: seq<Waiter>)
      requires forall w :: w in gone ==> w.id in objs && !objs[w.id].started && !objs[w.id].canceled
      requires Increasing(gone)
      modifies this`objs, this`aborts
      ensures View() == old(View()).(objs := MarkAll(old(objs), Ids(gone)))
    {
      for i := 0 to |gone|
        invariant View() == old(View()).(objs := MarkAll(old(objs), Ids(gone)[..i]))
      {
        assert gone[i] in gone;
        NotBefore(gone, i);
        var r := CancelOp(gone[i].id, false);
        MarkOneMore(old(objs), Ids(gone), i);
      }
      assert Ids(gone)[..|gone|] == Ids(gone);
    }

    /** The walk over all operations but the oldest. */
    method DismissMeant(client: Option<nat>)
      requires Known(View()) && Disciplined(View()) && ops != []
      modifies this
      ensures View() == Dismissed(old(View()), client)
    {
      GoneAreIdle(View(), client);
      var kept, gone := EraseMeant(ops[1..], client);
      DismissOps([ops[0]] + kept, gone);
    }

    /** Operations that have not been started leave the list; each is cancelled and completes. */
    method DismissOps(rest: seq<Waiter>, gone: seq<Waiter>)
      requires Increasing(gone)
      requires forall w :: w in gone ==> w.id in objs && !objs[w.id].started && !objs[w.id].canceled
      modifies this
      ensures View() == Dismiss(old(View()), rest, gone)
    {
      CancelEach(gone);
      ops := rest;
      got := SetAll(got, Ids(gone), WCanceled);
      finishing := finishing + (set id | id in Ids(gone));
      first := Strike(first, Ids(gone), ByCaller);
    }

    method CancelPendingServerEndpoints(client: Option<nat>)
      requires Known(View()) && Disciplined(View())
      modifies this
      ensures View() == CancelAll(old(View()), client)
    {
      if ops == [] {
        return;
      }
      var oldest := ops[0];
      DismissMeant(client);
      if client.None? || oldest.client == client.value {
        first := Strike(first, [oldest.id], ByCaller);
        var r := CancelOp(oldest.id, false);
        if r.Some? {
          CompleteOp(oldest.id, r.value);
        }
      }
    }
  }

  lemma GoneAreIdle(s: Srv, client: Option<nat>)
    requires Known(s) && Disciplined(s) && s.ops != []
    ensures var gone := Removed(s.ops[1..], client);
            && Increasing(gone)
            && forall w :: w in gone ==> w.id in s.objs && !s.objs[w.id].started && !s.objs[w.id].canceled
  {
    CancelQueue(s, client);
    forall w | w in Removed(s.ops[1..], client)
      ensures WaitsItsTurn(s, w.id)
    {
      OthersWait(s, w);
    }
  }

  lemma NotBefore(gone: seq<Waiter>, i: nat)
    requires Increasing(gone) && i < |gone|
    ensures Ids(gone)[i] == gone[i].id && gone[i].id !in Ids(gone)[..i]
  {
  }

  lemma MarkOneMore(objs: map<nat, OpObj>, ids: seq<nat>, i: nat)
    requires i < |ids| && ids[i] in objs && ids[i] !in ids[..i]
    ensures MarkAll(objs, ids[..i + 1]) == MarkAll(objs, ids[..i])[ids[i] := Marked(objs[ids[i]], false)]
  {
    assert ids[..i + 1] == ids[..i] + [ids[i]];
  }
}
