/** Who waits in the TCP server's queue, and that a cancelled accept is always aborted. */
module AcceptCauses {
  import opened Prelude
  import opened Waiters
  import opened AcceptQueue

  /** Operation w.id was created at step m, for that client. */
  ghost predicate CreatedAt(tr: seq<Srv>, m: nat, w: Waiter)
    requires m + 1 < |tr|
  {
    tr[m].next == w.id && tr[m + 1] == Create(tr[m], w.client)
  }

  lemma StepJoins(s: Srv, ev: Event, w: Waiter)
    requires Inv(s) && Enabled(s, ev) && w in Next(s, ev).ops
    ensures w in s.ops || (ev == CreatePipe(w.client) && w.id == s.next)
  {
    match ev
    case CreatePipe(_) =>
    case TimerFired(id) =>
      if Waits(s.ops, id) {
        TimeoutIsExact(s.ops, id);
      }
    case OpCompleted(_) =>
    case CancelPending(whose) =>
      if s.ops != [] {
        CancelQueue(s, whose);
      }
    case AcceptHandler(_) =>
  }

  /** Whoever is in the list created an operation, with that client id, at an earlier step. */
  lemma WaitersAreWhoCalled(tr: seq<Srv>, i: nat, w: Waiter)
    requires IsRun(tr) && i < |tr| && w in tr[i].ops
    ensures exists m: nat :: m < i && CreatedAt(tr, m, w)
  {
    var absent := seq(|tr|, k requires 0 <= k < |tr| => w !in tr[k].ops);
    var joins := seq(|tr| - 1, k requires 0 <= k < |tr| - 1 => CreatedAt(tr, k, w));
    forall k | 0 <= k < |joins|
      ensures absent[k] ==> absent[k + 1] || joins[k]
    {
      Always(tr, k);
      assert Step(tr[k], tr[k + 1]);
      var ev :| Enabled(tr[k], ev) && tr[k + 1] == Next(tr[k], ev);
      if w in tr[k + 1].ops {
        StepJoins(tr[k], ev, w);
      }
    }
    KeptOrUndone(absent, joins, i);
    assert forall m: nat :: m < i ==> (joins[m] <==> CreatedAt(tr, m, w));
  }

  /** An operation joins the list last, with its client, and has been given nothing. */
  lemma CreatedJoinsLast(tr: seq<Srv>, i: nat, client: nat)
    requires IsRun(tr) && i < |tr|
    ensures var s, s' := tr[i], Create(tr[i], client);
            && s'.ops == s.ops + [Waiter(s.next, client)] && s'.next == s.next + 1
            && s.next in s'.got && s'.got[s.next] == [] && s.next !in s'.first
  {
    Always(tr, i);
  }

  // ----- aborts -----

  /** If the operation whose accept is outstanding has been cancelled, its accept has been aborted. */
  ghost predicate Aborted(s: Srv) {
    s.accepting.Some? && s.accepting.value in s.objs && s.objs[s.accepting.value].canceled ==>
      Abort(s.accepting.value, s.accepting) in s.aborts
  }

  lemma CancelAborts(s: Srv, byTimer: bool)
    requires QueueOk(s) && Aborted(s) && s.ops != []
    ensures Aborted(OldestCanceled(s, byTimer))
  {
  }

  lemma NewAcceptIsNotCanceled(s: Srv, id: nat)
    requires Known(s) && Disciplined(s)
    ensures s.accepting.None? ==> Aborted(OnCompleted(s, id))
    ensures s.ops == [] || s.ops[0].id != id ==> (Aborted(s) ==> Aborted(OnCompleted(s, id)))
  {
    if |s.ops| > 1 {
      assert WaitsItsTurn(s, s.ops[1].id);
    }
  }

  lemma DismissAborts(s: Srv, client: Option<nat>)
    requires Inv(s) && Aborted(s) && s.ops != []
    ensures Aborted(Dismissed(s, client))
  {
    CancelLeaves(s, client);
    GoneWereWaiting(s, Dismissed(s, client), Removed(s.ops[1..], client), false, s.ops[0].id);
    IdsAre(Removed(s.ops[1..], client), s.ops[0].id);
  }

  lemma CancelPendingAborts(s: Srv, client: Option<nat>)
    requires Inv(s) && Aborted(s)
    ensures Aborted(CancelAll(s, client))
  {
    if s.ops != [] {
      var s1 := Dismissed(s, client);
      DismissAborts(s, client);
      CancelLeaves(s, client);
      LeaveKeeps(s, s1, Removed(s.ops[1..], client), false);
      CancelAborts(s1, false);
    }
  }

  lemma TimeoutAborts(s: Srv, id: nat)
    requires Inv(s) && Aborted(s) && id < s.next
    ensures Aborted(OnTimeout(s, id))
  {
    if Waits(s.ops, id) && id == s.ops[0].id {
      CancelAborts(s, true);
    }
  }

  lemma StepAborts(s: Srv, ev: Event)
    requires Inv(s) && Enabled(s, ev) && Aborted(s)
    ensures Aborted(Next(s, ev))
  {
    match ev
    case CreatePipe(_) =>
    case TimerFired(id) => TimeoutAborts(s, id);
    case OpCompleted(id) => NewAcceptIsNotCanceled(s, id);
    case CancelPending(whose) => CancelPendingAborts(s, whose);
    case AcceptHandler(_) =>
  }

  lemma {:induction false} AbortedAlways(tr: seq<Srv>, i: nat)
    requires IsRun(tr) && i < |tr|
    ensures Aborted(tr[i])
  {
    if i > 0 {
      AbortedAlways(tr, i - 1);
      Always(tr, i - 1);
      assert Step(tr[i - 1], tr[i]);
      var ev :| Enabled(tr[i - 1], ev) && tr[i] == Next(tr[i - 1], ev);
      StepAborts(tr[i - 1], ev);
    }
  }

  /** No cancel is forgotten: while an accept is outstanding whose operation was struck, it has been aborted. */
  lemma StruckAcceptIsAborted(tr: seq<Srv>, i: nat, id: nat)
    requires IsRun(tr) && i < |tr| && tr[i].accepting == Some(id) && id in tr[i].first
    ensures Abort(id, Some(id)) in tr[i].aborts
  {
    AbortedAlways(tr, i);
    Always(tr, i);
    assert CallOk(tr[i], id);
  }
}
