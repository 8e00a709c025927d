/** Whom a timer takes out of a direction's queue, and that the oldest operation is not among them. */
module TcpOldest {
  import opened TcpDirection
  import opened TcpInvariant

  /** Operation id stands in the queue behind another. */
  ghost predicate Behind(d: Dir, id: nat) {
    exists k :: 0 < k < |d.q| && d.q[k].id == id
  }

  ghost predicate IsOldest(d: Dir, id: nat) {
    d.q != [] && d.q[0].id == id
  }

  /** The whole frame of operation id has moved. */
  ghost predicate IsDone(d: Dir, id: nat) {
    exists k :: 0 <= k < |d.done| && d.done[k].id == id
  }

  /** An operation that got to the front stays there until its frame has moved or the direction has ended. */
  ghost predicate KeepsItsTurn(d: Dir, s: Sock, id: nat) {
    id !in d.dropped && (IsOldest(d, id) || IsDone(d, id) || (!s.open && d.q == []))
  }

  lemma HandlersTakeOutNothing(d: Dir, s: Sock)
    requires d.q != [] && d.io.Ready?
    ensures OnIo(d, s).0.dropped == d.dropped
  {
  }

  lemma TimerTakesOut(d: Dir, s: Sock, q: nat, id: nat)
    requires QueueOk(d)
    ensures id in OnTimer(d, s, q).dropped <==> id in d.dropped || (q == id && Behind(d, id))
  {
    var at := IndexOf(d.q, q);
    if q == id && Behind(d, id) {
      var k :| 0 < k < |d.q| && d.q[k].id == id;
      assert at.Some? && at.value == k;
    }
  }

  /** An operation is taken out by its own timer alone, and exactly when it stands behind another. */
  lemma TakenOutBehind(d: Dir, s: Sock, ev: Event, id: nat)
    requires QueueOk(d) && Enabled(d, s, ev)
    ensures id in Next(d, s, ev).0.dropped <==> id in d.dropped || (ev == Timer(id) && Behind(d, id))
  {
    match ev
    case Handle => HandlersTakeOutNothing(d, s);
    case Timer(q) => TimerTakesOut(Fire(d, s, q), s, q, id);
    case Accept(_) =>
    case Move(_) =>
    case Fault =>
    case Close(_) =>
  }

  lemma DoneStays(d: Dir, d': Dir, id: nat)
    requires d.done <= d'.done && IsDone(d, id)
    ensures IsDone(d', id)
  {
    var k :| 0 <= k < |d.done| && d.done[k].id == id;
    assert d'.done[k].id == id;
  }

  /** The handler of the oldest operation leaves it in front, finishes it, or ends the direction. */
  lemma HandlerKeepsTurn(d: Dir, s: Sock, id: nat)
    requires d.q != [] && d.io.Ready? && IsOldest(d, id)
    ensures var (d', s') := OnIo(d, s); IsOldest(d', id) || IsDone(d', id) || (!s'.open && d'.q == [])
  {
    var d1 := Received(d);
    if d.io.ok && !d.io.header && d1.q[0].PayloadDone() {
      PopFinishes(d1, s);
    }
  }

  lemma PopFinishes(d: Dir, s: Sock)
    requires d.q != []
    ensures IsDone(Popped(d, s), d.q[0].id) && IsDone(StartHeader(Popped(d, s), s), d.q[0].id)
  {
    assert Popped(d, s).done[|d.done|].id == d.q[0].id;
    assert StartHeader(Popped(d, s), s).done[|d.done|].id == d.q[0].id;
  }

  lemma DoneGrows(d: Dir, s: Sock, ev: Event)
    requires Enabled(d, s, ev)
    ensures d.done <= Next(d, s, ev).0.done
  {
    if ev.Handle? {
      HandledDone(d, s);
    }
  }

  lemma HandledDone(d: Dir, s: Sock)
    requires d.q != [] && d.io.Ready?
    ensures d.done <= OnIo(d, s).0.done
  {
  }

  lemma OldestStep(d: Dir, s: Sock, ev: Event, id: nat)
    requires QueueOk(d) && Enabled(d, s, ev) && IsOldest(d, id)
    ensures var (d', s') := Next(d, s, ev); IsOldest(d', id) || IsDone(d', id) || (!s'.open && d'.q == [])
  {
    match ev
    case Handle => HandlerKeepsTurn(d, s, id);
    case Timer(q) => TimerKeepsOldest(Fire(d, s, q), s, q, id);
    case Accept(_) =>
    case Move(_) =>
    case Fault =>
    case Close(_) =>
  }

  lemma TimerKeepsOldest(d: Dir, s: Sock, q: nat, id: nat)
    requires IsOldest(d, id)
    ensures IsOldest(OnTimer(d, s, q), id)
  {
  }

  /** Whatever happens, an operation that got to the front keeps its turn; its own timer does not change that. */
  lemma TurnIsKept(d: Dir, s: Sock, ev: Event, id: nat)
    requires QueueOk(d) && DoneOk(d) && Enabled(d, s, ev) && KeepsItsTurn(d, s, id)
    ensures KeepsItsTurn(Next(d, s, ev).0, Next(d, s, ev).1, id)
  {
    TakenOutBehind(d, s, ev, id);
    if IsDone(d, id) {
      DoneGrows(d, s, ev);
      DoneStays(d, Next(d, s, ev).0, id);
    } else if IsOldest(d, id) {
      OldestStep(d, s, ev, id);
    }
  }
}
