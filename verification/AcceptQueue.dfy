/**
 The TCP server's queue of create operations. One accept at a time is outstanding on the acceptor,
 for the oldest operation; the others wait for their turn.
 */
module AcceptQueue {
  import opened Prelude
  import opened Ledger
  import opened Waiters

  datatype WaitRes = WSuccess | WTimeout | WCanceled | WFailed

  /** What the accept handler finds. */
  datatype Arrival = Connected | AcceptError | OptionError

  /** What can decide how an operation ends: its timer, a caller's cancel, or its accept handler. */
  datatype Cause = ByTimer | ByCaller | Arrived(arrival: Arrival)

  datatype OpObj = OpObj(started: bool, canceled: bool, byTimer: bool)

  /** Operation `who` cancelled the acceptor while the accept of `outstanding` was pending on it. */
  datatype Abort = Abort(who: nat, outstanding: Option<nat>)

  /**
   `ops` is the list, written oldest first; `objs` the operation objects, which outlive their
   place in it. `accepting` is the operation whose accept handler has not run yet. `finishing`
   are those completed whose on_completed has not run yet. `got` is what each promise has been
   given. `first` is history: which of the three causes struck each operation first.
   */
  datatype Srv = Srv(
    ops: seq<Waiter>, objs: map<nat, OpObj>, next: nat, accepting: Option<nat>, finishing: set<nat>,
    got: map<nat, seq<WaitRes>>, aborts: seq<Abort>, first: map<nat, Cause>)

  const NEW_SRV: Srv := Srv([], map[], 0, None, {}, map[], [], map[])

  // ----- the blocks -----

  function Code(byTimer: bool): WaitRes {
    if byTimer then WTimeout else WCanceled
  }

  function By(byTimer: bool): Cause {
    if byTimer then ByTimer else ByCaller
  }

  /** Notes that the cause struck these operations; those struck before keep their first cause. */
  function Strike(first: map<nat, Cause>, ids: seq<nat>, cause: Cause): map<nat, Cause> {
    map id | id in first.Keys + (set q | q in ids) :: if id in first then first[id] else cause
  }

  function Start(s: Srv, id: nat): Srv
    requires id in s.objs
  {
    s.(objs := s.objs[id := s.objs[id].(started := true)], accepting := Some(id))
  }

  function Marked(o: OpObj, byTimer: bool): OpObj {
    if o.canceled then o else o.(canceled := true, byTimer := byTimer)
  }

  function CancelObj(s: Srv, id: nat, byTimer: bool): Srv
    requires id in s.objs
  {
    var o := s.objs[id];
    s.(objs := s.objs[id := Marked(o, byTimer)],
       aborts := if o.started && !o.canceled then s.aborts + [Abort(id, s.accepting)] else s.aborts)
  }

  function CancelRes(o: OpObj, byTimer: bool): Option<WaitRes> {
    if o.canceled || o.started then None else Some(Code(byTimer))
  }

  function Complete(s: Srv, id: nat, r: WaitRes): Srv {
    s.(got := Give(s.got, id, r), finishing := s.finishing + {id})
  }

  function CompleteIf(s: Srv, id: nat, r: Option<WaitRes>): Srv {
    if r.Some? then Complete(s, id, r.value) else s
  }

  ghost predicate Known(s: Srv) {
    && (forall id: nat :: id in s.objs <==> id < s.next)
    && s.got.Keys == s.objs.Keys
    && (forall k :: 0 <= k < |s.ops| ==> s.ops[k].id in s.objs)
  }

  function Create(s: Srv, client: nat): Srv {
    var s1 := s.(ops := s.ops + [Waiter(s.next, client)], next := s.next + 1,
                 objs := s.objs[s.next := OpObj(false, false, false)], got := s.got[s.next := []]);
    if s.ops == [] then Start(s1, s.next) else s1
  }

  function OnTimeout(s: Srv, id: nat): Srv {
    if !Waits(s.ops, id) || id !in s.objs then s.(first := Strike(s.first, [id], ByTimer))
    else
      var s1 := CancelObj(s, id, true).(first := Strike(s.first, [id], ByTimer));
      var s2 := if id != s.ops[0].id then s1.(ops := WithoutId(s.ops, id)) else s1;
      CompleteIf(s2, id, CancelRes(s.objs[id], true))
  }

  ghost function OnCompleted(s: Srv, id: nat): Srv
    requires Known(s)
  {
    var s1 := s.(finishing := s.finishing - {id});
    if s.ops == [] || s.ops[0].id != id then s1
    else
      var s2 := s1.(ops := s.ops[1..]);
      if s2.ops == [] then s2 else assert s2.ops[0] == s.ops[1]; Start(s2, s2.ops[0].id)
  }

  function MarkAll(objs: map<nat, OpObj>, ids: seq<nat>): map<nat, OpObj> {
    map id | id in objs :: if id in ids then Marked(objs[id], false) else objs[id]
  }

  /** These operations leave the list and complete. */
  function Dismiss(s: Srv, ops: seq<Waiter>, gone: seq<Waiter>): Srv {
    var ids := Ids(gone);
    s.(ops := ops, objs := MarkAll(s.objs, ids), got := GiveAll(s.got, ids, WCanceled),
       finishing := s.finishing + (set id | id in ids),
       first := Strike(s.first, ids, ByCaller))
  }

  function Dismissed(s: Srv, client: Option<nat>): Srv
    requires s.ops != []
  {
    Dismiss(s, [s.ops[0]] + Kept(s.ops[1..], client), Removed(s.ops[1..], client))
  }

  /** Every operation meant but the oldest is dismissed. The oldest is told to abort, if it is meant. */
  ghost function CancelAll(s: Srv, client: Option<nat>): Srv
    requires Known(s)
  {
    if s.ops == [] then s
    else
      var oldest, s1 := s.ops[0], Dismissed(s, client);
      if !Meant(oldest, client) then s1
      else
        var s2 := s1.(first := Strike(s1.first, [oldest.id], ByCaller));
        CompleteIf(CancelObj(s2, oldest.id, false), oldest.id, CancelRes(s2.objs[oldest.id], false))
  }

  function AcceptRes(o: OpObj, arrival: Arrival): WaitRes {
    if o.canceled then Code(o.byTimer) else if arrival.Connected? then WSuccess else WFailed
  }

  function Accepted(s: Srv, arrival: Arrival): Srv {
    match s.accepting
    case Some(id) =>
      var s1 := s.(accepting := None, first := Strike(s.first, [id], Arrived(arrival)));
      if id in s.objs then Complete(s1, id, AcceptRes(s.objs[id], arrival)) else s
    case None => s
  }

  // ----- runs -----

  datatype Event =
    | CreatePipe(client: nat) | TimerFired(id: nat) | OpCompleted(id: nat)
    | CancelPending(whose: Option<nat>) | AcceptHandler(arrival: Arrival)

  /** A timer may fire for any operation there has been, cancelled or not. */
  ghost predicate Enabled(s: Srv, ev: Event) {
    && Known(s)
    && match ev
       case TimerFired(id) => id < s.next
       case OpCompleted(id) => id in s.finishing
       case AcceptHandler(_) => s.accepting.Some?
       case _ => true
  }

  ghost function Next(s: Srv, ev: Event): Srv
    requires Enabled(s, ev)
  {
    match ev
    case CreatePipe(client) => Create(s, client)
    case TimerFired(id) => OnTimeout(s, id)
    case OpCompleted(id) => OnCompleted(s, id)
    case CancelPending(whose) => CancelAll(s, whose)
    case AcceptHandler(arrival) => Accepted(s, arrival)
  }

  ghost predicate Step(s: Srv, s': Srv) {
    exists ev :: Enabled(s, ev) && s' == Next(s, ev)
  }

  ghost predicate IsRun(tr: seq<Srv>) {
    |tr| > 0 && tr[0] == NEW_SRV && forall i :: 0 <= i < |tr| - 1 ==> Step(tr[i], tr[i + 1])
  }

  // ----- the invariant -----

  ghost predicate WaitsItsTurn(s: Srv, id: nat) {
    && id in s.objs && !s.objs[id].started && !s.objs[id].canceled
    && id in s.got && s.got[id] == []
  }

  /** The oldest operation has been started; no other has been started or cancelled. */
  ghost predicate Disciplined(s: Srv)
    requires Known(s)
  {
    && Increasing(s.ops)
    && (s.ops != [] ==> s.objs[s.ops[0].id].started)
    && (forall k :: 0 < k < |s.ops| ==> WaitsItsTurn(s, s.ops[k].id))
  }

  /** The accept outstanding is the oldest operation's; without one, that operation is done. */
  ghost predicate AcceptorOk(s: Srv)
    requires Known(s)
  {
    && (s.accepting.Some? ==> s.ops != [] && s.accepting.value == s.ops[0].id)
    && (s.ops != [] ==>
          && (s.accepting.Some? <==> s.got[s.ops[0].id] == [])
          && (s.accepting.None? ==> s.ops[0].id in s.finishing))
  }

  ghost predicate PromiseOk(s: Srv, id: nat)
    requires id in s.got
  {
    |s.got[id]| <= 1 && (s.got[id] == [] ==> Waits(s.ops, id))
  }

  ghost predicate FinishingOk(s: Srv) {
    forall id :: id in s.finishing ==> id in s.got && s.got[id] != []
  }

  ghost predicate AbortsOk(s: Srv) {
    forall a :: a in s.aborts ==> a.outstanding.None? || a.outstanding.value == a.who
  }

  /** How an operation ends that was struck by this cause first. */
  function EndOf(cause: Cause): WaitRes {
    match cause
    case ByTimer => WTimeout
    case ByCaller => WCanceled
    case Arrived(arrival) => if arrival.Connected? then WSuccess else WFailed
  }

  function FirstCause(first: map<nat, Cause>, id: nat): Option<Cause> {
    if id in first then Some(first[id]) else None
  }

  /** An operation is cancelled or done only if something struck it; what did so first decides its end. */
  predicate FateOk(o: OpObj, given: seq<WaitRes>, first: Option<Cause>) {
    && (first.Some? <==> o.canceled || given != [])
    && (given == [] && o.canceled ==> first == Some(By(o.byTimer)))
    && (given != [] ==> first.Some? && given == [EndOf(first.value)])
  }

  ghost predicate EndsAsStruck(s: Srv, id: nat)
    requires id in s.got && id in s.objs
  {
    FateOk(s.objs[id], s.got[id], FirstCause(s.first, id))
  }

  ghost predicate CallOk(s: Srv, id: nat) {
    id in s.got && id in s.objs && PromiseOk(s, id) && EndsAsStruck(s, id)
  }

  ghost predicate QueueOk(s: Srv) {
    Known(s) && Disciplined(s) && AcceptorOk(s)
  }

  ghost predicate Inv(s: Srv) {
    && QueueOk(s) && FinishingOk(s) && AbortsOk(s) && s.first.Keys <= s.objs.Keys
    && (forall id :: id in s.got ==> CallOk(s, id))
  }

  // ----- each event keeps it -----

  lemma CreateQueue(s: Srv, client: nat)
    requires QueueOk(s)
    ensures QueueOk(Create(s, client))
  {
    assert s.next !in s.objs;
    assert forall k :: 0 <= k < |s.ops| ==> s.ops[k].id != s.next;
  }

  lemma CreateKeeps(s: Srv, client: nat)
    requires Inv(s)
    ensures Inv(Create(s, client))
  {
    var s' := Create(s, client);
    CreateQueue(s, client);
    forall id | id in s'.got
      ensures CallOk(s', id)
    {
      CreateFate(s, client, id);
    }
  }

  lemma CreateFate(s: Srv, client: nat, id: nat)
    requires Known(s) && s.next !in s.first && id <= s.next
    requires id < s.next ==> CallOk(s, id)
    ensures CallOk(Create(s, client), id)
  {
    WaitsLast(s.ops, Waiter(s.next, client), id);
  }

  lemma AcceptQueueKeeps(s: Srv, arrival: Arrival)
    requires QueueOk(s) && s.accepting.Some?
    ensures var s' := Accepted(s, arrival); QueueOk(s')
  {
  }

  lemma AcceptFate(s: Srv, arrival: Arrival, id: nat)
    requires s.accepting.Some? && s.accepting.value in s.objs
    requires s.accepting.value in s.got && s.got[s.accepting.value] == []
    requires CallOk(s, id)
    ensures CallOk(Accepted(s, arrival), id)
  {
  }

  lemma AcceptKeeps(s: Srv, arrival: Arrival)
    requires Inv(s) && s.accepting.Some?
    ensures Inv(Accepted(s, arrival))
  {
    var s' := Accepted(s, arrival);
    AcceptQueueKeeps(s, arrival);
    forall id | id in s'.got
      ensures CallOk(s', id)
    {
      AcceptFate(s, arrival, id);
    }
  }

  lemma OnCompletedQueue(s: Srv, id: nat)
    requires QueueOk(s) && id in s.got && s.got[id] != []
    ensures var s' := OnCompleted(s, id); QueueOk(s')
  {
    if s.ops != [] && s.ops[0].id == id {
      PopQueue(s);
    }
  }

  /** The oldest operation leaves, and the next one is started. */
  lemma PopQueue(s: Srv)
    requires QueueOk(s) && s.ops != [] && s.accepting.None?
    ensures var s' := OnCompleted(s, s.ops[0].id); QueueOk(s')
  {
    var s' := OnCompleted(s, s.ops[0].id);
    assert forall k :: 0 <= k < |s'.ops| ==> s'.ops[k] == s.ops[k + 1];
    assert |s.ops| > 1 ==> WaitsItsTurn(s, s.ops[1].id);
    forall k | 0 < k < |s'.ops|
      ensures WaitsItsTurn(s', s'.ops[k].id)
    {
      assert WaitsItsTurn(s, s.ops[k + 1].id);
    }
  }

  lemma OnCompletedKeeps(s: Srv, id: nat)
    requires Inv(s) && id in s.finishing
    ensures Inv(OnCompleted(s, id))
  {
    var s' := OnCompleted(s, id);
    OnCompletedQueue(s, id);
    forall q | q in s'.got
      ensures CallOk(s', q)
    {
      OnCompletedPromise(s, id, q);
    }
  }

  lemma OnCompletedPromise(s: Srv, id: nat, q: nat)
    requires Known(s) && id in s.got && s.got[id] != [] && q in s.got && CallOk(s, q)
    ensures CallOk(OnCompleted(s, id), q)
  {
    if s.ops != [] {
      WaitsTail(s.ops, q);
    }
  }

  /** Cancelling the oldest operation: it has been started, so only its flags and the histories change. */
  ghost function OldestCanceled(s: Srv, byTimer: bool): Srv
    requires s.ops != [] && s.ops[0].id in s.objs
  {
    CancelObj(s, s.ops[0].id, byTimer).(first := Strike(s.first, [s.ops[0].id], By(byTimer)))
  }

  lemma OldestKeeps(s: Srv, byTimer: bool)
    requires Inv(s) && s.ops != []
    ensures s.ops[0].id in s.objs && Inv(OldestCanceled(s, byTimer))
  {
    var s' := OldestCanceled(s, byTimer);
    OldestQueue(s, byTimer);
    forall q | q in s'.got
      ensures CallOk(s', q)
    {
      OldestFate(s, byTimer, q);
    }
  }

  lemma OldestQueue(s: Srv, byTimer: bool)
    requires QueueOk(s) && AbortsOk(s) && s.ops != []
    ensures var s' := OldestCanceled(s, byTimer); QueueOk(s') && AbortsOk(s')
  {
  }

  lemma OldestFate(s: Srv, byTimer: bool, id: nat)
    requires s.ops != [] && s.ops[0].id in s.objs && CallOk(s, id)
    ensures CallOk(OldestCanceled(s, byTimer), id)
  {
  }

  ghost predicate LeaveList(ops: seq<Waiter>, ops': seq<Waiter>, gone: seq<Waiter>) {
    && ops != [] && ops' != [] && ops'[0] == ops[0] && Increasing(ops') && Increasing(gone)
    && (forall w :: w in ops <==> w in ops' || w in gone)
    && (forall w :: w in gone ==> w !in ops')
  }

  ghost predicate LeaveBooks(s: Srv, s': Srv, gone: seq<Waiter>, byTimer: bool) {
    && s'.objs.Keys == s.objs.Keys
    && (forall id :: id in s.objs ==>
          s'.objs[id] == if id in Ids(gone) then Marked(s.objs[id], byTimer) else s.objs[id])
    && s'.got.Keys == s.got.Keys
    && (forall id :: id in s.got ==> s'.got[id] == if id in Ids(gone) then s.got[id] + [Code(byTimer)] else s.got[id])
    && (forall id :: id in s'.finishing <==> id in s.finishing || id in Ids(gone))
    && s'.next == s.next && s'.accepting == s.accepting && s'.aborts == s.aborts
    && s'.first == Strike(s.first, Ids(gone), By(byTimer))
  }

  /** Some operations that wait for their turn leave the list, are marked and complete. */
  ghost predicate Leave(s: Srv, s': Srv, gone: seq<Waiter>, byTimer: bool) {
    LeaveList(s.ops, s'.ops, gone) && LeaveBooks(s, s', gone, byTimer)
  }

  lemma OthersWait(s: Srv, w: Waiter)
    requires Known(s) && Disciplined(s) && w in s.ops && w != s.ops[0]
    ensures WaitsItsTurn(s, w.id) && w.id != s.ops[0].id
  {
    var k :| 0 <= k < |s.ops| && s.ops[k] == w;
    assert 0 < k;
  }

  lemma GoneWereWaiting(s: Srv, s': Srv, gone: seq<Waiter>, byTimer: bool, id: nat)
    requires QueueOk(s) && Leave(s, s', gone, byTimer)
    ensures Waits(s.ops, id) <==> Waits(s'.ops, id) || Waits(gone, id)
    ensures !(Waits(s'.ops, id) && Waits(gone, id))
    ensures Waits(gone, id) ==> id in s.objs && !s.objs[id].canceled && s.got[id] == [] && id != s.ops[0].id
  {
    WaitsSplit(s.ops, s'.ops, gone, id);
    IdsAre(gone, id);
    if Waits(gone, id) {
      WaitsIn(gone, id);
      var w :| w in gone && w.id == id;
      assert w in s.ops && s.ops[0] in s'.ops && w != s.ops[0];
      OthersWait(s, w);
    }
  }

  lemma LeaveFates(s: Srv, s': Srv, gone: seq<Waiter>, byTimer: bool, id: nat)
    requires LeaveBooks(s, s', gone, byTimer) && id in s.got && id in s.objs && EndsAsStruck(s, id)
    requires id in Ids(gone) ==> s.got[id] == [] && !s.objs[id].canceled
    ensures EndsAsStruck(s', id)
  {
    assert FirstCause(s'.first, id)
        == if id in s.first || id !in Ids(gone) then FirstCause(s.first, id) else Some(By(byTimer));
  }

  lemma LeaveCalls(s: Srv, s': Srv, gone: seq<Waiter>, byTimer: bool, id: nat)
    requires QueueOk(s) && Leave(s, s', gone, byTimer) && CallOk(s, id)
    ensures CallOk(s', id)
  {
    GoneWereWaiting(s, s', gone, byTimer, id);
    IdsAre(gone, id);
    LeaveFates(s, s', gone, byTimer, id);
  }

  lemma LeaveQueue(s: Srv, s': Srv, gone: seq<Waiter>, byTimer: bool)
    requires QueueOk(s) && Leave(s, s', gone, byTimer)
    ensures QueueOk(s')
  {
    GoneWereWaiting(s, s', gone, byTimer, s.ops[0].id);
    IdsAre(gone, s.ops[0].id);
    forall k | 0 < k < |s'.ops|
      ensures WaitsItsTurn(s', s'.ops[k].id)
    {
      LeftWaits(s, s', gone, byTimer, k);
    }
  }

  lemma LeftWaits(s: Srv, s': Srv, gone: seq<Waiter>, byTimer: bool, k: nat)
    requires QueueOk(s) && Leave(s, s', gone, byTimer) && 0 < k < |s'.ops|
    ensures WaitsItsTurn(s', s'.ops[k].id)
  {
    var w := s'.ops[k];
    assert w in s'.ops && w.id > s'.ops[0].id;
    OthersWait(s, w);
    GoneWereWaiting(s, s', gone, byTimer, w.id);
    IdsAre(gone, w.id);
  }

  lemma LeaveFinishes(s: Srv, s': Srv, gone: seq<Waiter>, byTimer: bool)
    requires QueueOk(s) && Leave(s, s', gone, byTimer) && FinishingOk(s) && s.first.Keys <= s.objs.Keys
    ensures FinishingOk(s') && s'.first.Keys <= s'.objs.Keys
  {
    forall id | id in Ids(gone)
      ensures id in s'.objs && id in s'.got && s'.got[id] != []
    {
      IdsAre(gone, id);
      GoneWereWaiting(s, s', gone, byTimer, id);
    }
  }

  lemma LeaveKeeps(s: Srv, s': Srv, gone: seq<Waiter>, byTimer: bool)
    requires Inv(s) && Leave(s, s', gone, byTimer)
    ensures Inv(s')
  {
    LeaveQueue(s, s', gone, byTimer);
    forall id | id in s'.got
      ensures CallOk(s', id)
    {
      LeaveCalls(s, s', gone, byTimer, id);
    }
    LeaveFinishes(s, s', gone, byTimer);
  }

  /** A timer that fires for an operation no longer in the list comes too late to strike it first. */
  lemma LateTimer(s: Srv, id: nat)
    requires Inv(s) && id < s.next && !Waits(s.ops, id)
    ensures OnTimeout(s, id) == s
  {
    assert CallOk(s, id);
    assert Strike(s.first, [id], ByTimer) == s.first;
  }

  lemma TimeoutKeeps(s: Srv, id: nat)
    requires Inv(s) && id < s.next
    ensures Inv(OnTimeout(s, id))
  {
    if !Waits(s.ops, id) {
      LateTimer(s, id);
    } else if id == s.ops[0].id {
      OldestKeeps(s, true);
    } else {
      WaitsIn(s.ops, id);
      var w :| w in s.ops && w.id == id;
      TimeoutLeaves(s, w);
      LeaveKeeps(s, OnTimeout(s, id), [w], true);
    }
  }

  lemma TimeoutLeaves(s: Srv, w: Waiter)
    requires Inv(s) && w in s.ops && w.id != s.ops[0].id && Waits(s.ops, w.id)
    ensures Leave(s, OnTimeout(s, w.id), [w], true)
  {
    TimeoutIsExact(s.ops, w.id);
    OneWaiter(s.ops, w.id);
    assert s.ops[0] in s.ops;
    FirstStays(s.ops, WithoutId(s.ops, w.id));
    OthersWait(s, w);
    TimeoutBooks(s, w);
  }

  lemma TimeoutBooks(s: Srv, w: Waiter)
    requires Waits(s.ops, w.id) && w.id != s.ops[0].id && WaitsItsTurn(s, w.id)
    ensures LeaveBooks(s, OnTimeout(s, w.id), [w], true)
  {
    assert Ids([w]) == [w.id];
  }

  /** Taking others out leaves the oldest first. */
  lemma FirstStays(ws: seq<Waiter>, ws': seq<Waiter>)
    requires Increasing(ws) && Increasing(ws') && ws != [] && ws[0] in ws' && forall w :: w in ws' ==> w in ws
    ensures ws' != [] && ws'[0] == ws[0]
  {
    assert ws'[0] in ws;
  }

  lemma CancelQueue(s: Srv, client: Option<nat>)
    requires s.ops != [] && Increasing(s.ops)
    ensures var kept, gone := [s.ops[0]] + Kept(s.ops[1..], client), Removed(s.ops[1..], client);
            && Increasing(kept) && Increasing(gone)
            && (forall w :: w in s.ops <==> w in kept || w in gone)
            && (forall w :: w in gone ==> w !in kept && w != s.ops[0])
  {
    var rest := s.ops[1..];
    assert s.ops == [s.ops[0]] + rest;
    forall w | w in rest
      ensures w.id > s.ops[0].id
    {
      var k :| 0 <= k < |rest| && rest[k] == w;
      assert s.ops[k + 1] == w;
    }
    KeptIsExact(rest, client);
    RemovedIsExact(rest, client);
    AddFirst(s.ops[0], Kept(rest, client));
  }

  lemma AddFirst(w: Waiter, part: seq<Waiter>)
    requires Increasing(part) && forall v :: v in part ==> v.id > w.id
    ensures Increasing([w] + part)
  {
    assert forall k :: 0 <= k < |part| ==> part[k] in part;
  }

  lemma CancelBooks(got: map<nat, seq<WaitRes>>, gone: seq<Waiter>)
    requires Increasing(gone) && forall w :: w in gone ==> w.id in got && got[w.id] == []
    ensures var got' := GiveAll(got, Ids(gone), WCanceled);
            && got'.Keys == got.Keys
            && forall id :: id in got ==> got'[id] == if id in Ids(gone) then got[id] + [WCanceled] else got[id]
  {
    forall id: nat | id in Ids(gone)
      ensures id in got && got[id] == []
    {
      IdsAre(gone, id);
      WaitsIn(gone, id);
    }
    GiveAllIs(got, Ids(gone), WCanceled, 0);
    forall id | id in got
      ensures GiveAll(got, Ids(gone), WCanceled)[id] == if id in Ids(gone) then got[id] + [WCanceled] else got[id]
    {
      IdsAre(gone, id);
      GivenToThose(got, gone, WCanceled, id);
    }
  }

  lemma DismissBooks(s: Srv, ops: seq<Waiter>, gone: seq<Waiter>)
    requires Increasing(gone) && forall w :: w in gone ==> w.id in s.got && s.got[w.id] == []
    ensures LeaveBooks(s, Dismiss(s, ops, gone), gone, false)
  {
    CancelBooks(s.got, gone);
    MarkAllIs(s.objs, Ids(gone));
  }

  lemma MarkAllIs(objs: map<nat, OpObj>, ids: seq<nat>)
    ensures MarkAll(objs, ids).Keys == objs.Keys
    ensures forall id :: id in objs ==>
              MarkAll(objs, ids)[id] == if id in ids then Marked(objs[id], false) else objs[id]
  {
  }

  lemma CancelLeaves(s: Srv, client: Option<nat>)
    requires Known(s) && Disciplined(s) && s.ops != []
    ensures Leave(s, Dismissed(s, client), Removed(s.ops[1..], client), false)
  {
    CancelQueue(s, client);
    forall w | w in Removed(s.ops[1..], client)
      ensures WaitsItsTurn(s, w.id)
    {
      OthersWait(s, w);
    }
    DismissBooks(s, [s.ops[0]] + Kept(s.ops[1..], client), Removed(s.ops[1..], client));
  }

  lemma CancelKeeps(s: Srv, client: Option<nat>)
    requires Inv(s)
    ensures Inv(CancelAll(s, client))
  {
    if s.ops != [] {
      var s1 := Dismissed(s, client);
      CancelLeaves(s, client);
      LeaveKeeps(s, s1, Removed(s.ops[1..], client), false);
      OldestKeeps(s1, false);
    }
  }

  lemma EventKeeps(s: Srv, ev: Event)
    requires Inv(s) && Enabled(s, ev)
    ensures Inv(Next(s, ev))
  {
    match ev
    case CreatePipe(client) => CreateKeeps(s, client);
    case TimerFired(id) => TimeoutKeeps(s, id);
    case OpCompleted(id) => OnCompletedKeeps(s, id);
    case CancelPending(whose) => CancelKeeps(s, whose);
    case AcceptHandler(arrival) => AcceptKeeps(s, arrival);
  }

  lemma {:induction false} Always(tr: seq<Srv>, i: nat)
    requires IsRun(tr) && i < |tr|
    ensures Inv(tr[i])
  {
    if i > 0 {
      Always(tr, i - 1);
      assert Step(tr[i - 1], tr[i]);
      var ev :| Enabled(tr[i - 1], ev) && tr[i] == Next(tr[i - 1], ev);
      EventKeeps(tr[i - 1], ev);
    }
  }

  // ----- the promises -----

  /**
   In every run the oldest operation is started and the others are neither started nor cancelled,
   and the only accept outstanding is the oldest one's. So the two assertions of start() hold
   whenever on_completed reaches it.
   */
  lemma OneAcceptAtATime(tr: seq<Srv>, i: nat)
    requires IsRun(tr) && i < |tr|
    ensures Known(tr[i]) && Disciplined(tr[i])
    ensures tr[i].accepting.Some? ==> tr[i].ops != [] && tr[i].accepting.value == tr[i].ops[0].id
    ensures |tr[i].ops| > 1 ==>
              && tr[i].ops[1].id in tr[i].objs
              && !tr[i].objs[tr[i].ops[1].id].started && !tr[i].objs[tr[i].ops[1].id].canceled
  {
    Always(tr, i);
    assert |tr[i].ops| > 1 ==> WaitsItsTurn(tr[i], tr[i].ops[1].id);
  }

  /** Cancelling the acceptor aborts the accept of the operation that asked for it, or none at all. */
  lemma AbortsHitTheirTarget(tr: seq<Srv>, i: nat, a: Abort)
    requires IsRun(tr) && i < |tr| && a in tr[i].aborts
    ensures a.outstanding.None? || a.outstanding.value == a.who
  {
    Always(tr, i);
  }

  /** The event strikes the operation: its timer fires, a caller cancels it, or its accept handler runs. */
  ghost predicate Strikes(s: Srv, ev: Event, id: nat) {
    match ev
    case TimerFired(x) => x == id
    case CancelPending(whose) =>
      exists k :: 0 <= k < |s.ops| && s.ops[k].id == id && (whose.None? || s.ops[k].client == whose.value)
    case AcceptHandler(_) => s.accepting == Some(id)
    case _ => false
  }

  function CauseOf(ev: Event): Cause {
    match ev
    case TimerFired(_) => ByTimer
    case AcceptHandler(arrival) => Arrived(arrival)
    case _ => ByCaller
  }

  ghost predicate Struck(s: Srv, ev: Event, s': Srv, id: nat) {
    && (id in s'.first <==> id in s.first || Strikes(s, ev, id))
    && (id in s.first ==> id in s'.first && s'.first[id] == s.first[id])
    && (id in s'.first && id !in s.first ==> s'.first[id] == CauseOf(ev))
  }

  lemma CancelStrikes(ops: seq<Waiter>, whose: Option<nat>, id: nat)
    requires ops != [] && Increasing(ops[1..])
    ensures (exists k :: 0 <= k < |ops| && ops[k].id == id && Meant(ops[k], whose)) <==>
              id in Ids(Removed(ops[1..], whose)) || (id == ops[0].id && Meant(ops[0], whose))
  {
    var rest := ops[1..];
    var gone := Removed(rest, whose);
    RemovedIsExact(rest, whose);
    IdsAre(gone, id);
    WaitsIn(gone, id);
    if k :| 0 < k < |ops| && ops[k].id == id && Meant(ops[k], whose) {
      assert rest[k - 1] in gone;
    }
    if id in Ids(gone) {
      var w :| w in gone && w.id == id;
      var k :| 0 <= k < |rest| && rest[k] == w;
      assert ops[k + 1] == w;
    }
  }

  lemma CancelHistory(s: Srv, whose: Option<nat>, id: nat)
    requires Known(s) && Increasing(s.ops)
    ensures Struck(s, CancelPending(whose), CancelAll(s, whose), id)
  {
    if s.ops != [] {
      CancelStrikes(s.ops, whose, id);
      CancelNotes(s, whose, id);
    }
  }

  lemma CancelNotes(s: Srv, whose: Option<nat>, id: nat)
    requires Known(s) && s.ops != []
    ensures var struck := id in Ids(Removed(s.ops[1..], whose)) || (id == s.ops[0].id && Meant(s.ops[0], whose));
            && (id in CancelAll(s, whose).first <==> id in s.first || struck)
            && (id in s.first ==> CancelAll(s, whose).first[id] == s.first[id])
            && (id !in s.first && struck ==> CancelAll(s, whose).first[id] == ByCaller)
  {
  }

  /** The history is true: an event notes exactly the operations it strikes, and a first cause stands. */
  lemma HistoryIsTrue(tr: seq<Srv>, i: nat, ev: Event, id: nat)
    requires IsRun(tr) && i < |tr| && Enabled(tr[i], ev)
    ensures Struck(tr[i], ev, Next(tr[i], ev), id)
  {
    var s := tr[i];
    Always(tr, i);
    match ev
    case CancelPending(whose) => CancelHistory(s, whose, id);
    case AcceptHandler(arrival) => AcceptHistory(s, arrival, id);
    case TimerFired(q) => TimerHistory(s, q, id);
    case CreatePipe(_) =>
    case OpCompleted(_) =>
  }

  lemma TimerHistory(s: Srv, q: nat, id: nat)
    ensures Struck(s, TimerFired(q), OnTimeout(s, q), id)
  {
  }

  lemma AcceptHistory(s: Srv, arrival: Arrival, id: nat)
    requires s.accepting.Some? && s.accepting.value in s.objs
    ensures Struck(s, AcceptHandler(arrival), Accepted(s, arrival), id)
  {
  }

  /**
   Each create promise gets exactly one result: it is in the list or has got it. The result is
   decided by what struck the operation first: success means that a connection arrived for it, and
   failed that its accept failed, before its timer fired or a caller cancelled it; timeout and
   canceled mean that its timer or a caller came before anything else. When no accept is
   outstanding and every completion has been noticed, the list is empty: no operation is stranded.
   */
  lemma EachCreateEndsOnce(tr: seq<Srv>, i: nat, id: nat)
    requires IsRun(tr) && i < |tr| && id < tr[i].next
    ensures id in tr[i].got && |tr[i].got[id]| <= 1
    ensures tr[i].got[id] == [] ==> Waits(tr[i].ops, id)
    ensures tr[i].got[id] != [] ==> id in tr[i].first && tr[i].got[id] == [EndOf(tr[i].first[id])]
    ensures tr[i].accepting.None? && tr[i].finishing == {} ==> tr[i].ops == [] && |tr[i].got[id]| == 1
  {
    Always(tr, i);
    assert CallOk(tr[i], id);
  }
}
