/** The in-memory pipe environment: clients and servers waiting for one another. */
module Rendezvous {
  import opened Prelude
  import opened Ledger
  import opened Waiters

  /** One end of buffer pair `pair`. */
  datatype WaitDone = Paired(isServer: bool, pair: nat) | TimedOut | Cancelled

  /**
   `next` numbers the calls. `got` is, for every call, what it has been given, `role` whether it
   was a server. `pairs` is, for every buffer pair made, the server and the client it went to.
   */
  datatype Env = Env(
    clients: seq<Waiter>, servers: seq<Waiter>, next: nat,
    got: map<nat, seq<WaitDone>>, role: map<nat, bool>, pairs: seq<(nat, nat)>)

  const NEW_ENV: Env := Env([], [], 0, map[], map[], [])

  // ----- the blocks -----

  function Queue(e: Env, isServer: bool): seq<Waiter> {
    if isServer then e.servers else e.clients
  }

  function SetQueue(e: Env, isServer: bool, ws: seq<Waiter>): Env {
    if isServer then e.(servers := ws) else e.(clients := ws)
  }

  function Wait(e: Env, isServer: bool, client: nat): Env {
    SetQueue(e, isServer, Queue(e, isServer) + [Waiter(e.next, client)])
    .(next := e.next + 1, got := e.got[e.next := []], role := e.role[e.next := isServer])
  }

  function Pair(e: Env, isServer: bool): Env
    requires Queue(e, !isServer) != []
  {
    var other := Queue(e, !isServer);
    var mate, pair := other[0].id, |e.pairs|;
    SetQueue(e, !isServer, other[1..])
    .(next := e.next + 1,
      got := Give(e.got, mate, Paired(!isServer, pair))[e.next := [Paired(isServer, pair)]],
      role := e.role[e.next := isServer],
      pairs := e.pairs + [if isServer then (e.next, mate) else (mate, e.next)])
  }

  function NewEnd(e: Env, isServer: bool, client: nat): Env {
    if Queue(e, !isServer) == [] then Wait(e, isServer, client) else Pair(e, isServer)
  }

  function Cancel(e: Env, isServer: bool, client: Option<nat>): Env {
    var ws := Queue(e, isServer);
    SetQueue(e, isServer, Kept(ws, client)).(got := GiveAll(e.got, Ids(Removed(ws, client)), Cancelled))
  }

  function Expire(e: Env, isServer: bool, id: nat): Env {
    var ws := Queue(e, isServer);
    if Waits(ws, id) then SetQueue(e, isServer, WithoutId(ws, id)).(got := Give(e.got, id, TimedOut)) else e
  }

  // ----- the code -----

  class MemPipeEnv {
    var clients: seq<Waiter>
    var servers: seq<Waiter>
    var next: nat
    var got: map<nat, seq<WaitDone>>
    ghost var role: map<nat, bool>
    ghost var pairs: seq<(nat, nat)>
    var pairCount: nat

    ghost predicate Valid()
      reads this
    {
      pairCount == |pairs|
    }

    ghost function View(): Env
      reads this
    {
      Env(clients, servers, next, got, role, pairs)
    }

    constructor ()
      ensures Valid() && View() == NEW_ENV
    {
      clients, servers, next, got, role, pairs, pairCount := [], [], 0, map[], map[], [], 0;
    }

    method SetOwn(isServer: bool, ws: seq<Waiter>)
      modifies this`clients, this`servers
      ensures View() == SetQueue(old(View()), isServer, ws)
    {
      if isServer {
        servers := ws;
      } else {
        clients := ws;
      }
    }

    method CreateNewPipeEnd(isServer: bool, client: nat) returns (id: nat)
      requires Valid()
      modifies this
      ensures Valid() && id == old(next)
      ensures View() == NewEnd(old(View()), isServer, client)
    {
      var own, other := if isServer then servers else clients, if isServer then clients else servers;
      id := next;
      next := next + 1;
      role := role[id := isServer];
      if other == [] {
        got := got[id := []];
        SetOwn(isServer, own + [Waiter(id, client)]);
        return;
      }
      var pair, mate := pairCount, other[0].id;
      pairCount := pairCount + 1;
      pairs := pairs + [if isServer then (id, mate) else (mate, id)];
      SetOwn(!isServer, other[1..]);
      got := Give(got, mate, Paired(!isServer, pair));
      got := got[id := [Paired(isServer, pair)]];
    }

    method CancelPendingEndpoints(isServer: bool, client: Option<nat>)
      modifies this`clients, this`servers, this`got
      ensures View() == Cancel(old(View()), isServer, client)
    {
      var q, promises := EraseMeant(if isServer then servers else clients, client);
      SetOwn(isServer, q);
      got := SetAll(got, Ids(promises), Cancelled);
    }

    method RemovePromiseByTimeout(isServer: bool, id: nat)
      modifies this`clients, this`servers, this`got
      ensures View() == Expire(old(View()), isServer, id)
    {
      var ws := if isServer then servers else clients;
      if exists k :: 0 <= k < |ws| && ws[k].id == id {
        SetOwn(isServer, WithoutId(ws, id));
        got := Give(got, id, TimedOut);
      }
    }
  }

  // ----- runs -----

  datatype Event =
    | Create(isServer: bool, client: nat)
    | CancelAll(isServer: bool, whose: Option<nat>)
    | TimerFired(isServer: bool, id: nat)

  function Next(e: Env, ev: Event): Env {
    match ev
    case Create(isServer, client) => NewEnd(e, isServer, client)
    case CancelAll(isServer, whose) => Cancel(e, isServer, whose)
    case TimerFired(isServer, id) => Expire(e, isServer, id)
  }

  ghost predicate Step(e: Env, e': Env) {
    exists ev :: e' == Next(e, ev)
  }

  ghost predicate IsRun(tr: seq<Env>) {
    |tr| > 0 && tr[0] == NEW_ENV && forall i :: 0 <= i < |tr| - 1 ==> Step(tr[i], tr[i + 1])
  }

  // ----- the invariant -----

  ghost predicate OneSideWaits(e: Env) {
    e.clients == [] || e.servers == []
  }

  ghost predicate QueueOk(e: Env, isServer: bool) {
    var ws := Queue(e, isServer);
    Increasing(ws) && forall w :: w in ws ==> w.id in e.got && w.id in e.role && e.role[w.id] == isServer
  }

  /** Call id waits and has got nothing, or has got exactly one thing and waits no more. */
  ghost predicate CallOk(e: Env, id: nat)
    requires id in e.got
  {
    && |e.got[id]| <= 1
    && (Waits(e.clients, id) || Waits(e.servers, id) <==> e.got[id] == [])
  }

  /** A pair's two ends went to one server and one client, and to nobody else. */
  ghost predicate PairOk(e: Env, k: nat)
    requires k < |e.pairs|
  {
    var (s, c) := e.pairs[k];
    && s in e.got && e.got[s] == [Paired(true, k)] && s in e.role && e.role[s]
    && c in e.got && e.got[c] == [Paired(false, k)] && c in e.role && !e.role[c]
  }

  ghost predicate EndOk(e: Env, id: nat)
    requires id in e.got
  {
    |e.got[id]| == 1 && e.got[id][0].Paired? ==>
      var end := e.got[id][0];
      end.pair < |e.pairs| && id == if end.isServer then e.pairs[end.pair].0 else e.pairs[end.pair].1
  }

  ghost predicate Inv(e: Env) {
    && OneSideWaits(e) && QueueOk(e, true) && QueueOk(e, false)
    && (forall id: nat :: id in e.got <==> id < e.next)
    && (forall id :: id in e.got ==> CallOk(e, id) && EndOk(e, id))
    && (forall k :: 0 <= k < |e.pairs| ==> PairOk(e, k))
  }

  lemma WaitKeeps(e: Env, isServer: bool, client: nat)
    requires Inv(e) && Queue(e, !isServer) == []
    ensures Inv(Wait(e, isServer, client))
  {
    var e', w := Wait(e, isServer, client), Waiter(e.next, client);
    var ws := Queue(e, isServer);
    assert e.next !in e.got;
    assert Increasing(ws + [w]);
    forall id | id in e'.got
      ensures CallOk(e', id) && EndOk(e', id)
    {
      WaitsLast(ws, w, id);
      assert id != e.next ==> CallOk(e, id) && EndOk(e, id);
    }
    forall k | 0 <= k < |e'.pairs|
      ensures PairOk(e', k)
    {
      assert PairOk(e, k);
    }
  }

  /** The oldest waiter of the other side has got nothing yet, and waits only once. */
  lemma TheMate(e: Env, isServer: bool)
    requires Inv(e) && Queue(e, !isServer) != []
    ensures var mate := Queue(e, !isServer)[0].id;
            mate in e.got && e.got[mate] == [] && mate != e.next && mate in e.role && e.role[mate] == !isServer
    ensures Queue(e, isServer) == [] && e.next !in e.got
    ensures QueueOk(Pair(e, isServer), !isServer)
    ensures !Waits(Queue(e, !isServer), e.next)
  {
    NotWaiting(e, e.next);
    var other := Queue(e, !isServer);
    assert QueueOk(e, !isServer) && other[0] in other && Waits(other, other[0].id);
    assert CallOk(e, other[0].id);
  }

  lemma PairCall(e: Env, isServer: bool, id: nat)
    requires Queue(e, !isServer) != [] && Queue(e, isServer) == [] && Increasing(Queue(e, !isServer))
    requires var mate := Queue(e, !isServer)[0].id; mate in e.got && e.got[mate] == [] && mate != e.next
    requires id in e.got ==> CallOk(e, id)
    requires id == e.next || id in e.got
    requires !Waits(Queue(e, !isServer), e.next)
    ensures CallOk(Pair(e, isServer), id)
  {
    var other := Queue(e, !isServer);
    WaitsTail(other, id);
    assert !Waits(other[1..], other[0].id);
  }

  lemma PairEnd(e: Env, isServer: bool, id: nat)
    requires Queue(e, !isServer) != []
    requires var mate := Queue(e, !isServer)[0].id; mate in e.got && e.got[mate] == [] && mate != e.next
    requires id in e.got ==> EndOk(e, id)
    requires id == e.next || id in e.got
    ensures EndOk(Pair(e, isServer), id)
  {
  }

  lemma PairPair(e: Env, isServer: bool, k: nat)
    requires Queue(e, !isServer) != [] && k <= |e.pairs| && e.next !in e.got
    requires var mate := Queue(e, !isServer)[0].id;
             mate in e.got && e.got[mate] == [] && mate in e.role && e.role[mate] == !isServer
    requires k < |e.pairs| ==> PairOk(e, k)
    ensures PairOk(Pair(e, isServer), k)
  {
  }

  lemma PairKeeps(e: Env, isServer: bool)
    requires Inv(e) && Queue(e, !isServer) != []
    ensures Inv(Pair(e, isServer))
  {
    var e' := Pair(e, isServer);
    TheMate(e, isServer);
    forall id | id in e'.got
      ensures CallOk(e', id) && EndOk(e', id)
    {
      PairCall(e, isServer, id);
      PairEnd(e, isServer, id);
    }
    forall k | 0 <= k < |e'.pairs|
      ensures PairOk(e', k)
    {
      assert k < |e.pairs| ==> PairOk(e, k);
      PairPair(e, isServer, k);
    }
  }

  /** A call not made yet does not wait. */
  lemma NotWaiting(e: Env, id: nat)
    requires Inv(e)
    ensures Waits(e.clients, id) || Waits(e.servers, id) ==> id in e.got
  {
    WaitsIn(e.clients, id);
    WaitsIn(e.servers, id);
    assert QueueOk(e, true) && QueueOk(e, false);
  }

  /** Some waiters leave one queue and are given something that is no end of a pair. */
  ghost predicate Leave(e: Env, e': Env, isServer: bool, gone: seq<Waiter>, x: WaitDone) {
    && !x.Paired? && Increasing(gone) && Increasing(Queue(e', isServer))
    && (forall w :: w in Queue(e, isServer) <==> w in Queue(e', isServer) || w in gone)
    && (forall w :: w in gone ==> w !in Queue(e', isServer))
    && e' == SetQueue(e, isServer, Queue(e', isServer)).(got := GiveAll(e.got, Ids(gone), x))
  }

  lemma LeaveCall(e: Env, e': Env, isServer: bool, gone: seq<Waiter>, x: WaitDone, id: nat)
    requires Leave(e, e', isServer, gone, x) && QueueOk(e, isServer) && OneSideWaits(e)
    requires id in e.got && CallOk(e, id) && EndOk(e, id)
    ensures id in e'.got && CallOk(e', id) && EndOk(e', id)
    ensures e.got[id] != [] ==> e'.got[id] == e.got[id]
  {
    WaitsSplit(Queue(e, isServer), Queue(e', isServer), gone, id);
    GivenToThose(e.got, gone, x, id);
  }

  lemma LeaveKeeps(e: Env, e': Env, isServer: bool, gone: seq<Waiter>, x: WaitDone)
    requires Inv(e) && Leave(e, e', isServer, gone, x)
    ensures Inv(e')
  {
    assert QueueOk(e, isServer);
    forall q | q in Ids(gone)
      ensures q in e.got
    {
      var k :| 0 <= k < |gone| && Ids(gone)[k] == q;
      assert gone[k] in gone;
    }
    GiveAllIs(e.got, Ids(gone), x, 0);
    if Queue(e', isServer) != [] {
      assert Queue(e', isServer)[0] in Queue(e, isServer);
    }
    forall id | id in e'.got
      ensures CallOk(e', id) && EndOk(e', id)
    {
      LeaveCall(e, e', isServer, gone, x, id);
    }
    forall k | 0 <= k < |e'.pairs|
      ensures PairOk(e', k)
    {
      assert PairOk(e, k);
      LeaveCall(e, e', isServer, gone, x, e.pairs[k].0);
      LeaveCall(e, e', isServer, gone, x, e.pairs[k].1);
    }
  }

  lemma ExpireKeeps(e: Env, isServer: bool, id: nat)
    requires Inv(e)
    ensures Inv(Expire(e, isServer, id))
  {
    var ws := Queue(e, isServer);
    if Waits(ws, id) {
      WaitsIn(ws, id);
      var w :| w in ws && w.id == id;
      assert QueueOk(e, isServer);
      ExpireLeaves(e, isServer, w);
      LeaveKeeps(e, Expire(e, isServer, id), isServer, [w], TimedOut);
    }
  }

  lemma ExpireLeaves(e: Env, isServer: bool, w: Waiter)
    requires Increasing(Queue(e, isServer)) && w in Queue(e, isServer) && Waits(Queue(e, isServer), w.id)
    ensures Leave(e, Expire(e, isServer, w.id), isServer, [w], TimedOut)
  {
    TimeoutIsExact(Queue(e, isServer), w.id);
    OneWaiter(Queue(e, isServer), w.id);
    assert Ids([w]) == [w.id] && [w.id][..0] == [];
    assert GiveAll(e.got, [w.id], TimedOut) == Give(GiveAll(e.got, [], TimedOut), w.id, TimedOut);
  }

  lemma EventKeeps(e: Env, ev: Event)
    requires Inv(e)
    ensures Inv(Next(e, ev))
  {
    match ev
    case Create(isServer, client) =>
      if Queue(e, !isServer) == [] {
        WaitKeeps(e, isServer, client);
      } else {
        PairKeeps(e, isServer);
      }
    case CancelAll(isServer, whose) =>
      assert QueueOk(e, isServer);
      KeptIsExact(Queue(e, isServer), whose);
      RemovedIsExact(Queue(e, isServer), whose);
      LeaveKeeps(e, Cancel(e, isServer, whose), isServer, Removed(Queue(e, isServer), whose), Cancelled);
    case TimerFired(isServer, id) => ExpireKeeps(e, isServer, id);
  }

  lemma {:induction false} Always(tr: seq<Env>, i: nat)
    requires IsRun(tr) && i < |tr|
    ensures Inv(tr[i])
  {
    if i > 0 {
      Always(tr, i - 1);
      assert Step(tr[i - 1], tr[i]);
      var ev :| tr[i] == Next(tr[i - 1], ev);
      EventKeeps(tr[i - 1], ev);
    }
  }

  // ----- the promises -----

  /** Clients and servers never both wait, and both queues are in the order of arrival. */
  lemma NeverBothWaiting(tr: seq<Env>, i: nat)
    requires IsRun(tr) && i < |tr|
    ensures tr[i].clients == [] || tr[i].servers == []
    ensures Increasing(tr[i].clients) && Increasing(tr[i].servers)
  {
    Always(tr, i);
    assert QueueOk(tr[i], true) && QueueOk(tr[i], false);
  }

  /** Whoever arrives while the other side waits is paired with the one that has waited longest. */
  lemma OldestFirst(tr: seq<Env>, i: nat, isServer: bool, client: nat)
    requires IsRun(tr) && i < |tr| && Queue(tr[i], !isServer) != []
    ensures var e, e' := tr[i], Next(tr[i], Create(isServer, client));
            && |e'.pairs| == |e.pairs| + 1
            && var (s, c) := e'.pairs[|e.pairs|];
               && (if isServer then s else c) == e.next
               && (forall w :: w in Queue(e, !isServer) ==> (if isServer then c else s) <= w.id)
               && Queue(e', !isServer) == Queue(e, !isServer)[1..] && Queue(e', isServer) == Queue(e, isServer)
  {
    Always(tr, i);
    assert QueueOk(tr[i], !isServer);
  }

  /** Every call made waits or has got exactly one outcome, never both. */
  lemma EachCallEndsOnce(tr: seq<Env>, i: nat, id: nat)
    requires IsRun(tr) && i < |tr| && id < tr[i].next
    ensures id in tr[i].got
    ensures |tr[i].got[id]| == if Waits(tr[i].clients, id) || Waits(tr[i].servers, id) then 0 else 1
  {
    Always(tr, i);
    assert CallOk(tr[i], id);
  }

  /**
   The event ends call id with outcome x: its timer fires while it waits, a cancel means it while it
   waits, or a newcomer is paired with the call that has waited longest.
   */
  ghost predicate Ends(e: Env, ev: Event, id: nat, x: WaitDone) {
    match x
    case TimedOut => ev.TimerFired? && ev.id == id && Waits(Queue(e, ev.isServer), id)
    case Cancelled =>
      && ev.CancelAll?
      && exists w :: w in Queue(e, ev.isServer) && w.id == id && (ev.whose.None? || w.client == ev.whose.value)
    case Paired(isServer, k) =>
      && ev.Create? && Queue(e, !ev.isServer) != [] && k == |e.pairs|
      && id == if isServer == ev.isServer then e.next else Queue(e, !ev.isServer)[0].id
  }

  ghost predicate HasGot(e: Env, id: nat, x: WaitDone) {
    id in e.got && e.got[id] == [x]
  }

  lemma CreateEnds(e: Env, isServer: bool, client: nat, id: nat, x: WaitDone)
    requires Inv(e)
    ensures HasGot(NewEnd(e, isServer, client), id, x) <==>
              HasGot(e, id, x) || Ends(e, Create(isServer, client), id, x)
  {
    assert e.next !in e.got;
    if Queue(e, !isServer) != [] {
      TheMate(e, isServer);
      PairEnds(e, isServer, client, id, x);
    }
  }

  lemma PairEnds(e: Env, isServer: bool, client: nat, id: nat, x: WaitDone)
    requires Queue(e, !isServer) != [] && e.next !in e.got
    requires var mate := Queue(e, !isServer)[0].id; mate in e.got && e.got[mate] == []
    ensures HasGot(Pair(e, isServer), id, x) <==> HasGot(e, id, x) || Ends(e, Create(isServer, client), id, x)
  {
    var mate, k := Queue(e, !isServer)[0].id, |e.pairs|;
    var given := Pair(e, isServer).got;
    assert given[e.next] == [Paired(isServer, k)] && given[mate] == [Paired(!isServer, k)];
    assert id in e.got && id != mate ==> given[id] == e.got[id];
    assert [x] == [Paired(isServer, k)] ==> x == Paired(isServer, k);
    assert [x] == [Paired(!isServer, k)] ==> x == Paired(!isServer, k);
  }

  lemma LeaveEnds(e: Env, e': Env, isServer: bool, gone: seq<Waiter>, out: WaitDone, id: nat, x: WaitDone)
    requires Inv(e) && Leave(e, e', isServer, gone, out)
    ensures HasGot(e', id, x) <==> HasGot(e, id, x) || (x == out && Waits(gone, id))
  {
    LeaveKeeps(e, e', isServer, gone, out);
    WaitsIn(gone, id);
    assert QueueOk(e, isServer);
    if id in e.got {
      assert CallOk(e, id);
      WaitsSplit(Queue(e, isServer), Queue(e', isServer), gone, id);
      GivenToThose(e.got, gone, out, id);
    }
  }

  lemma CancelEnds(e: Env, isServer: bool, whose: Option<nat>, id: nat, x: WaitDone)
    requires Inv(e)
    ensures HasGot(Cancel(e, isServer, whose), id, x) <==>
              HasGot(e, id, x) || Ends(e, CancelAll(isServer, whose), id, x)
  {
    var ws := Queue(e, isServer);
    var gone := Removed(ws, whose);
    assert QueueOk(e, isServer);
    KeptIsExact(ws, whose);
    RemovedIsExact(ws, whose);
    LeaveEnds(e, Cancel(e, isServer, whose), isServer, gone, Cancelled, id, x);
    WaitsIn(gone, id);
  }

  lemma TimerEnds(e: Env, isServer: bool, q: nat, id: nat, x: WaitDone)
    requires Inv(e)
    ensures HasGot(Expire(e, isServer, q), id, x) <==>
              HasGot(e, id, x) || Ends(e, TimerFired(isServer, q), id, x)
  {
    var ws := Queue(e, isServer);
    if Waits(ws, q) {
      WaitsIn(ws, q);
      var w :| w in ws && w.id == q;
      assert QueueOk(e, isServer);
      ExpireLeaves(e, isServer, w);
      LeaveEnds(e, Expire(e, isServer, q), isServer, [w], TimedOut, id, x);
      WaitsIn([w], id);
    }
  }

  /** A call has an outcome after an event exactly when it had it before or the event ends it so. */
  lemma OutcomesAreTrue(e: Env, ev: Event, id: nat, x: WaitDone)
    requires Inv(e)
    ensures HasGot(Next(e, ev), id, x) <==> HasGot(e, id, x) || Ends(e, ev, id, x)
  {
    match ev
    case Create(isServer, client) => CreateEnds(e, isServer, client, id, x);
    case CancelAll(isServer, whose) => CancelEnds(e, isServer, whose, id, x);
    case TimerFired(isServer, q) => TimerEnds(e, isServer, q, id, x);
  }

  ghost predicate EndedAt(tr: seq<Env>, m: nat, id: nat, x: WaitDone)
    requires m + 1 < |tr|
  {
    exists ev :: tr[m + 1] == Next(tr[m], ev) && Ends(tr[m], ev, id, x)
  }

  lemma LastStepEnds(tr: seq<Env>, m: nat, id: nat, x: WaitDone)
    requires IsRun(tr) && m + 1 < |tr|
    ensures HasGot(tr[m + 1], id, x) <==> HasGot(tr[m], id, x) || EndedAt(tr, m, id, x)
  {
    Always(tr, m);
    assert Step(tr[m], tr[m + 1]);
    var ev :| tr[m + 1] == Next(tr[m], ev);
    OutcomesAreTrue(tr[m], ev, id, x);
    if EndedAt(tr, m, id, x) {
      var other :| tr[m + 1] == Next(tr[m], other) && Ends(tr[m], other, id, x);
      OutcomesAreTrue(tr[m], other, id, x);
    }
  }

  /**
   A call has timed out exactly when, at some step of the run so far, its timer fired while it was
   waiting; it is canceled exactly when a cancel meant it while it was waiting, and it has an end of
   a pair exactly when it arrived while the other side waited or was the one waiting longest.
   */
  lemma EachOutcomeHasItsCause(tr: seq<Env>, i: nat, id: nat, x: WaitDone)
    requires IsRun(tr) && i < |tr|
    ensures HasGot(tr[i], id, x) <==> exists m: nat :: m < i && EndedAt(tr, m, id, x)
  {
    var holds := seq(|tr|, k requires 0 <= k < |tr| => HasGot(tr[k], id, x));
    var brings := seq(|tr| - 1, k requires 0 <= k < |tr| - 1 => EndedAt(tr, k, id, x));
    forall k | 0 <= k < |brings|
      ensures holds[k + 1] <==> holds[k] || brings[k]
    {
      LastStepEnds(tr, k, id, x);
    }
    BroughtAbout(holds, brings, i);
    assert forall m: nat :: m < i ==> (brings[m] <==> EndedAt(tr, m, id, x));
  }

  /** Call w.id was made at step m, from that side and by that client. */
  ghost predicate CalledAt(tr: seq<Env>, m: nat, isServer: bool, w: Waiter)
    requires m + 1 < |tr|
  {
    tr[m].next == w.id && tr[m + 1] == Next(tr[m], Create(isServer, w.client))
  }

  lemma StepJoins(tr: seq<Env>, m: nat, isServer: bool, w: Waiter)
    requires IsRun(tr) && m + 1 < |tr| && w in Queue(tr[m + 1], isServer)
    ensures w in Queue(tr[m], isServer) || CalledAt(tr, m, isServer, w)
  {
    Always(tr, m);
    assert QueueOk(tr[m], isServer);
    assert Step(tr[m], tr[m + 1]);
    var ev :| tr[m + 1] == Next(tr[m], ev);
    match ev
    case Create(_, _) =>
    case CancelAll(side, whose) => KeptIsExact(Queue(tr[m], isServer), whose);
    case TimerFired(side, id) => TimeoutIsExact(Queue(tr[m], isServer), id);
  }

  /** Whoever waits made a call, of that side and with that client id, at an earlier step. */
  lemma WaitersAreWhoCalled(tr: seq<Env>, i: nat, isServer: bool, w: Waiter)
    requires IsRun(tr) && i < |tr| && w in Queue(tr[i], isServer)
    ensures exists m: nat :: m < i && CalledAt(tr, m, isServer, w)
  {
    var absent := seq(|tr|, k requires 0 <= k < |tr| => w !in Queue(tr[k], isServer));
    var joins := seq(|tr| - 1, k requires 0 <= k < |tr| - 1 => CalledAt(tr, k, isServer, w));
    forall k | 0 <= k < |joins|
      ensures absent[k] ==> absent[k + 1] || joins[k]
    {
      if w in Queue(tr[k + 1], isServer) {
        StepJoins(tr, k, isServer, w);
      }
    }
    KeptOrUndone(absent, joins, i);
    assert forall m: nat :: m < i ==> (joins[m] <==> CalledAt(tr, m, isServer, w));
  }

  /** A call that finds nobody on the other side waits last in its own queue, with nothing given to it. */
  lemma ArrivalsWait(tr: seq<Env>, i: nat, isServer: bool, client: nat)
    requires IsRun(tr) && i < |tr| && Queue(tr[i], !isServer) == []
    ensures var e, e' := tr[i], Next(tr[i], Create(isServer, client));
            && Queue(e', isServer) == Queue(e, isServer) + [Waiter(e.next, client)]
            && Queue(e', !isServer) == []
            && e.next in e'.got && e'.got[e.next] == [] && e'.next == e.next + 1
  {
  }

  /** The ends of a pair go to one server call and one client call, and no third call shares it. */
  lemma PairsAreShared(tr: seq<Env>, i: nat, k: nat, id: nat, isServer: bool)
    requires IsRun(tr) && i < |tr| && k < |tr[i].pairs|
    ensures PairOk(tr[i], k)
    ensures id in tr[i].got && tr[i].got[id] == [Paired(isServer, k)] ==>
              id == if isServer then tr[i].pairs[k].0 else tr[i].pairs[k].1
  {
    Always(tr, i);
    assert PairOk(tr[i], k);
    assert id in tr[i].got ==> EndOk(tr[i], id);
  }
}
