/**
 A TCP pipe endpoint: two directions over one socket, which a failure in either direction or its
 user may close at any time; and what two such endpoints tell each other.
 */
module TcpEndpoint {
  import opened Prelude
  import opened Bytes
  import opened TcpFraming
  import opened TcpDirection
  import opened TcpInvariant
  import opened TcpOldest

  datatype Closer = User | Failure

  /**
   `broken` and `closer` are history: the connection has failed while the socket was open, and
   whose event it was that found the socket open and left it closed.
   */
  datatype Ep = Ep(s: Sock, w: Dir, r: Dir, broken: bool, closer: Option<Closer>)

  datatype EpEvent = OnWrite(ev: Event) | OnRead(ev: Event) | Invalidate

  function NewEp(): Ep {
    Ep(Sock(true, false), NewDir(true), NewDir(false), false, None)
  }

  ghost predicate CanHappen(e: Ep, x: EpEvent) {
    match x
    case OnWrite(ev) => !ev.Close? && Enabled(e.w, e.s, ev)
    case OnRead(ev) => !ev.Close? && Enabled(e.r, e.s, ev)
    case Invalidate => true
  }

  function ClosedBy(e: Ep, s': Sock, who: Closer): Option<Closer> {
    if e.s.open && !s'.open then Some(who) else e.closer
  }

  ghost function Happen(e: Ep, x: EpEvent): Ep
    requires CanHappen(e, x)
  {
    match x
    case OnWrite(ev) =>
      var (w', s') := Next(e.w, e.s, ev);
      Ep(s', w', e.r, e.broken || (ev.Fault? && e.s.open), ClosedBy(e, s', Failure))
    case OnRead(ev) =>
      var (r', s') := Next(e.r, e.s, ev);
      Ep(s', e.w, r', e.broken || (ev.Fault? && e.s.open), ClosedBy(e, s', Failure))
    case Invalidate =>
      var s' := e.s.Closed(false);
      e.(s := s', closer := ClosedBy(e, s', User))
  }

  ghost predicate Step(e: Ep, e': Ep) {
    exists x :: CanHappen(e, x) && e' == Happen(e, x)
  }

  ghost predicate IsRun(tr: seq<Ep>) {
    |tr| > 0 && tr[0] == NewEp() && forall i :: 0 <= i < |tr| - 1 ==> Step(tr[i], tr[i + 1])
  }

  ghost predicate FaultKnown(e: Ep, d: Dir) {
    d.io.Ready? && !d.io.ok ==> e.broken || !e.s.open
  }

  /** The code's own flags say who closed the socket. */
  ghost predicate CloserOk(e: Ep) {
    e.closer == if e.s.open then None else if e.s.byFail then Some(Failure) else Some(User)
  }

  ghost predicate EpInv(e: Ep) {
    && e.w.write && !e.r.write && Inv(e.w, e.s) && Inv(e.r, e.s) && !e.w.bad
    && FaultKnown(e, e.w) && FaultKnown(e, e.r)
    && (e.s.byFail ==> e.broken || e.r.bad)
    && CloserOk(e)
  }

  lemma InitInv()
    ensures EpInv(NewEp())
  {
    forall write: bool
      ensures Inv(NewDir(write), Sock(true, false))
    {
      var d := NewDir(write);
      assert Payloads(d.done) == [];
      assert StreamOk(d);
      assert forall id: nat :: Settled(d, id);
    }
  }

  /** What one direction's event does to the socket and to the other fields. */
  lemma SocketOnlyCloses(d: Dir, s: Sock, ev: Event)
    requires Enabled(d, s, ev) && !ev.Close?
    ensures Next(d, s, ev).1 in {s, s.Closed(true)}
    ensures Next(d, s, ev).0.write == d.write
    ensures Next(d, s, ev).1 != s ==> Next(d, s, ev).0.bad || (d.io.Ready? && !d.io.ok)
    ensures d.bad ==> Next(d, s, ev).0.bad
  {
  }

  lemma IoAfter(d: Dir, s: Sock, ev: Event)
    requires Enabled(d, s, ev) && !ev.Close? && !ev.Fault?
    ensures var d' := Next(d, s, ev).0; d'.io.Ready? && !d'.io.ok ==> d'.io == d.io
  {
    if ev.Handle? {
      HandledIo(d, s);
    }
  }

  lemma HandledIo(d: Dir, s: Sock)
    requires d.q != [] && d.io.Ready?
    ensures !OnIo(d, s).0.io.Ready?
  {
  }

  lemma WriteNeverBad(d: Dir, s: Sock, ev: Event)
    requires Inv(d, s) && d.write && !d.bad && Enabled(d, s, ev)
    ensures !Next(d, s, ev).0.bad
  {
    if d.q != [] {
      assert OpOk(d, d.q[0]);
    }
  }

  lemma HappenKeeps(e: Ep, x: EpEvent)
    requires EpInv(e) && CanHappen(e, x)
    ensures EpInv(Happen(e, x))
  {
    match x
    case OnWrite(ev) =>
      EventKeeps(e.w, e.s, ev);
      SocketOnlyCloses(e.w, e.s, ev);
      WriteNeverBad(e.w, e.s, ev);
      CloseKeeps(e.r, e.s, true);
      if !ev.Fault? {
        IoAfter(e.w, e.s, ev);
      }
    case OnRead(ev) =>
      EventKeeps(e.r, e.s, ev);
      SocketOnlyCloses(e.r, e.s, ev);
      CloseKeeps(e.w, e.s, true);
      if !ev.Fault? {
        IoAfter(e.r, e.s, ev);
      }
    case Invalidate =>
      CloseKeeps(e.w, e.s, false);
      CloseKeeps(e.r, e.s, false);
  }

  lemma {:induction false} Always(tr: seq<Ep>, i: nat)
    requires IsRun(tr) && i < |tr|
    ensures EpInv(tr[i])
  {
    if i == 0 {
      InitInv();
    } else {
      Always(tr, i - 1);
      assert Step(tr[i - 1], tr[i]);
      var x :| CanHappen(tr[i - 1], x) && tr[i] == Happen(tr[i - 1], x);
      HappenKeeps(tr[i - 1], x);
    }
  }

  // ----- what holds in every run -----

  /**
   A socket operation is outstanding, or its handler is about to run, exactly when the queue is
   not empty; it belongs to the oldest operation, is a header operation exactly while that
   operation's header is incomplete, and asks for at least one byte.
   */
  ghost predicate ServesTheOldest(d: Dir) {
    && (d.io.Idle? <==> d.q == [])
    && (d.q != [] ==>
          && (d.io.header <==> d.q[0].Moved() < PREFIX)
          && d.q[0].Room(d.io.header) >= 1
          && (!d.io.header ==> d.q[0].BufferValid() && !d.q[0].PayloadDone()))
    && forall k :: 0 < k < |d.q| ==> d.q[k].Moved() == 0
  }

  lemma QueueServesTheOldest(d: Dir)
    requires QueueOk(d)
    ensures ServesTheOldest(d)
  {
    assert d.q != [] ==> OpOk(d, d.q[0]);
  }

  lemma OneInFlight(tr: seq<Ep>, i: nat)
    requires IsRun(tr) && i < |tr|
    ensures ServesTheOldest(tr[i].w) && ServesTheOldest(tr[i].r)
  {
    Always(tr, i);
    QueueServesTheOldest(tr[i].w);
    QueueServesTheOldest(tr[i].r);
  }

  /** Every accepted operation has been given exactly one result, unless it is still queued for it. */
  lemma ExactlyOneResult(tr: seq<Ep>, i: nat, id: nat)
    requires IsRun(tr) && i < |tr|
    ensures Count(tr[i].w.log, id) + Waiting(tr[i].w.q, id) == if id < |tr[i].w.subs| then 1 else 0
    ensures Count(tr[i].r.log, id) + Waiting(tr[i].r.q, id) == if id < |tr[i].r.subs| then 1 else 0
    ensures tr[i].w.io.Idle? && id < |tr[i].w.subs| ==> Count(tr[i].w.log, id) == 1
    ensures tr[i].r.io.Idle? && id < |tr[i].r.subs| ==> Count(tr[i].r.log, id) == 1
  {
    Always(tr, i);
    assert Settled(tr[i].w, id) && Settled(tr[i].r, id);
  }

  /**
   Results tell the truth. Success: the whole frame has moved. Timeout: the operation's timer fired
   while the socket was open. Canceled: the user closed the socket before any failure did. Failed:
   a failure closed it, because the connection broke or a bad length was read; or this very
   direction read a bad length after the user had closed the socket.
   */
  ghost predicate Truthful(e: Ep, d: Dir, x: Entry) {
    && x.id < |d.subs|
    && (x.res.Success? ==> Done(x.id, if d.write then d.subs[x.id].payload else x.data, true) in d.done)
    && (x.res.Timeout? ==> x.open && d.subs[x.id].timed && x.id in d.fired)
    && (x.res.Canceled? ==> e.closer == Some(User))
    && (x.res.Failed? ==> (e.closer == Some(Failure) && (e.broken || e.r.bad)) || (e.closer.Some? && d.bad))
  }

  lemma ResultsAreTrue(tr: seq<Ep>, i: nat, k: nat)
    requires IsRun(tr) && i < |tr|
    ensures k < |tr[i].w.log| ==> Truthful(tr[i], tr[i].w, tr[i].w.log[k])
    ensures k < |tr[i].r.log| ==> Truthful(tr[i], tr[i].r, tr[i].r.log[k])
    ensures !tr[i].w.bad
  {
    Always(tr, i);
    assert k < |tr[i].w.log| ==> True(tr[i].w, tr[i].s, tr[i].w.log[k]);
    assert k < |tr[i].r.log| ==> True(tr[i].r, tr[i].s, tr[i].r.log[k]);
  }

  lemma OnlyTimersFire(d: Dir, s: Sock, ev: Event, id: nat)
    requires Enabled(d, s, ev)
    ensures id in Next(d, s, ev).0.fired <==> id in d.fired || (ev == Timer(id) && s.open)
  {
    if ev.Handle? {
      HandlersFireNothing(d, s);
    }
  }

  lemma HandlersFireNothing(d: Dir, s: Sock)
    requires d.q != [] && d.io.Ready?
    ensures OnIo(d, s).0.fired == d.fired
  {
  }

  /** A timer is recorded as fired only by its own event, while the socket is open. */
  lemma FiredByItsTimer(e: Ep, x: EpEvent, id: nat)
    requires CanHappen(e, x)
    ensures id in Happen(e, x).w.fired <==> id in e.w.fired || (x == OnWrite(Timer(id)) && e.s.open)
    ensures id in Happen(e, x).r.fired <==> id in e.r.fired || (x == OnRead(Timer(id)) && e.s.open)
  {
    match x
    case OnWrite(ev) => OnlyTimersFire(e.w, e.s, ev, id);
    case OnRead(ev) => OnlyTimersFire(e.r, e.s, ev, id);
    case Invalidate =>
  }

  /**
   A timer takes an operation out of its queue exactly when it is that operation's own and the
   operation stands behind another; nothing else takes any out.
   */
  lemma OnlyThoseBehindAreTakenOut(tr: seq<Ep>, i: nat, x: EpEvent, id: nat)
    requires IsRun(tr) && i < |tr| && CanHappen(tr[i], x)
    ensures var e, e' := tr[i], Happen(tr[i], x);
            && (id in e'.w.dropped <==> id in e.w.dropped || (x == OnWrite(Timer(id)) && Behind(e.w, id)))
            && (id in e'.r.dropped <==> id in e.r.dropped || (x == OnRead(Timer(id)) && Behind(e.r, id)))
  {
    Always(tr, i);
    match x
    case OnWrite(ev) => TakenOutBehind(tr[i].w, tr[i].s, ev, id);
    case OnRead(ev) => TakenOutBehind(tr[i].r, tr[i].s, ev, id);
    case Invalidate =>
  }

  lemma TurnsStep(e: Ep, x: EpEvent, id: nat)
    requires EpInv(e) && CanHappen(e, x)
    ensures KeepsItsTurn(e.w, e.s, id) ==> KeepsItsTurn(Happen(e, x).w, Happen(e, x).s, id)
    ensures KeepsItsTurn(e.r, e.s, id) ==> KeepsItsTurn(Happen(e, x).r, Happen(e, x).s, id)
  {
    match x
    case OnWrite(ev) =>
      SocketOnlyCloses(e.w, e.s, ev);
      if KeepsItsTurn(e.w, e.s, id) {
        TurnIsKept(e.w, e.s, ev, id);
      }
    case OnRead(ev) =>
      SocketOnlyCloses(e.r, e.s, ev);
      if KeepsItsTurn(e.r, e.s, id) {
        TurnIsKept(e.r, e.s, ev, id);
      }
    case Invalidate =>
  }

  lemma TurnStarts(tr: seq<Ep>, i: nat, id: nat)
    requires IsRun(tr) && i < |tr|
    ensures IsOldest(tr[i].w, id) ==> KeepsItsTurn(tr[i].w, tr[i].s, id)
    ensures IsOldest(tr[i].r, id) ==> KeepsItsTurn(tr[i].r, tr[i].s, id)
  {
    Always(tr, i);
  }

  lemma TurnsGoOn(tr: seq<Ep>, i: nat, id: nat)
    requires IsRun(tr) && i + 1 < |tr|
    ensures KeepsItsTurn(tr[i].w, tr[i].s, id) ==> KeepsItsTurn(tr[i + 1].w, tr[i + 1].s, id)
    ensures KeepsItsTurn(tr[i].r, tr[i].s, id) ==> KeepsItsTurn(tr[i + 1].r, tr[i + 1].s, id)
  {
    Always(tr, i);
    assert Step(tr[i], tr[i + 1]);
    var x :| CanHappen(tr[i], x) && tr[i + 1] == Happen(tr[i], x);
    TurnsStep(tr[i], x, id);
  }

  lemma TurnsPersist(tr: seq<Ep>, i: nat, j: nat, id: nat)
    requires IsRun(tr) && i <= j < |tr|
    ensures KeepsItsTurn(tr[i].w, tr[i].s, id) ==> KeepsItsTurn(tr[j].w, tr[j].s, id)
    ensures KeepsItsTurn(tr[i].r, tr[i].s, id) ==> KeepsItsTurn(tr[j].r, tr[j].s, id)
  {
    var ws := seq(|tr|, k requires 0 <= k < |tr| => KeepsItsTurn(tr[k].w, tr[k].s, id));
    var rs := seq(|tr|, k requires 0 <= k < |tr| => KeepsItsTurn(tr[k].r, tr[k].s, id));
    forall k | i <= k < |tr| - 1
      ensures (ws[k] ==> ws[k + 1]) && (rs[k] ==> rs[k + 1])
    {
      TurnsGoOn(tr, k, id);
    }
    if ws[i] {
      Persists(ws, i, j);
    }
    if rs[i] {
      Persists(rs, i, j);
    }
  }

  /**
   An operation that is oldest at some moment is, ever after, never taken out: it is still the
   oldest, or its frame has moved whole, or the socket is closed and the direction has ended. Its
   timer may have told its caller that it timed out; its frame moves all the same.
   */
  lemma OldestKeepsItsTurn(tr: seq<Ep>, i: nat, j: nat, id: nat)
    requires IsRun(tr) && i <= j < |tr|
    ensures IsOldest(tr[i].w, id) ==> KeepsItsTurn(tr[j].w, tr[j].s, id)
    ensures IsOldest(tr[i].r, id) ==> KeepsItsTurn(tr[j].r, tr[j].s, id)
  {
    TurnStarts(tr, i, id);
    TurnsPersist(tr, i, j, id);
  }

  lemma TurnsUpTo(tr: seq<Ep>, i: nat)
    requires IsRun(tr) && i < |tr|
    ensures forall m, id: nat :: 0 <= m <= i && IsOldest(tr[m].w, id) ==> KeepsItsTurn(tr[i].w, tr[i].s, id)
    ensures forall m, id: nat :: 0 <= m <= i && IsOldest(tr[m].r, id) ==> KeepsItsTurn(tr[i].r, tr[i].s, id)
  {
    forall m, id: nat | 0 <= m <= i
      ensures IsOldest(tr[m].w, id) ==> KeepsItsTurn(tr[i].w, tr[i].s, id)
      ensures IsOldest(tr[m].r, id) ==> KeepsItsTurn(tr[i].r, tr[i].s, id)
    {
      OldestKeepsItsTurn(tr, m, i, id);
    }
  }

  /** The closer is set by the event that closes the socket, and by no later one. */
  lemma FirstCloserStands(tr: seq<Ep>, i: nat, x: EpEvent)
    requires IsRun(tr) && i < |tr| && CanHappen(tr[i], x)
    ensures var e, e' := tr[i], Happen(tr[i], x);
            && (e.closer.Some? ==> e'.closer == e.closer)
            && (e.closer.None? && e'.closer == Some(User) ==> x.Invalidate? && e.s.open)
            && (e.closer.None? && e'.closer == Some(Failure) ==> !x.Invalidate? && e.s.open)
  {
    Always(tr, i);
  }

  /**
   The bytes on the wire are the whole frames of the finished writes, in the order they were
   accepted, and a beginning of the frame of one more, of the oldest write still queued or, once
   the socket is closed, of the one that was cut off. A write that a timer took out of the queue
   has contributed nothing, and every other write older than a finished one is finished. While the
   socket is open every accepted write that no timer took out has its frame on the wire or is
   still queued for it, whether or not its caller has been told it timed out. A write that has
   ever been the oldest is none of those taken out: it still is the oldest, or is on the wire whole,
   or the socket has been closed.
   */
  lemma WireIsWholeFrames(tr: seq<Ep>, i: nat)
    requires IsRun(tr) && i < |tr|
    ensures var d := tr[i].w;
            && d.stream == Frames(Payloads(d.done)) + InFlight(d)
            && (d.q != [] ==> InFlight(d) <= Frame(d.q[0].Message()) && d.q[0].id !in d.dropped)
            && (d.q == [] && tr[i].s.open ==> InFlight(d) == [])
            && (d.q == [] && InFlight(d) != [] ==>
                  exists id: nat :: id < |d.subs| && id !in d.dropped && InFlight(d) < Frame(d.subs[id].payload)
                                    && forall k :: 0 <= k < |d.done| ==> d.done[k].id < id)
            && (forall j, k :: 0 <= j < k < |d.done| ==> d.done[j].id < d.done[k].id)
            && (forall k :: 0 <= k < |d.done| ==>
                  d.done[k].id < |d.subs| && d.done[k].payload == d.subs[d.done[k].id].payload)
            && (forall k :: 0 <= k < |d.done| ==> d.done[k].id !in d.dropped)
            && PastOk(d)
            && (tr[i].s.open ==> forall id: nat :: id < |d.subs| ==> Placed(d, id))
    ensures forall m, id: nat :: 0 <= m <= i && IsOldest(tr[m].w, id) ==> KeepsItsTurn(tr[i].w, tr[i].s, id)
  {
    TurnsUpTo(tr, i);
    Always(tr, i);
    var d := tr[i].w;
    if d.q != [] {
      assert OpOk(d, d.q[0]);
      WritePartIsPrefix(d.q[0], d.io);
    } else if d.cut != [] {
      var id: nat :| CutFrom(d, id);
    }
  }

  lemma WritePartIsPrefix(op: Op, io: Io)
    requires op.WriteOp? && HeadOk(op) && IoOk(op, io)
    ensures op.Part() + (if io.Ready? then io.data else []) <= Frame(op.payload)
  {
    var f := Frame(op.payload);
    if io.Ready? && io.ok {
      assert f[..op.sent] + f[op.sent..op.sent + |io.data|] == f[..op.sent + |io.data|];
    } else {
      assert f[..op.sent] + [] == f[..op.sent];
    }
  }

  /**
   A frame goes to the read that is oldest when it has arrived: every older read has had a frame
   before or was taken out by its timer, and every read still queued is younger. It is given to
   that read, or dropped whole if the read already had its result. A read that has ever been the
   oldest is not taken out: it still is the oldest, or has had its frame, or the socket is closed.
   */
  lemma FramesReachTheOldestRead(tr: seq<Ep>, i: nat)
    requires IsRun(tr) && i < |tr|
    ensures var d := tr[i].r;
            && d.stream == Frames(Payloads(d.done)) + InFlight(d)
            && Sizes(Payloads(d.done))
            && (forall j, k :: 0 <= j < k < |d.done| ==> d.done[j].id < d.done[k].id)
            && (forall k, j :: 0 <= k < |d.done| && 0 <= j < |d.q| ==> d.done[k].id < d.q[j].id)
            && (forall k, id: nat :: 0 <= k < |d.done| && id < d.done[k].id ==> Past(d, id))
            && (tr[i].s.open ==> forall id: nat :: id < |d.subs| ==> Placed(d, id))
            && (forall k, x :: 0 <= k < |d.done| && x in d.log && x.id == d.done[k].id ==>
                  (x.res.Success? <==> d.done[k].delivered)
                  && (x.res.Success? ==> x.data == d.done[k].payload))
    ensures forall m, id: nat :: 0 <= m <= i && IsOldest(tr[m].r, id) ==> KeepsItsTurn(tr[i].r, tr[i].s, id)
  {
    TurnsUpTo(tr, i);
    Always(tr, i);
    var d := tr[i].r;
    forall k, x | 0 <= k < |d.done| && x in d.log && x.id == d.done[k].id
      ensures x.res.Success? <==> d.done[k].delivered
      ensures x.res.Success? ==> x.data == d.done[k].payload
    {
      var j :| 0 <= j < |d.log| && d.log[j] == x;
      assert True(d, tr[i].s, d.log[j]);
    }
  }

  ghost predicate SoundWriter(w: Dir) {
    && w.write && QueueOk(w) && CutOk(w) && DoneOk(w) && StreamOk(w)
    && (w.q != [] ==> InFlight(w) <= Frame(w.q[0].Message()))
  }

  lemma WriterIsSound(tr: seq<Ep>, i: nat)
    requires IsRun(tr) && i < |tr|
    ensures SoundWriter(tr[i].w)
  {
    Always(tr, i);
    var d := tr[i].w;
    if d.q != [] {
      assert OpOk(d, d.q[0]);
      WritePartIsPrefix(d.q[0], d.io);
    }
  }

  ghost predicate SoundReader(r: Dir) {
    && StreamOk(r) && Sizes(Payloads(r.done))
    && (r.bad ==> r.q == [] && |r.cut| == PREFIX && !Acceptable(Number(r.cut)))
    && (AwaitsBytes(r) ==> Short(InFlight(r)))
  }

  lemma ReaderIsSound(tr: seq<Ep>, i: nat)
    requires IsRun(tr) && i < |tr|
    ensures SoundReader(tr[i].r)
  {
    Always(tr, i);
    if AwaitsBytes(tr[i].r) {
      AwaitingIsShort(tr[i].r);
    }
  }

  /** A read is queued and no bytes wait for its handler. */
  ghost predicate AwaitsBytes(r: Dir) {
    r.q != [] && !r.io.Ready?
  }

  /** The payloads of the finished writes, and of the one being written. */
  ghost function Written(w: Dir): seq<seq<byte>> {
    Payloads(w.done) + if w.q != [] then [w.q[0].Message()] else []
  }

  /** The payload of a write whose last byte is on the wire and whose handler has not run. */
  ghost function OnTheWireWhole(w: Dir): seq<seq<byte>> {
    if w.q != [] && InFlight(w) == Frame(w.q[0].Message()) then [w.q[0].Message()] else []
  }

  lemma AwaitingIsShort(r: Dir)
    requires !r.write && QueueOk(r) && AwaitsBytes(r)
    ensures Short(InFlight(r))
  {
    assert OpOk(r, r.q[0]);
    assert InFlight(r) == r.q[0].got;
  }

  lemma AllReceivedIsTaken(w: Dir, r: Dir)
    requires SoundWriter(w) && SoundReader(r) && AwaitsBytes(r) && r.stream <= w.stream
    requires forall k :: 0 <= k < |w.subs| ==> Acceptable(|w.subs[k].payload|)
    ensures Payloads(r.done) < Written(w) ==> |r.stream| < |Frames(Written(w)[..|r.done| + 1])|
    ensures r.stream == w.stream ==> Payloads(r.done) == Payloads(w.done) + OnTheWireWhole(w)
  {
    var z := Unfinished(w);
    assert Sizes(Payloads(w.done));
    ReceivedIsTaken(w, r, z);
    SentIsTaken(w, r, z);
  }

  lemma ReceivedIsTaken(w: Dir, r: Dir, z: seq<byte>)
    requires StreamOk(w) && StreamOk(r) && r.stream <= w.stream && Short(InFlight(r))
    requires Sizes(Payloads(w.done)) && IsUnfinished(w, z)
    ensures Payloads(r.done) < Written(w) ==> |r.stream| < |Frames(Written(w)[..|r.done| + 1])|
  {
    var xs, ys := Payloads(r.done), Payloads(w.done);
    if xs < Written(w) {
      assert xs < ys + [z] && (ys + [z])[..|xs| + 1] == Written(w)[..|xs| + 1];
      NoneReceivedIsLeft(xs, InFlight(r), ys, z, InFlight(w));
    }
  }

  lemma SentIsTaken(w: Dir, r: Dir, z: seq<byte>)
    requires StreamOk(w) && StreamOk(r) && Short(InFlight(r))
    requires Sizes(Payloads(r.done)) && Sizes(Payloads(w.done)) && IsUnfinished(w, z)
    ensures r.stream == w.stream ==> Payloads(r.done) == Payloads(w.done) + OnTheWireWhole(w)
  {
    if r.stream == w.stream {
      AllSentAreTaken(Payloads(r.done), InFlight(r), Payloads(w.done), z, InFlight(w));
    }
  }

  lemma StreamsAgree(w: Dir, r: Dir)
    requires SoundWriter(w) && SoundReader(r) && r.stream <= w.stream
    requires forall k :: 0 <= k < |w.subs| ==> Acceptable(|w.subs[k].payload|)
    ensures !r.bad
    ensures w.q == [] ==> Payloads(r.done) <= Payloads(w.done)
    ensures w.q != [] ==> Payloads(r.done) <= Payloads(w.done) + [w.q[0].Message()]
  {
    var z := Unfinished(w);
    var xs, ys, u := Payloads(r.done), Payloads(w.done), InFlight(w);
    assert Sizes(ys);
    assert Frames(xs) == r.stream[..|Frames(xs)|];
    WholeFramesAreThoseWritten(xs, ys, z, u);
    if r.bad {
      NextPrefixIsAcceptable(xs, r.cut, ys, z, u);
      assert false;
    }
    if w.q == [] {
      assert xs <= (ys + [z])[..|ys|];
    }
  }

  /** What is in flight is a beginning of z's frame, which is the oldest write's or unfinished for good. */
  ghost predicate IsUnfinished(w: Dir, z: seq<byte>) {
    && Acceptable(|z|) && InFlight(w) <= Frame(z)
    && if w.q != [] then z == w.q[0].Message() else InFlight(w) != Frame(z)
  }

  lemma Unfinished(w: Dir) returns (z: seq<byte>)
    requires SoundWriter(w)
    requires forall k :: 0 <= k < |w.subs| ==> Acceptable(|w.subs[k].payload|)
    ensures IsUnfinished(w, z)
  {
    if w.q != [] {
      z := w.q[0].Message();
      assert OpOk(w, w.q[0]);
    } else if w.cut == [] {
      z := [0];
    } else {
      var id: nat :| CutFrom(w, id);
      z := w.subs[id].payload;
    }
  }

  /**
   Two endpoints joined by a stream that loses and invents nothing: whatever the chunks, the
   timeouts and the point at which the connection ends, the payloads the reader has taken are the
   payloads the writer has put on the wire, in order, and the reader never meets a bad length. A
   reader that waits for more bytes has taken every payload it has received whole: the bytes it has
   received do not reach the end of the next frame. If they are all the bytes sent, it has taken
   exactly the payloads that are on the wire whole.
   */
  lemma ReaderTakesWhatWasWritten(a: seq<Ep>, i: nat, b: seq<Ep>, j: nat)
    requires IsRun(a) && i < |a| && IsRun(b) && j < |b|
    requires b[j].r.stream <= a[i].w.stream
    requires forall k :: 0 <= k < |a[i].w.subs| ==> Acceptable(|a[i].w.subs[k].payload|)
    ensures !b[j].r.bad
    ensures a[i].w.q == [] ==> Payloads(b[j].r.done) <= Payloads(a[i].w.done)
    ensures a[i].w.q != [] ==> Payloads(b[j].r.done) <= Payloads(a[i].w.done) + [a[i].w.q[0].Message()]
    ensures AwaitsBytes(b[j].r) && Payloads(b[j].r.done) < Written(a[i].w) ==>
              |b[j].r.stream| < |Frames(Written(a[i].w)[..|b[j].r.done| + 1])|
    ensures AwaitsBytes(b[j].r) && b[j].r.stream == a[i].w.stream ==>
              Payloads(b[j].r.done) == Payloads(a[i].w.done) + OnTheWireWhole(a[i].w)
  {
    WriterIsSound(a, i);
    ReaderIsSound(b, j);
    StreamsAgree(a[i].w, b[j].r);
    if AwaitsBytes(b[j].r) {
      AllReceivedIsTaken(a[i].w, b[j].r);
    }
  }
}
