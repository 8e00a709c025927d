/** The results of a TCP pipe endpoint in every run, traced to the events that gave them. */
module TcpCauses {
  import opened Prelude
  import opened Bytes
  import opened PipeOps
  import opened TcpDirection
  import opened TcpInvariant
  import opened TcpEndpoint
  import opened TcpResults

  ghost function Side(e: Ep, write: bool): Dir {
    if write then e.w else e.r
  }

  ghost function On(write: bool, ev: Event): EpEvent {
    if write then OnWrite(ev) else OnRead(ev)
  }

  /** The event gives operation id of that direction its result. */
  ghost predicate EpGives(e: Ep, x: EpEvent, write: bool, id: nat, res: PipeRes, data: seq<byte>) {
    !x.Invalidate? && x == On(write, x.ev) && Gives(Side(e, write), e.s, x.ev, id, res, data)
  }

  lemma StepGives(e: Ep, x: EpEvent, write: bool, id: nat, res: PipeRes, data: seq<byte>)
    requires EpInv(e) && CanHappen(e, x)
    ensures Told(Side(Happen(e, x), write), id, res, data) <==>
              Told(Side(e, write), id, res, data) || EpGives(e, x, write, id, res, data)
  {
    match x
    case OnWrite(ev) => EventGives(e.w, e.s, ev, id, res, data);
    case OnRead(ev) => EventGives(e.r, e.s, ev, id, res, data);
    case Invalidate =>
  }

  ghost predicate GivenAt(tr: seq<Ep>, m: nat, write: bool, id: nat, res: PipeRes, data: seq<byte>)
    requires m + 1 < |tr|
  {
    exists x :: CanHappen(tr[m], x) && tr[m + 1] == Happen(tr[m], x) && EpGives(tr[m], x, write, id, res, data)
  }

  lemma RunStepGives(tr: seq<Ep>, m: nat, write: bool, id: nat, res: PipeRes, data: seq<byte>)
    requires IsRun(tr) && m + 1 < |tr|
    ensures Told(Side(tr[m + 1], write), id, res, data) <==>
              Told(Side(tr[m], write), id, res, data) || GivenAt(tr, m, write, id, res, data)
  {
    Always(tr, m);
    assert Step(tr[m], tr[m + 1]);
    forall x | CanHappen(tr[m], x) && tr[m + 1] == Happen(tr[m], x)
      ensures Told(Side(tr[m + 1], write), id, res, data) <==>
                Told(Side(tr[m], write), id, res, data) || EpGives(tr[m], x, write, id, res, data)
    {
      StepGives(tr[m], x, write, id, res, data);
    }
  }

  /** In every run an operation has a result exactly when an earlier event gave it that result. */
  lemma EachResultHasItsCause(tr: seq<Ep>, i: nat, write: bool, id: nat, res: PipeRes, data: seq<byte>)
    requires IsRun(tr) && i < |tr|
    ensures Told(Side(tr[i], write), id, res, data) <==>
              exists m: nat :: m < i && GivenAt(tr, m, write, id, res, data)
  {
    var holds := seq(|tr|, k requires 0 <= k < |tr| => Told(Side(tr[k], write), id, res, data));
    var brings := seq(|tr| - 1, k requires 0 <= k < |tr| - 1 => GivenAt(tr, k, write, id, res, data));
    forall k | 0 <= k < |brings|
      ensures holds[k + 1] <==> holds[k] || brings[k]
    {
      RunStepGives(tr, k, write, id, res, data);
    }
    BroughtAbout(holds, brings, i);
    assert forall m: nat :: m < i ==> (brings[m] <==> GivenAt(tr, m, write, id, res, data));
  }

  /**
   A timer that fires while the caller of its operation waits answers at once, whether or not the
   operation is the oldest: timeout on an open socket, and otherwise who closed it.
   */
  lemma TimersAnswer(tr: seq<Ep>, i: nat, write: bool, id: nat)
    requires IsRun(tr) && i < |tr| && CanHappen(tr[i], On(write, Timer(id)))
    ensures var d, d' := Side(tr[i], write), Side(Happen(tr[i], On(write, Timer(id))), write);
            && !Awaits(d'.q, id)
            && if !Awaits(d.q, id) then d'.log == d.log
               else
                 d'.log == d.log + [Entry(id, if tr[i].s.open then Timeout
                                              else if tr[i].closer == Some(User) then Canceled else Failed,
                                          [], tr[i].s.open)]
  {
    Always(tr, i);
    TimerLog(Fire(Side(tr[i], write), tr[i].s, id), tr[i].s, id);
  }

  /**
   A handler that finds a failure or a bad length closes the socket and ends the direction; one that
   completes a frame takes its operation off the queue; any other goes on, or ends the direction if
   the socket is closed.
   */
  lemma HandlersDoTheirWork(tr: seq<Ep>, i: nat, write: bool)
    requires IsRun(tr) && i < |tr| && CanHappen(tr[i], On(write, Handle))
    ensures var e, e' := tr[i], Happen(tr[i], On(write, Handle));
            HandlerLeaves(Side(e, write), e.s, Side(e', write), e'.s)
  {
    Always(tr, i);
    var d := Side(tr[i], write);
    if d.io.ok {
      Classify(d);
    }
    HandlerEffect(d, tr[i].s);
  }

  /** An operation accepted on an open socket is queued last, as it was asked for. */
  lemma AcceptedIsQueued(tr: seq<Ep>, i: nat, write: bool, sub: Sub)
    requires IsRun(tr) && i < |tr| && CanHappen(tr[i], On(write, Accept(sub)))
    ensures QueuedLast(Side(tr[i], write), sub, Side(Happen(tr[i], On(write, Accept(sub))), write))
  {
    AcceptEffect(Side(tr[i], write), sub);
  }

  // ----- who closes the socket -----

  /** The handler finds that the socket operation failed, or has read a bad length. */
  ghost predicate FindsFailure(d: Dir) {
    d.q != [] && d.io.Ready? && (!d.io.ok || Bad(d))
  }

  ghost predicate Closes(e: Ep, x: EpEvent, who: Closer) {
    && e.s.open
    && match who
       case User => x.Invalidate?
       case Failure => (x == OnWrite(Handle) && FindsFailure(e.w)) || (x == OnRead(Handle) && FindsFailure(e.r))
  }

  lemma HandlerCloses(d: Dir, s: Sock)
    requires QueueOk(d) && d.q != [] && d.io.Ready? && s.open
    ensures !OnIo(d, s).1.open <==> FindsFailure(d)
  {
    if d.io.ok {
      Classify(d);
    }
    HandlerEffect(d, s);
  }

  lemma DirectionCloses(d: Dir, s: Sock, ev: Event)
    requires QueueOk(d) && Enabled(d, s, ev) && !ev.Close? && s.open
    ensures !Next(d, s, ev).1.open <==> ev.Handle? && FindsFailure(d)
  {
    if ev.Handle? {
      HandlerCloses(d, s);
    }
  }

  lemma StepCloses(e: Ep, x: EpEvent, who: Closer)
    requires QueueOk(e.w) && QueueOk(e.r) && (e.s.open <==> e.closer.None?) && CanHappen(e, x)
    ensures Happen(e, x).closer == Some(who) <==> e.closer == Some(who) || Closes(e, x, who)
  {
    if e.s.open {
      match x
      case OnWrite(ev) => DirectionCloses(e.w, e.s, ev);
      case OnRead(ev) => DirectionCloses(e.r, e.s, ev);
      case Invalidate =>
    } else {
      StaysClosed(e, x);
    }
  }

  lemma StaysClosed(e: Ep, x: EpEvent)
    requires CanHappen(e, x) && !e.s.open
    ensures Happen(e, x).closer == e.closer
  {
  }

  ghost predicate ClosedAt(tr: seq<Ep>, m: nat, who: Closer)
    requires m + 1 < |tr|
  {
    exists x :: CanHappen(tr[m], x) && tr[m + 1] == Happen(tr[m], x) && Closes(tr[m], x, who)
  }

  lemma RunStepCloses(tr: seq<Ep>, m: nat, who: Closer)
    requires IsRun(tr) && m + 1 < |tr|
    ensures tr[m + 1].closer == Some(who) <==> tr[m].closer == Some(who) || ClosedAt(tr, m, who)
  {
    Always(tr, m);
    assert Step(tr[m], tr[m + 1]);
    forall x | CanHappen(tr[m], x) && tr[m + 1] == Happen(tr[m], x)
      ensures tr[m + 1].closer == Some(who) <==> tr[m].closer == Some(who) || Closes(tr[m], x, who)
    {
      StepCloses(tr[m], x, who);
    }
  }

  /**
   In every run the socket is open exactly while nobody has closed it; its user is the closer exactly
   when they invalidated it while it was open, and a failure is when a handler found one while it was.
   */
  lemma ClosedExactly(tr: seq<Ep>, i: nat, who: Closer)
    requires IsRun(tr) && i < |tr|
    ensures tr[i].s.open <==> tr[i].closer.None?
    ensures tr[i].closer == Some(who) <==> exists m: nat :: m < i && ClosedAt(tr, m, who)
  {
    Always(tr, i);
    var holds := seq(|tr|, k requires 0 <= k < |tr| => tr[k].closer == Some(who));
    var brings := seq(|tr| - 1, k requires 0 <= k < |tr| - 1 => ClosedAt(tr, k, who));
    forall k | 0 <= k < |brings|
      ensures holds[k + 1] <==> holds[k] || brings[k]
    {
      RunStepCloses(tr, k, who);
    }
    BroughtAbout(holds, brings, i);
    assert forall m: nat :: m < i ==> (brings[m] <==> ClosedAt(tr, m, who));
  }
}
