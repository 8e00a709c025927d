/** Why a read or a write of a TCP pipe ends: every result in every run, and the event that gave it. */
module TcpResults {
  import opened Prelude
  import opened Bytes
  import opened TcpFraming
  import opened PipeOps
  import opened TcpDirection
  import opened TcpInvariant

  /** The caller of operation id still waits for its result. */
  ghost predicate Awaits(q: seq<Op>, id: nat) {
    exists k :: 0 <= k < |q| && q[k].id == id && !q[k].resolved
  }

  ghost predicate Told(d: Dir, id: nat, res: PipeRes, data: seq<byte>) {
    Entry(id, res, data, true) in d.log || Entry(id, res, data, false) in d.log
  }

  /** What a closed socket's operations are told: who closed it first. */
  ghost function Reason(s: Sock): PipeRes {
    if s.byFail then Failed else Canceled
  }

  /** The bytes of the oldest operation's frame once its handler has seen the socket's. */
  ghost function Seen(d: Dir): seq<byte>
    requires d.q != [] && d.io.Ready?
  {
    d.q[0].Part() + d.io.data
  }

  /** They are its whole frame: the one to be written, or as long as their own prefix announces. */
  ghost predicate Whole(d: Dir)
    requires d.q != [] && d.io.Ready?
  {
    if d.write then Seen(d) == Frame(d.q[0].Message())
    else |Seen(d)| > PREFIX && |Seen(d)| == PREFIX + Number(Seen(d)[..PREFIX])
  }

  /** They are a length prefix that no frame may have. */
  ghost predicate Bad(d: Dir)
    requires d.q != [] && d.io.Ready?
  {
    !d.write && |Seen(d)| == PREFIX && (Number(Seen(d)) == 0 || Number(Seen(d)) > 1024 * 1024 + 100)
  }

  /**
   The result an event gives operation id while its caller waits. The timer says timeout, unless
   the socket is closed. A handler that completes the frame says success to the oldest. A handler
   that finds a failure, a bad length, or the socket closed says so to all.
   */
  ghost predicate Gives(d: Dir, s: Sock, ev: Event, id: nat, res: PipeRes, data: seq<byte>) {
    && Awaits(d.q, id)
    && match ev
       case Timer(x) => x == id && data == [] && res == if s.open then Timeout else Reason(s)
       case Handle => d.q != [] && d.io.Ready? && HandlerGives(d, s, id, res, data)
       case Accept(_) => false
       case Move(_) => false
       case Fault => false
       case Close(_) => false
  }

  ghost predicate HandlerGives(d: Dir, s: Sock, id: nat, res: PipeRes, data: seq<byte>)
    requires d.q != [] && d.io.Ready?
  {
    if !d.io.ok then data == [] && res == if s.open then Failed else Reason(s)
    else if Whole(d) then
      if id == d.q[0].id then res == Success && data == if d.write then [] else Seen(d)[PREFIX..]
      else !s.open && data == [] && res == Reason(s)
    else if Bad(d) then data == [] && res == Failed
    else !s.open && data == [] && res == Reason(s)
  }

  // ----- the results of many operations at once -----

  lemma {:induction false} InResults(q: seq<Op>, r: PipeRes, open: bool, x: Entry)
    requires !r.Success?
    ensures x in Results(q, r, open) <==>
              exists k :: 0 <= k < |q| && !q[k].resolved && x == Entry(q[k].id, r, [], open)
  {
    if q != [] {
      InResults(q[1..], r, open, x);
      if k :| 0 <= k < |q[1..]| && !q[1..][k].resolved && x == Entry(q[1..][k].id, r, [], open) {
        assert q[k + 1] == q[1..][k];
      }
      if k :| 0 < k < |q| && !q[k].resolved && x == Entry(q[k].id, r, [], open) {
        assert q[1..][k - 1] == q[k];
      }
    }
  }

  lemma AllTold(d: Dir, r: PipeRes, id: nat, res: PipeRes, data: seq<byte>)
    requires !r.Success?
    ensures Told(CompleteAll(d, r), id, res, data) <==>
              Told(d, id, res, data) || (Awaits(d.q, id) && res == r && data == [])
  {
    InResults(d.q, r, false, Entry(id, res, data, true));
    InResults(d.q, r, false, Entry(id, res, data, false));
  }

  // ----- one event -----

  ghost predicate InOrder(q: seq<Op>) {
    forall i, j :: 0 <= i < j < |q| ==> q[i].id < q[j].id
  }

  lemma AwaitsAt(q: seq<Op>, i: nat)
    requires InOrder(q) && i < |q|
    ensures Awaits(q, q[i].id) <==> !q[i].resolved
    ensures !Awaits(Without(q, i), q[i].id)
    ensures !Awaits(q[i := q[i].(resolved := true)], q[i].id)
  {
    assert forall k :: 0 <= k < |q| - 1 ==> Without(q, i)[k] == q[if k < i then k else k + 1];
  }

  /** What a timer adds to the log: one result without data, if the caller of its operation waits. */
  lemma TimerLog(d: Dir, s: Sock, x: nat)
    requires InOrder(d.q)
    ensures OnTimer(d, s, x).log
         == if Awaits(d.q, x) then d.log + [Entry(x, if s.open then Timeout else Reason(s), [], s.open)] else d.log
    ensures !Awaits(OnTimer(d, s, x).q, x)
  {
    var at := IndexOf(d.q, x);
    if at.Some? {
      AwaitsAt(d.q, at.value);
      assert d.log + [] == d.log;
    }
  }

  lemma TimerGives(d: Dir, s: Sock, x: nat, id: nat, res: PipeRes, data: seq<byte>)
    requires InOrder(d.q)
    ensures Told(OnTimer(d, s, x), id, res, data) <==> Told(d, id, res, data) || Gives(d, s, Timer(x), id, res, data)
  {
    TimerLog(d, s, x);
  }

  lemma WriteSeen(op: Op, io: Io)
    requires op.WriteOp? && HeadOk(op) && IoOk(op, io) && io.Ready? && io.ok && op.payload != []
    ensures op.AddBytes(io.data).Part() == op.Part() + io.data
    ensures op.AddBytes(io.data).PayloadDone() <==> op.Part() + io.data == Frame(op.payload)
    ensures io.header ==> !op.AddBytes(io.data).PayloadDone()
  {
    var f := Frame(op.payload);
    assert f[..op.sent] + f[op.sent..op.sent + |io.data|] == f[..op.sent + |io.data|];
  }

  lemma ReadSeen(op: Op, io: Io)
    requires op.ReadOp? && HeadOk(op) && IoOk(op, io) && io.Ready? && io.ok
    ensures var op', seen := op.AddBytes(io.data), op.got + io.data;
            && op'.got == seen
            && (op'.size.Some? && |seen| > PREFIX ==> op'.size.value == Number(seen[..PREFIX]))
            && (io.header ==> |seen| <= PREFIX)
            && (!io.header ==> |seen| > PREFIX && op'.size.Some?)
            && (|seen| == PREFIX ==> (op'.size.Some? <==> 1 <= Number(seen) <= 1024 * 1024 + 100))
  {
    var seen := op.got + io.data;
    if !io.header {
      assert seen[..PREFIX] == op.got[..PREFIX];
    }
  }

  /** What the handler's own tests tell about the bytes seen. */
  ghost predicate Classified(d: Dir)
    requires d.q != [] && d.io.Ready?
  {
    var op' := Received(d).q[0];
    && op'.id == d.q[0].id && op'.resolved == d.q[0].resolved && op'.WriteOp? == d.q[0].WriteOp?
    && (Whole(d) <==> !d.io.header && op'.PayloadDone())
    && (Bad(d) <==> d.io.header && op'.HeaderDone() && !op'.BufferValid())
    && (!d.io.header ==> op'.BufferValid())
    && (d.io.header ==> !Whole(d))
    && (Whole(d) && !d.write ==> op'.Message() == Seen(d)[PREFIX..])
    && op'.Part() == Seen(d)
  }

  lemma Classify(d: Dir)
    requires QueueOk(d) && d.q != [] && d.io.Ready? && d.io.ok
    ensures Classified(d)
  {
    var op := d.q[0];
    assert OpOk(d, op);
    if d.write {
      WriteSeen(op, d.io);
    } else {
      ReadSeen(op, d.io);
    }
  }

  ghost predicate SameQueue(q: seq<Op>, q': seq<Op>) {
    |q| == |q'| && forall k :: 0 <= k < |q| ==> q'[k].id == q[k].id && q'[k].resolved == q[k].resolved
  }

  lemma SameAwait(q: seq<Op>, q': seq<Op>, id: nat)
    requires SameQueue(q, q')
    ensures Awaits(q, id) <==> Awaits(q', id)
  {
    if Awaits(q, id) {
      var k :| 0 <= k < |q| && q[k].id == id && !q[k].resolved;
      assert q'[k].id == id;
    }
  }

  lemma TailAwaits(q: seq<Op>, id: nat)
    requires q != [] && InOrder(q)
    ensures Awaits(q, id) <==> Awaits(q[1..], id) || (q[0].id == id && !q[0].resolved)
    ensures !(Awaits(q[1..], id) && q[0].id == id)
  {
    if Awaits(q[1..], id) {
      var k :| 0 <= k < |q[1..]| && q[1..][k].id == id && !q[1..][k].resolved;
      assert q[k + 1].id == id;
    }
    if k :| 0 < k < |q| && q[k].id == id && !q[k].resolved {
      assert q[1..][k - 1].id == id;
    }
  }

  lemma FinishGives(d: Dir, s: Sock, id: nat, res: PipeRes, data: seq<byte>)
    requires d.q != [] && d.io.Ready? && d.io.ok && Whole(d) && Classified(d) && InOrder(d.q)
    requires d.q[0].WriteOp? == d.write
    ensures Told(OnIo(d, s).0, id, res, data) <==>
              Told(d, id, res, data) || (Awaits(d.q, id) && HandlerGives(d, s, id, res, data))
  {
    var d1 := Received(d);
    var d2 := Popped(d1, s);
    TailAwaits(d.q, id);
    assert d2.q == d.q[1..];
    PoppedTells(d1, s, id, res, data);
    if d2.q != [] && !s.open {
      AllTold(d2, s.Why(), id, res, data);
    }
  }

  lemma PoppedTells(d: Dir, s: Sock, id: nat, res: PipeRes, data: seq<byte>)
    requires d.q != []
    ensures Told(Popped(d, s), id, res, data) <==>
              || Told(d, id, res, data)
              || (!d.q[0].resolved && id == d.q[0].id && res == Success
                  && data == if d.q[0].ReadOp? then d.q[0].Message() else [])
  {
  }

  lemma FaultGives(d: Dir, s: Sock, id: nat, res: PipeRes, data: seq<byte>)
    requires d.q != [] && d.io.Ready? && !d.io.ok
    ensures Told(OnIo(d, s).0, id, res, data) <==>
              Told(d, id, res, data) || (Awaits(d.q, id) && HandlerGives(d, s, id, res, data))
  {
    var d1 := Received(d);
    SameAwait(d.q, d1.q, id);
    AllTold(d1, if s.open then Failed else s.Why(), id, res, data);
  }

  lemma UnfinishedGives(d: Dir, s: Sock, id: nat, res: PipeRes, data: seq<byte>)
    requires d.q != [] && d.io.Ready? && d.io.ok && !Whole(d) && Classified(d)
    ensures Told(OnIo(d, s).0, id, res, data) <==>
              Told(d, id, res, data) || (Awaits(d.q, id) && HandlerGives(d, s, id, res, data))
  {
    var d1 := Received(d);
    SameAwait(d.q, d1.q, id);
    if Bad(d) {
      AllTold(d1.(bad := true), Failed, id, res, data);
    } else if !s.open {
      AllTold(d1, s.Why(), id, res, data);
    }
  }

  /** An operation has a result after an event exactly when it had it before or the event gives it. */
  lemma EventGives(d: Dir, s: Sock, ev: Event, id: nat, res: PipeRes, data: seq<byte>)
    requires QueueOk(d) && Enabled(d, s, ev)
    ensures Told(Next(d, s, ev).0, id, res, data) <==> Told(d, id, res, data) || Gives(d, s, ev, id, res, data)
  {
    match ev
    case Timer(x) => TimerGives(Fire(d, s, x), s, x, id, res, data);
    case Handle =>
      if !d.io.ok {
        FaultGives(d, s, id, res, data);
      } else if Whole(d) {
        Classify(d);
        assert OpOk(d, d.q[0]);
        FinishGives(d, s, id, res, data);
      } else {
        Classify(d);
        UnfinishedGives(d, s, id, res, data);
      }
    case Accept(_) =>
    case Move(_) =>
    case Fault =>
    case Close(_) =>
  }

  // ----- what else an event does -----

  /** How the handler leaves the direction and the socket. */
  ghost predicate HandlerLeaves(d: Dir, s: Sock, d': Dir, s': Sock)
    requires d.q != [] && d.io.Ready?
  {
    if !d.io.ok then d'.q == [] && !s'.open && (s.open ==> s'.byFail)
    else if Whole(d) then s' == s && d'.q == if s.open then d.q[1..] else []
    else if Bad(d) then d'.q == [] && !s'.open && (s.open ==> s'.byFail) && d'.bad
    else if s.open then
      s' == s && SameQueue(d.q, d'.q) && d'.q[1..] == d.q[1..] && d'.q[0].Part() == Seen(d)
    else d'.q == [] && s' == s
  }

  lemma HandlerEffect(d: Dir, s: Sock)
    requires d.q != [] && d.io.Ready? && (d.io.ok ==> Classified(d))
    ensures HandlerLeaves(d, s, OnIo(d, s).0, OnIo(d, s).1)
  {
  }

  /** An operation accepted is queued last, with what was asked of it and nothing moved yet. */
  ghost predicate QueuedLast(d: Dir, sub: Sub, d': Dir) {
    && |d'.q| == |d.q| + 1 && d'.q[..|d.q|] == d.q && d'.subs == d.subs + [sub]
    && var op := d'.q[|d.q|];
       && op.id == |d.subs| && op.timed == sub.timed && !op.resolved && op.Moved() == 0
       && (d.write ==> op.WriteOp? && op.payload == sub.payload) && (!d.write ==> op.ReadOp?)
  }

  lemma AcceptEffect(d: Dir, sub: Sub)
    ensures QueuedLast(d, sub, Submit(d, sub)) && Submit(d, sub).log == d.log
  {
  }
}
