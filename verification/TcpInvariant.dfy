/** What every event keeps in one direction of a TCP pipe endpoint. */
module TcpInvariant {
  import opened Prelude
  import opened Bytes
  import opened TcpFraming
  import opened PipeOps
  import opened TcpDirection

  // ----- the events -----

  datatype Event =
    | Accept(sub: Sub)
    | Move(data: seq<byte>)
    | Fault
    | Handle
    | Timer(id: nat)
    | Close(fail: bool)

  /**
   The socket moves between one byte and all that were asked for, or fails; a closed socket only
   ever fails. A timer fires only for an operation that has one, but may fire after its operation is gone.
   */
  ghost predicate Enabled(d: Dir, s: Sock, ev: Event) {
    match ev
    case Accept(sub) => s.open && (d.write ==> sub.payload != [])
    case Move(data) =>
      && s.open && d.io.Pending? && d.q != []
      && 1 <= |data| <= d.q[0].Room(d.io.header)
      && (d.write && d.q[0].WriteOp? ==>
            d.q[0].sent + |data| <= |Frame(d.q[0].payload)|
            && data == Frame(d.q[0].payload)[d.q[0].sent..d.q[0].sent + |data|])
    case Fault => d.io.Pending?
    case Handle => d.io.Ready? && d.q != []
    case Timer(id) => forall i :: 0 <= i < |d.q| && d.q[i].id == id ==> d.q[i].timed
    case Close(_) => true
  }

  ghost function Next(d: Dir, s: Sock, ev: Event): (Dir, Sock)
    requires Enabled(d, s, ev)
  {
    match ev
    case Accept(sub) => (Submit(d, sub), s)
    case Move(data) => (d.(io := Ready(d.io.header, true, data), stream := d.stream + data), s)
    case Fault => (d.(io := Ready(d.io.header, false, [])), s)
    case Handle => OnIo(d, s)
    case Timer(id) => (OnTimer(Fire(d, s, id), s, id), s)
    case Close(fail) => (d, s.Closed(fail))
  }

  // ----- the invariant -----

  ghost predicate Untouched(op: Op) {
    op.Moved() == 0 && !op.resolved && (op.ReadOp? ==> op.size.None?)
  }

  ghost predicate HeadOk(op: Op) {
    if op.WriteOp? then op.sent < PREFIX + |op.payload|
    else if |op.got| < PREFIX then op.size.None?
    else
      && op.size == Some(Number(op.got[..PREFIX])) && Acceptable(op.size.value)
      && |op.got| < PREFIX + op.size.value
  }

  ghost predicate OpOk(d: Dir, op: Op) {
    && op.WriteOp? == d.write && op.id < |d.subs| && op.timed == d.subs[op.id].timed
    && (op.WriteOp? ==> op.payload == d.subs[op.id].payload && op.payload != [])
  }

  ghost predicate IoOk(op: Op, io: Io) {
    && !io.Idle? && (io.header <==> !op.HeaderDone())
    && (io.Ready? && io.ok ==>
          && 1 <= |io.data| <= op.Room(io.header)
          && (op.WriteOp? ==>
                op.sent + |io.data| <= |Frame(op.payload)|
                && io.data == Frame(op.payload)[op.sent..op.sent + |io.data|]))
    && (io.Ready? && !io.ok ==> io.data == [])
  }

  ghost predicate QueueOk(d: Dir) {
    && (d.q == [] ==> d.io.Idle?)
    && (d.q != [] ==> HeadOk(d.q[0]) && IoOk(d.q[0], d.io))
    && (forall i :: 0 <= i < |d.q| ==> OpOk(d, d.q[i]))
    && (forall i, j :: 0 <= i < j < |d.q| ==> d.q[i].id < d.q[j].id)
    && (forall i :: 0 < i < |d.q| ==> Untouched(d.q[i]))
  }

  ghost function Payloads(done: seq<Done>): seq<seq<byte>> {
    seq(|done|, i requires 0 <= i < |done| => done[i].payload)
  }

  ghost function InFlight(d: Dir): seq<byte> {
    if d.q == [] then d.cut
    else d.q[0].Part() + if d.io.Ready? then d.io.data else []
  }

  ghost predicate StreamOk(d: Dir) {
    d.stream == Frames(Payloads(d.done)) + InFlight(d)
  }

  ghost predicate DoneOk(d: Dir) {
    && (forall i, j :: 0 <= i < j < |d.done| ==> d.done[i].id < d.done[j].id)
    && (forall i, j :: 0 <= i < |d.done| && 0 <= j < |d.q| ==> d.done[i].id < d.q[j].id)
    && (forall i :: 0 <= i < |d.done| ==>
          && d.done[i].id < |d.subs|
          && (d.write ==> d.done[i].payload == d.subs[d.done[i].id].payload && d.done[i].payload != [])
          && (!d.write ==> Acceptable(|d.done[i].payload|)))
  }

  /** How many results operation id has been given, and how many it still waits for. */
  ghost function Count(log: seq<Entry>, id: nat): nat {
    if log == [] then 0 else Count(log[..|log| - 1], id) + if log[|log| - 1].id == id then 1 else 0
  }

  ghost function Waits(op: Op, id: nat): nat {
    if op.id == id && !op.resolved then 1 else 0
  }

  ghost function Waiting(q: seq<Op>, id: nat): nat {
    if q == [] then 0 else Waits(q[0], id) + Waiting(q[1..], id)
  }

  /** Every accepted operation waits for its result or has been given it, once. */
  ghost predicate Settled(d: Dir, id: nat) {
    Count(d.log, id) + Waiting(d.q, id) == if id < |d.subs| then 1 else 0
  }

  ghost predicate LogOk(d: Dir) {
    forall id: nat :: Settled(d, id)
  }

  ghost predicate True(d: Dir, s: Sock, e: Entry) {
    && e.id < |d.subs|
    && match e.res
       case Success => Done(e.id, if d.write then d.subs[e.id].payload else e.data, true) in d.done
       case Timeout => e.open && d.subs[e.id].timed && e.id in d.fired
       case Canceled => !s.open && !s.byFail
       case Failed => !s.open && (s.byFail || d.bad)
  }

  ghost predicate TruthOk(d: Dir, s: Sock) {
    && (forall i :: 0 <= i < |d.log| ==> True(d, s, d.log[i]))
    && (forall i, k :: 0 <= i < |d.log| && 0 <= k < |d.done| && d.log[i].id == d.done[k].id ==>
          (d.log[i].res.Success? <==> d.done[k].delivered))
  }

  ghost predicate Placed(d: Dir, id: nat) {
    || (exists i :: 0 <= i < |d.q| && d.q[i].id == id)
    || (exists k :: 0 <= k < |d.done| && d.done[k].id == id)
    || id in d.dropped
  }

  /** Operation id is done with: its frame has moved, or a timer has taken it out of the queue. */
  ghost predicate Past(d: Dir, id: nat) {
    (exists k :: 0 <= k < |d.done| && d.done[k].id == id) || id in d.dropped
  }

  /** No operation is passed over: all older than one whose frame has moved are done with. */
  ghost predicate PastOk(d: Dir) {
    forall k, id: nat :: 0 <= k < |d.done| && id < d.done[k].id ==> Past(d, id)
  }

  ghost predicate PlaceOk(d: Dir, s: Sock) {
    && (forall id :: id in d.dropped ==> id < |d.subs|)
    && (forall i :: 0 <= i < |d.q| ==> d.q[i].id !in d.dropped)
    && (forall k :: 0 <= k < |d.done| ==> d.done[k].id !in d.dropped)
    && (s.open || d.q != [] ==> d.cut == [])
    && (s.open ==> !d.bad)
    && (s.open || d.q != [] ==> forall id: nat :: id < |d.subs| ==> Placed(d, id))
    && PastOk(d)
    && (d.bad ==> d.q == [] && |d.cut| == PREFIX && !Acceptable(Number(d.cut)))
  }

  /** What write id left unfinished is a proper beginning of its frame; no timer had taken it out. */
  ghost predicate CutFrom(d: Dir, id: nat) {
    && id < |d.subs| && d.cut < Frame(d.subs[id].payload) && id !in d.dropped
    && forall k :: 0 <= k < |d.done| ==> d.done[k].id < id
  }

  ghost predicate CutOk(d: Dir) {
    d.write && d.cut != [] ==> exists id: nat :: CutFrom(d, id)
  }

  ghost predicate Inv(d: Dir, s: Sock) {
    QueueOk(d) && StreamOk(d) && DoneOk(d) && LogOk(d) && TruthOk(d, s) && PlaceOk(d, s) && CutOk(d)
  }

  // ----- counting results -----

  lemma {:induction false} CountAppend(a: seq<Entry>, b: seq<Entry>, id: nat)
    ensures Count(a + b, id) == Count(a, id) + Count(b, id)
  {
    if b == [] {
      assert a + b == a;
    } else {
      CountAppend(a, b[..|b| - 1], id);
      assert (a + b)[..|a + b| - 1] == a + b[..|b| - 1];
    }
  }

  lemma CountTaken(op: Op, r: PipeRes, open: bool, id: nat)
    ensures Count(TakeResult(op, r, open), id) == Waits(op, id)
  {
    if !op.resolved {
      assert TakeResult(op, r, open)[..0] == [];
    }
  }

  lemma {:induction false} CountResults(q: seq<Op>, r: PipeRes, id: nat)
    ensures Count(Results(q, r, false), id) == Waiting(q, id)
  {
    if q != [] {
      CountResults(q[1..], r, id);
      CountTaken(q[0], r, false, id);
      CountAppend(TakeResult(q[0], r, false), Results(q[1..], r, false), id);
    }
  }

  lemma {:induction false} ResultsAre(q: seq<Op>, r: PipeRes, e: Entry)
    requires e in Results(q, r, false)
    ensures e.res == r && exists i :: 0 <= i < |q| && q[i].id == e.id
  {
    if e in TakeResult(q[0], r, false) {
      assert q[0].id == e.id;
    } else {
      ResultsAre(q[1..], r, e);
      var i :| 0 <= i < |q[1..]| && q[1..][i].id == e.id;
      assert q[i + 1].id == e.id;
    }
  }

  lemma {:induction false} WaitingAppend(a: seq<Op>, b: seq<Op>, id: nat)
    ensures Waiting(a + b, id) == Waiting(a, id) + Waiting(b, id)
  {
    if a == [] {
      assert a + b == b;
    } else {
      WaitingAppend(a[1..], b, id);
      assert (a + b)[1..] == a[1..] + b;
    }
  }

  lemma WaitingWithout(q: seq<Op>, i: nat, id: nat)
    requires i < |q|
    ensures Waiting(q, id) == Waiting(Without(q, i), id) + Waits(q[i], id)
  {
    assert q == q[..i] + ([q[i]] + q[i + 1..]);
    WaitingAppend(q[..i], [q[i]] + q[i + 1..], id);
    WaitingAppend(q[..i], q[i + 1..], id);
    assert ([q[i]] + q[i + 1..])[1..] == q[i + 1..];
  }

  // ----- completing everything -----

  lemma CompleteAllSettles(d: Dir, r: PipeRes)
    requires LogOk(d)
    ensures LogOk(CompleteAll(d, r))
  {
    forall id: nat
      ensures Settled(CompleteAll(d, r), id)
    {
      assert Settled(d, id);
      CountResults(d.q, r, id);
      CountAppend(d.log, Results(d.q, r, false), id);
    }
  }

  ghost predicate Fits(r: PipeRes, d: Dir, s: Sock) {
    || (r == Canceled && !s.open && !s.byFail)
    || (r == Failed && !s.open && (s.byFail || d.bad))
  }

  /** What is left of the bookkeeping while an operation is being handled. */
  ghost predicate Books(d: Dir, s: Sock) {
    && (forall i :: 0 <= i < |d.q| ==> OpOk(d, d.q[i]))
    && StreamOk(d.(io := Idle)) && DoneOk(d) && LogOk(d) && TruthOk(d, s)
    && (forall id :: id in d.dropped ==> id < |d.subs|)
    && (forall k :: 0 <= k < |d.done| ==> d.done[k].id !in d.dropped)
    && PastOk(d)
  }

  lemma CompleteAllTruth(d: Dir, r: PipeRes, s: Sock)
    requires TruthOk(d, s) && DoneOk(d) && Fits(r, d, s) && forall i :: 0 <= i < |d.q| ==> OpOk(d, d.q[i])
    ensures TruthOk(CompleteAll(d, r), s)
  {
    var d' := CompleteAll(d, r);
    var added := Results(d.q, r, false);
    forall i | 0 <= i < |d'.log|
      ensures True(d', s, d'.log[i])
      ensures forall k :: 0 <= k < |d'.done| && d'.log[i].id == d'.done[k].id ==>
                (d'.log[i].res.Success? <==> d'.done[k].delivered)
    {
      if i < |d.log| {
        assert d'.log[i] == d.log[i];
        assert True(d, s, d.log[i]);
      } else {
        var e := added[i - |d.log|];
        assert d'.log[i] == e;
        ResultsAre(d.q, r, e);
        var j :| 0 <= j < |d.q| && d.q[j].id == e.id;
        assert OpOk(d, d.q[j]);
      }
    }
  }

  lemma CompleteAllPlaces(d: Dir, r: PipeRes, s: Sock)
    requires d.q != [] && !s.open && PastOk(d) && (forall id :: id in d.dropped ==> id < |d.subs|)
    requires forall k :: 0 <= k < |d.done| ==> d.done[k].id !in d.dropped
    requires d.bad ==> |d.q[0].Part()| == PREFIX && !Acceptable(Number(d.q[0].Part()))
    ensures PlaceOk(CompleteAll(d, r), s)
  {
    PastGrows(d, CompleteAll(d, r));
  }

  lemma CompleteAllCut(d: Dir, r: PipeRes)
    requires d.q != [] && OpOk(d, d.q[0]) && d.q[0].id !in d.dropped && (d.write ==> HeadOk(d.q[0]))
    requires forall k :: 0 <= k < |d.done| ==> d.done[k].id < d.q[0].id
    ensures CutOk(CompleteAll(d, r))
  {
    if d.write {
      assert CutFrom(CompleteAll(d, r), d.q[0].id);
    }
  }

  lemma CompleteAllKeeps(d: Dir, r: PipeRes, s: Sock)
    requires Books(d, s) && d.q != [] && Fits(r, d, s)
    requires d.bad ==> |d.q[0].Part()| == PREFIX && !Acceptable(Number(d.q[0].Part()))
    requires d.write ==> HeadOk(d.q[0])
    requires d.q[0].id !in d.dropped
    ensures Inv(CompleteAll(d, r), s)
  {
    CompleteAllSettles(d, r);
    CompleteAllTruth(d, r, s);
    CompleteAllPlaces(d, r, s);
    assert OpOk(d, d.q[0]);
    CompleteAllCut(d, r);
    CompleteAllStream(d, r);
  }

  lemma CompleteAllStream(d: Dir, r: PipeRes)
    requires d.q != [] && StreamOk(d.(io := Idle)) && DoneOk(d)
    ensures var d' := CompleteAll(d, r); StreamOk(d') && DoneOk(d') && QueueOk(d')
  {
    assert d.q[0].Part() + [] == d.q[0].Part();
  }

  // ----- handling a finished socket operation -----

  /** The state inside a handler: the oldest operation has absorbed its bytes. */
  ghost predicate Handling(d: Dir, s: Sock) {
    && d.q != [] && Books(d, s) && !d.bad
    && (forall i, j :: 0 <= i < j < |d.q| ==> d.q[i].id < d.q[j].id)
    && (forall i :: 0 < i < |d.q| ==> Untouched(d.q[i]))
    && PlaceOk(d, s)
  }

  lemma PartGrows(op: Op, data: seq<byte>)
    requires HeadOk(op)
    requires op.WriteOp? ==> op.sent + |data| <= |Frame(op.payload)|
    requires op.WriteOp? ==> data == Frame(op.payload)[op.sent..op.sent + |data|]
    ensures op.AddBytes(data).Part() == op.Part() + data
  {
  }

  lemma ReceivedIsHandling(d: Dir, s: Sock)
    requires Inv(d, s) && d.q != [] && d.io.Ready?
    ensures Handling(Received(d), s)
    ensures Received(d).q[0] == d.q[0].AddBytes(d.io.data)
    ensures Received(d).q[0].Part() == d.q[0].Part() + d.io.data
  {
    var op, d1 := d.q[0], Received(d);
    assert OpOk(d, op) && OpOk(d1, d1.q[0]);
    if d.io.ok {
      PartGrows(op, d.io.data);
    } else {
      assert op.Part() + [] == op.Part();
      assert op.ReadOp? ==> op.got + [] == op.got;
    }
    assert InFlight(d1.(io := Idle)) == InFlight(d);
    ReceivedBooks(d, s);
    ReceivedQueue(d);
  }

  lemma ReceivedQueue(d: Dir)
    requires QueueOk(d) && d.q != [] && d.io.Ready?
    ensures var q := Received(d).q;
            && (forall i, j :: 0 <= i < j < |q| ==> q[i].id < q[j].id)
            && (forall i :: 0 < i < |q| ==> Untouched(q[i]))
  {
    assert forall i :: 0 <= i < |d.q| ==> Received(d).q[i].id == d.q[i].id;
  }

  lemma ReceivedBooks(d: Dir, s: Sock)
    requires Inv(d, s) && d.q != [] && d.io.Ready?
    ensures DoneOk(Received(d)) && LogOk(Received(d)) && TruthOk(Received(d), s) && PlaceOk(Received(d), s)
    ensures forall i :: 0 <= i < |Received(d).q| ==> OpOk(Received(d), Received(d).q[i])
  {
    var d1 := Received(d);
    forall i | 0 <= i < |d1.q|
      ensures OpOk(d1, d1.q[i])
    {
      assert OpOk(d, d.q[i]);
    }
    forall id: nat
      ensures Settled(d1, id)
    {
      assert Settled(d, id);
      assert d1.q[1..] == d.q[1..];
    }
    TruthSurvives(d, d1, s);
    assert forall i :: 0 <= i < |d.q| ==> d1.q[i].id == d.q[i].id;
    SamePlaces(d, d1, s);
  }

  /** What is done with stays so. */
  lemma PastGrows(d: Dir, d': Dir)
    requires PastOk(d) && d.done == d'.done && d.dropped <= d'.dropped
    ensures PastOk(d')
  {
    forall k, id: nat | 0 <= k < |d'.done| && id < d'.done[k].id
      ensures Past(d', id)
    {
      assert Past(d, id);
    }
  }

  lemma SamePlaces(d: Dir, d1: Dir, s: Sock)
    requires PlaceOk(d, s) && |d.q| == |d1.q| && forall i :: 0 <= i < |d.q| ==> d1.q[i].id == d.q[i].id
    requires d1.done == d.done && d1.dropped == d.dropped && d1.subs == d.subs && d1.cut == d.cut && d1.bad == d.bad
    ensures PlaceOk(d1, s)
  {
    PastGrows(d, d1);
    forall id: nat | id < |d.subs| && Placed(d, id)
      ensures Placed(d1, id)
    {
      if i :| 0 <= i < |d.q| && d.q[i].id == id {
        assert d1.q[i].id == id;
      }
    }
  }

  lemma ResumeKeeps(d: Dir, s: Sock, header: bool)
    requires Handling(d, s) && s.open && HeadOk(d.q[0]) && (header <==> !d.q[0].HeaderDone())
    ensures Inv(d.(io := Pending(header)), s)
  {
    var d' := d.(io := Pending(header));
    assert forall id: nat :: Settled(d, id) ==> Settled(d', id);
    forall i | 0 <= i < |d'.log|
      ensures True(d', s, d'.log[i])
    {
      assert True(d, s, d.log[i]);
    }
    forall i | 0 <= i < |d'.q|
      ensures OpOk(d', d'.q[i])
    {
      assert OpOk(d, d.q[i]);
    }
    assert StreamOk(d') by {
      assert InFlight(d') == InFlight(d.(io := Idle));
    }
    SamePlaces(d, d', s);
  }

  lemma EndKeeps(d: Dir, s: Sock, r: PipeRes)
    requires Handling(d, s) && Fits(r, d, s) && (d.write ==> HeadOk(d.q[0]))
    ensures Inv(CompleteAll(d, r), s)
  {
    CompleteAllKeeps(d, r, s);
  }

  /** Closing does not contradict any result given before. */
  lemma CloseKeepsTruth(d: Dir, s: Sock, fail: bool)
    requires TruthOk(d, s)
    ensures TruthOk(d, s.Closed(fail))
  {
    forall i | 0 <= i < |d.log|
      ensures True(d, s.Closed(fail), d.log[i])
    {
      assert True(d, s, d.log[i]);
    }
  }

  lemma CloseKeepsHandling(d: Dir, s: Sock, fail: bool)
    requires Handling(d, s)
    ensures Handling(d, s.Closed(fail))
  {
    CloseKeepsTruth(d, s, fail);
  }

  lemma StartHeaderKeeps(d: Dir, s: Sock)
    requires Handling(d, s) && HeadOk(d.q[0]) && !d.q[0].HeaderDone()
    ensures Inv(StartHeader(d, s), s)
  {
    if s.open {
      ResumeKeeps(d, s, true);
    } else {
      EndKeeps(d, s, s.Why());
    }
  }

  lemma BadBooks(d: Dir, s: Sock)
    requires Books(d, s) && d.q != [] && !s.open
    ensures Books(d.(bad := true), s)
  {
    var d' := d.(bad := true);
    PastGrows(d, d');
    forall i | 0 <= i < |d'.log|
      ensures True(d', s, d'.log[i])
    {
      assert True(d, s, d.log[i]);
    }
    forall i | 0 <= i < |d'.q|
      ensures OpOk(d', d'.q[i])
    {
      assert OpOk(d, d.q[i]);
    }
    assert forall id: nat :: Settled(d, id) ==> Settled(d', id);
    assert InFlight(d'.(io := Idle)) == InFlight(d.(io := Idle));
  }

  /** A bad length closes the endpoint as failed. */
  lemma BadPrefixKeeps(d: Dir, s: Sock)
    requires Handling(d, s) && d.q[0].ReadOp? && |d.q[0].got| == PREFIX && !Acceptable(Number(d.q[0].got))
    ensures Inv(CompleteAll(d.(bad := true), Failed), s.Closed(true))
  {
    assert OpOk(d, d.q[0]);
    CloseKeepsHandling(d, s, true);
    BadBooks(d, s.Closed(true));
    CompleteAllKeeps(d.(bad := true), Failed, s.Closed(true));
  }

  lemma StartPayloadKeeps(d: Dir, s: Sock)
    requires Handling(d, s) && d.q[0].HeaderDone()
    requires d.q[0].BufferValid() ==> HeadOk(d.q[0])
    requires !d.q[0].BufferValid() ==> |d.q[0].got| == PREFIX && !Acceptable(Number(d.q[0].got))
    ensures Inv(StartPayload(d, s).0, StartPayload(d, s).1)
  {
    if !d.q[0].BufferValid() {
      BadPrefixKeeps(d, s);
    } else if s.open {
      ResumeKeeps(d, s, false);
    } else {
      EndKeeps(d, s, s.Why());
    }
  }

  lemma HeaderAbsorbed(op: Op, io: Io)
    requires HeadOk(op) && IoOk(op, io) && io.Ready? && io.ok && io.header
    requires op.WriteOp? ==> op.payload != []
    ensures var op' := op.AddBytes(io.data);
            && (!op'.HeaderDone() || op'.BufferValid() ==> HeadOk(op'))
            && (op'.HeaderDone() && !op'.BufferValid() ==> |op'.got| == PREFIX && !Acceptable(Number(op'.got)))
  {
    if op.ReadOp? {
      var all := op.got + io.data;
      assert |all| == PREFIX ==> all[..PREFIX] == all;
    }
  }

  lemma PayloadAbsorbed(op: Op, io: Io)
    requires HeadOk(op) && IoOk(op, io) && io.Ready? && io.ok && !io.header
    ensures var op' := op.AddBytes(io.data);
            && op'.HeaderDone() && op'.BufferValid()
            && (!op'.PayloadDone() ==> HeadOk(op'))
            && (op'.PayloadDone() ==> op'.Part() == Frame(op'.Message()))
            && (op'.PayloadDone() && op'.ReadOp? ==> Acceptable(|op'.Message()|))
  {
    var op' := op.AddBytes(io.data);
    if op.ReadOp? {
      assert op'.got[..PREFIX] == op.got[..PREFIX];
      if op'.PayloadDone() {
        ReadFrame(op'.got);
      }
    } else if op'.PayloadDone() {
      assert Frame(op.payload)[..|Frame(op.payload)|] == Frame(op.payload);
    }
  }

  /** Bytes whose length prefix is right and acceptable are a frame. */
  lemma ReadFrame(got: seq<byte>)
    requires |got| >= PREFIX && |got| == PREFIX + Number(got[..PREFIX]) && Acceptable(Number(got[..PREFIX]))
    ensures got == Frame(got[PREFIX..])
  {
    SizeFits(|got| - PREFIX);
    BigEndianOfNumber(got[..PREFIX]);
  }

  lemma PoppedStream(d: Dir, s: Sock)
    requires d.q != [] && StreamOk(d.(io := Idle)) && d.q[0].Part() == Frame(d.q[0].Message())
    ensures Popped(d, s).stream == Frames(Payloads(Popped(d, s).done)) + []
  {
    var m := d.q[0].Message();
    assert Payloads(Popped(d, s).done) == Payloads(d.done) + [m];
    FramesGrow(Payloads(d.done), m);
    assert InFlight(d.(io := Idle)) == Frame(m);
  }

  lemma PoppedSettles(d: Dir, s: Sock)
    requires d.q != [] && LogOk(d)
    ensures LogOk(Popped(d, s))
  {
    forall id: nat
      ensures Settled(Popped(d, s), id)
    {
      assert Settled(d, id);
      CountTaken(d.q[0], Success, s.open, id);
      CountAppend(d.log, TakeResult(d.q[0], Success, s.open), id);
    }
  }

  lemma PoppedTruth(d: Dir, s: Sock)
    requires Handling(d, s) && d.q[0].PayloadDone()
    ensures TruthOk(Popped(d, s), s)
  {
    var d', op := Popped(d, s), d.q[0];
    assert OpOk(d, op);
    var x := Done(op.id, op.Message(), !op.resolved);
    assert x == d'.done[|d.done|];
    forall i | 0 <= i < |d'.log|
      ensures True(d', s, d'.log[i])
      ensures forall k :: 0 <= k < |d'.done| && d'.log[i].id == d'.done[k].id ==>
                (d'.log[i].res.Success? <==> d'.done[k].delivered)
    {
      if i < |d.log| {
        assert True(d, s, d.log[i]);
        OldResultsOfPopped(d, s, i);
      }
    }
  }

  /** A result of the oldest operation given earlier was not a success. */
  lemma OldResultsOfPopped(d: Dir, s: Sock, i: nat)
    requires Handling(d, s) && i < |d.log|
    ensures d.log[i].id == d.q[0].id ==> d.q[0].resolved && !d.log[i].res.Success?
  {
    if d.log[i].id == d.q[0].id {
      assert Settled(d, d.q[0].id);
      CountPositive(d.log, i);
      assert True(d, s, d.log[i]);
      assert forall k :: 0 <= k < |d.done| ==> d.done[k].id < d.q[0].id;
    }
  }

  lemma {:induction false} CountPositive(log: seq<Entry>, i: nat)
    requires i < |log|
    ensures Count(log, log[i].id) > 0
  {
    if i < |log| - 1 {
      CountPositive(log[..|log| - 1], i);
    }
  }

  /** The oldest operation is popped: whatever is older is done with. */
  lemma PoppedPast(d: Dir, s: Sock)
    requires d.q != [] && PastOk(d) && forall id: nat :: id < d.q[0].id ==> Placed(d, id)
    requires forall i, j :: 0 <= i < j < |d.q| ==> d.q[i].id < d.q[j].id
    ensures PastOk(Popped(d, s))
  {
    var d' := Popped(d, s);
    forall k, id: nat | 0 <= k < |d'.done| && id < d'.done[k].id
      ensures Past(d', id)
    {
      if k < |d.done| {
        assert Past(d, id);
      } else {
        assert Placed(d, id);
      }
      if j :| 0 <= j < |d.done| && d.done[j].id == id {
        assert d'.done[j].id == id;
      }
    }
  }

  lemma PoppedPlaces(d: Dir, s: Sock)
    requires d.q != [] && PlaceOk(d, s) && !d.bad
    requires forall i, j :: 0 <= i < j < |d.q| ==> d.q[i].id < d.q[j].id
    requires forall i :: 0 <= i < |d.q| ==> d.q[i].id < |d.subs|
    ensures PlaceOk(Popped(d, s), s)
  {
    var d' := Popped(d, s);
    assert d'.done[|d.done|].id == d.q[0].id;
    PoppedPast(d, s);
    forall id: nat | Placed(d, id)
      ensures Placed(d', id)
    {
      if i :| 0 <= i < |d.q| && d.q[i].id == id {
        if i > 0 {
          assert d'.q[i - 1].id == id;
        }
      } else if k :| 0 <= k < |d.done| && d.done[k].id == id {
        assert d'.done[k].id == id;
      }
    }
  }

  lemma PoppedDone(d: Dir, s: Sock)
    requires Handling(d, s) && (d.q[0].ReadOp? ==> Acceptable(|d.q[0].Message()|))
    ensures DoneOk(Popped(d, s))
  {
    assert OpOk(d, d.q[0]);
  }

  lemma PoppedOps(d: Dir, s: Sock)
    requires d.q != [] && forall i :: 0 <= i < |d.q| ==> OpOk(d, d.q[i])
    ensures forall i :: 0 <= i < |d.q| ==> d.q[i].id < |d.subs|
    ensures forall i :: 0 <= i < |Popped(d, s).q| ==> OpOk(Popped(d, s), Popped(d, s).q[i])
  {
    forall i | 0 <= i < |d.q|
      ensures d.q[i].id < |d.subs|
    {
      assert OpOk(d, d.q[i]);
    }
    forall i | 0 <= i < |Popped(d, s).q|
      ensures OpOk(Popped(d, s), Popped(d, s).q[i])
    {
      assert OpOk(d, d.q[i + 1]);
    }
  }

  lemma PopKeeps(d: Dir, s: Sock)
    requires Handling(d, s) && d.q[0].PayloadDone()
    requires d.q[0].Part() == Frame(d.q[0].Message())
    requires d.q[0].ReadOp? ==> Acceptable(|d.q[0].Message()|)
    ensures var d' := Popped(d, s);
            if d'.q == [] then Inv(d', s) else Handling(d', s) && HeadOk(d'.q[0]) && !d'.q[0].HeaderDone()
  {
    var d' := Popped(d, s);
    PoppedStream(d, s);
    PoppedSettles(d, s);
    PoppedTruth(d, s);
    PoppedOps(d, s);
    PoppedPlaces(d, s);
    PoppedDone(d, s);
    if d'.q != [] {
      assert Untouched(d.q[1]);
      assert OpOk(d', d'.q[0]);
      assert d'.q[0].Part() == [];
    }
  }

  // ----- every event -----

  lemma HandleKeeps(d: Dir, s: Sock)
    requires Inv(d, s) && d.q != [] && d.io.Ready?
    ensures Inv(OnIo(d, s).0, OnIo(d, s).1)
  {
    var d1 := Received(d);
    assert OpOk(d, d.q[0]);
    ReceivedIsHandling(d, s);
    if !d.io.ok {
      if s.open {
        CloseKeepsHandling(d1, s, true);
        EndKeeps(d1, s.Closed(true), Failed);
      } else {
        EndKeeps(d1, s, s.Why());
      }
    } else if d.io.header {
      HeaderAbsorbed(d.q[0], d.io);
      if !d1.q[0].HeaderDone() {
        StartHeaderKeeps(d1, s);
      } else {
        StartPayloadKeeps(d1, s);
      }
    } else {
      PayloadAbsorbed(d.q[0], d.io);
      if !d1.q[0].PayloadDone() {
        StartPayloadKeeps(d1, s);
      } else {
        PopKeeps(d1, s);
        if Popped(d1, s).q != [] {
          StartHeaderKeeps(Popped(d1, s), s);
        }
      }
    }
  }

  /** Adding to the queue, the accepted operations or the bytes moved leaves earlier results true. */
  lemma TruthSurvives(d: Dir, d': Dir, s: Sock)
    requires TruthOk(d, s) && d'.log == d.log && d'.done == d.done && d'.bad == d.bad && d'.write == d.write
    requires d.subs <= d'.subs && d.fired <= d'.fired
    ensures TruthOk(d', s)
  {
    forall i | 0 <= i < |d'.log|
      ensures True(d', s, d'.log[i])
    {
      assert True(d, s, d.log[i]);
    }
  }

  lemma AcceptSettles(d: Dir, sub: Sub)
    requires LogOk(d) && forall i :: 0 <= i < |d.q| ==> d.q[i].id < |d.subs|
    requires forall i :: 0 <= i < |d.log| ==> d.log[i].id < |d.subs|
    ensures LogOk(Submit(d, sub))
  {
    forall id: nat
      ensures Settled(Submit(d, sub), id)
    {
      assert Settled(d, id);
      WaitingAppend(d.q, [NewOp(d, sub)], id);
      assert [NewOp(d, sub)][1..] == [];
    }
  }

  lemma AcceptPlaces(d: Dir, s: Sock, sub: Sub)
    requires PlaceOk(d, s) && s.open
    ensures PlaceOk(Submit(d, sub), s)
  {
    var d' := Submit(d, sub);
    PastGrows(d, d');
    assert d'.q[|d.q|].id == |d.subs|;
    forall id: nat | id < |d'.subs|
      ensures Placed(d', id)
    {
      if id < |d.subs| {
        assert Placed(d, id);
        if i :| 0 <= i < |d.q| && d.q[i].id == id {
          assert d'.q[i].id == id;
        }
      }
    }
  }

  lemma AcceptQueue(d: Dir, sub: Sub)
    requires QueueOk(d) && (d.write ==> sub.payload != [])
    ensures QueueOk(Submit(d, sub))
  {
    var d' := Submit(d, sub);
    forall i | 0 <= i < |d'.q|
      ensures OpOk(d', d'.q[i])
    {
      if i < |d.q| {
        assert OpOk(d, d.q[i]);
      }
    }
  }

  lemma KnownIds(d: Dir, s: Sock)
    requires TruthOk(d, s) && QueueOk(d)
    ensures forall i :: 0 <= i < |d.log| ==> d.log[i].id < |d.subs|
    ensures forall i :: 0 <= i < |d.q| ==> d.q[i].id < |d.subs|
  {
    forall i | 0 <= i < |d.log|
      ensures d.log[i].id < |d.subs|
    {
      assert True(d, s, d.log[i]);
    }
    forall i | 0 <= i < |d.q|
      ensures d.q[i].id < |d.subs|
    {
      assert OpOk(d, d.q[i]);
    }
  }

  lemma AcceptKeeps(d: Dir, s: Sock, sub: Sub)
    requires Inv(d, s) && Enabled(d, s, Accept(sub))
    ensures Inv(Submit(d, sub), s)
  {
    var d' := Submit(d, sub);
    AcceptQueue(d, sub);
    KnownIds(d, s);
    AcceptSettles(d, sub);
    AcceptPlaces(d, s, sub);
    TruthSurvives(d, d', s);
    AcceptStream(d, s, sub);
  }

  lemma AcceptStream(d: Dir, s: Sock, sub: Sub)
    requires StreamOk(d) && DoneOk(d) && d.cut == [] && (d.q != [] ==> d.io.Ready? || d.io.Pending?)
    ensures StreamOk(Submit(d, sub)) && DoneOk(Submit(d, sub)) && CutOk(Submit(d, sub))
  {
    assert InFlight(Submit(d, sub)) == InFlight(d);
  }

  /** A change of the socket operation alone. */
  lemma IoChange(d: Dir, d': Dir, s: Sock)
    requires Inv(d, s) && d.q != [] && IoOk(d.q[0], d'.io)
    requires d' == d.(io := d'.io, stream := d'.stream)
    ensures QueueOk(d') && DoneOk(d') && LogOk(d') && TruthOk(d', s) && PlaceOk(d', s)
  {
    TruthSurvives(d, d', s);
    SamePlaces(d, d', s);
    forall i | 0 <= i < |d'.q|
      ensures OpOk(d', d'.q[i])
    {
      assert OpOk(d, d.q[i]);
    }
    forall id: nat
      ensures Settled(d', id)
    {
      assert Settled(d, id);
    }
  }

  lemma MoveKeeps(d: Dir, s: Sock, data: seq<byte>)
    requires Inv(d, s) && Enabled(d, s, Move(data))
    ensures Inv(Next(d, s, Move(data)).0, s)
  {
    var d' := Next(d, s, Move(data)).0;
    assert OpOk(d, d.q[0]);
    IoChange(d, d', s);
    MoveStream(d, data);
  }

  lemma MoveStream(d: Dir, data: seq<byte>)
    requires StreamOk(d) && d.q != [] && d.io.Pending?
    ensures StreamOk(d.(io := Ready(d.io.header, true, data), stream := d.stream + data))
  {
    var d' := d.(io := Ready(d.io.header, true, data), stream := d.stream + data);
    var part := d.q[0].Part();
    assert InFlight(d') == part + data && InFlight(d) == part + [] == part;
    var whole := Frames(Payloads(d.done));
    assert whole + part + data == whole + (part + data);
  }

  lemma FaultKeeps(d: Dir, s: Sock)
    requires Inv(d, s) && d.io.Pending?
    ensures Inv(Next(d, s, Fault).0, s)
  {
    var d' := Next(d, s, Fault).0;
    IoChange(d, d', s);
    assert InFlight(d') == InFlight(d);
  }

  lemma CloseKeeps(d: Dir, s: Sock, fail: bool)
    requires Inv(d, s)
    ensures Inv(d, s.Closed(fail))
  {
    CloseKeepsTruth(d, s, fail);
  }

  lemma TimerSettles(d: Dir, s: Sock, id: nat)
    requires LogOk(d)
    ensures LogOk(OnTimer(d, s, id))
  {
    var at := IndexOf(d.q, id);
    if at.Some? {
      var i, r := at.value, if s.open then Timeout else s.Why();
      forall n: nat
        ensures Settled(OnTimer(d, s, id), n)
      {
        assert Settled(d, n);
        CountTaken(d.q[i], r, s.open, n);
        CountAppend(d.log, TakeResult(d.q[i], r, s.open), n);
        if i == 0 {
          assert d.q[0 := d.q[0].(resolved := true)][1..] == d.q[1..];
        } else {
          WaitingWithout(d.q, i, n);
        }
      }
    }
  }

  /** A result given to a queued operation that is not a success. */
  lemma LateResultTruth(d: Dir, s: Sock, i: nat, r: PipeRes, log: seq<Entry>)
    requires QueueOk(d) && DoneOk(d) && TruthOk(d, s) && i < |d.q|
    requires if s.open then r == Timeout && d.q[i].timed && d.q[i].id in d.fired else r == s.Why()
    requires log == d.log + TakeResult(d.q[i], r, s.open)
    ensures TruthOk(d.(log := log), s)
  {
    var d' := d.(log := log);
    assert OpOk(d, d.q[i]);
    forall j | 0 <= j < |d'.log|
      ensures True(d', s, d'.log[j])
    {
      if j < |d.log| {
        assert True(d, s, d.log[j]);
      }
    }
  }

  lemma TimerTruth(d: Dir, s: Sock, id: nat)
    requires Inv(d, s) && Enabled(d, s, Timer(id)) && (s.open ==> id in d.fired)
    ensures TruthOk(OnTimer(d, s, id), s)
  {
    var d', at := OnTimer(d, s, id), IndexOf(d.q, id);
    if at.Some? {
      LateResultTruth(d, s, at.value, if s.open then Timeout else s.Why(), d'.log);
      TruthSurvives(d.(log := d'.log), d', s);
    }
  }

  lemma TimerPlaces(d: Dir, s: Sock, id: nat)
    requires QueueOk(d) && DoneOk(d) && PlaceOk(d, s)
    ensures PlaceOk(OnTimer(d, s, id), s)
  {
    var d', at := OnTimer(d, s, id), IndexOf(d.q, id);
    if at.Some? {
      assert OpOk(d, d.q[at.value]);
      if at.value == 0 {
        SamePlaces(d, d', s);
      } else {
        BehindRemovedPlaces(d, s, at.value, d'.log);
      }
    }
  }

  lemma BehindRemovedPlaces(d: Dir, s: Sock, i: nat, log: seq<Entry>)
    requires DoneOk(d) && PlaceOk(d, s) && 0 < i < |d.q| && d.q[i].id < |d.subs|
    requires forall j, k :: 0 <= j < k < |d.q| ==> d.q[j].id < d.q[k].id
    ensures PlaceOk(d.(log := log, q := Without(d.q, i), dropped := d.dropped + {d.q[i].id}), s)
  {
    var d' := d.(log := log, q := Without(d.q, i), dropped := d.dropped + {d.q[i].id});
    PastGrows(d, d');
    forall n: nat | Placed(d, n)
      ensures Placed(d', n)
    {
      if j :| 0 <= j < |d.q| && d.q[j].id == n {
        if j < i {
          assert d'.q[j].id == n;
        } else if j > i {
          assert d'.q[j - 1].id == n;
        }
      }
    }
    assert forall j :: 0 <= j < |d'.q| ==> d'.q[j] == d.q[if j < i then j else j + 1];
  }

  lemma OldestResolved(d: Dir, log: seq<Entry>)
    requires QueueOk(d) && DoneOk(d) && StreamOk(d) && d.q != []
    ensures var d' := d.(log := log, q := d.q[0 := d.q[0].(resolved := true)]);
            QueueOk(d') && DoneOk(d') && StreamOk(d')
  {
    var d' := d.(log := log, q := d.q[0 := d.q[0].(resolved := true)]);
    forall i | 0 <= i < |d'.q|
      ensures OpOk(d', d'.q[i])
    {
      assert OpOk(d, d.q[i]);
    }
    assert d'.q[0].Part() == d.q[0].Part();
    assert InFlight(d') == InFlight(d);
  }

  lemma BehindRemoved(d: Dir, i: nat, log: seq<Entry>, dropped: set<nat>)
    requires QueueOk(d) && 0 < i < |d.q|
    ensures QueueOk(d.(log := log, q := Without(d.q, i), dropped := dropped))
  {
    var d' := d.(log := log, q := Without(d.q, i), dropped := dropped);
    forall j | 0 <= j < |d'.q|
      ensures OpOk(d', d'.q[j])
      ensures j > 0 ==> Untouched(d'.q[j])
    {
      assert OpOk(d, d.q[if j < i then j else j + 1]);
    }
  }

  lemma BehindRemovedStream(d: Dir, i: nat, log: seq<Entry>, dropped: set<nat>)
    requires DoneOk(d) && StreamOk(d) && 0 < i < |d.q|
    ensures var d' := d.(log := log, q := Without(d.q, i), dropped := dropped);
            DoneOk(d') && StreamOk(d')
  {
    var d' := d.(log := log, q := Without(d.q, i), dropped := dropped);
    assert d'.q[0] == d.q[0];
    assert InFlight(d') == InFlight(d);
    assert forall j :: 0 <= j < |d'.q| ==> d'.q[j] == d.q[if j < i then j else j + 1];
  }

  lemma TimerQueue(d: Dir, s: Sock, id: nat)
    requires QueueOk(d) && DoneOk(d) && StreamOk(d)
    ensures var d' := OnTimer(d, s, id); QueueOk(d') && DoneOk(d') && StreamOk(d')
  {
    var d', at := OnTimer(d, s, id), IndexOf(d.q, id);
    if at.Some? {
      if at.value == 0 {
        OldestResolved(d, d'.log);
      } else {
        BehindRemoved(d, at.value, d'.log, d'.dropped);
        BehindRemovedStream(d, at.value, d'.log, d'.dropped);
      }
    }
  }

  lemma FireKeeps(d: Dir, s: Sock, id: nat)
    requires Inv(d, s)
    ensures Inv(Fire(d, s, id), s)
  {
    var d' := Fire(d, s, id);
    TruthSurvives(d, d', s);
    SamePlaces(d, d', s);
    FireQueue(d, d');
    FireCut(d, d');
  }

  lemma FireQueue(d: Dir, d': Dir)
    requires QueueOk(d) && StreamOk(d) && DoneOk(d) && LogOk(d) && d' == d.(fired := d'.fired)
    ensures QueueOk(d') && StreamOk(d') && DoneOk(d') && LogOk(d')
  {
    forall n: nat
      ensures Settled(d', n)
    {
      assert Settled(d, n);
    }
    forall i | 0 <= i < |d'.q|
      ensures OpOk(d', d'.q[i])
    {
      assert OpOk(d, d.q[i]);
    }
    assert InFlight(d') == InFlight(d);
  }

  lemma FireCut(d: Dir, d': Dir)
    requires CutOk(d) && d' == d.(fired := d'.fired)
    ensures CutOk(d')
  {
    if d.write && d.cut != [] {
      var id: nat :| CutFrom(d, id);
      assert CutFrom(d', id);
    }
  }

  lemma TimerKeeps(d: Dir, s: Sock, id: nat)
    requires Inv(d, s) && Enabled(d, s, Timer(id)) && (s.open ==> id in d.fired)
    ensures Inv(OnTimer(d, s, id), s)
  {
    TimerSettles(d, s, id);
    TimerTruth(d, s, id);
    TimerPlaces(d, s, id);
    TimerQueue(d, s, id);
  }

  /** Every event keeps the invariant. */
  lemma EventKeeps(d: Dir, s: Sock, ev: Event)
    requires Inv(d, s) && Enabled(d, s, ev)
    ensures Inv(Next(d, s, ev).0, Next(d, s, ev).1)
  {
    match ev
    case Accept(sub) => AcceptKeeps(d, s, sub);
    case Move(data) => MoveKeeps(d, s, data);
    case Fault => FaultKeeps(d, s);
    case Handle => HandleKeeps(d, s);
    case Timer(id) =>
      FireKeeps(d, s, id);
      TimerKeeps(Fire(d, s, id), s, id);
    case Close(fail) => CloseKeeps(d, s, fail);
  }
}
