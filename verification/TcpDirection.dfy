/**
 One direction of a TCP pipe endpoint: a queue of operations of which only the oldest has a socket
 operation outstanding. Writing and reading share this code, as they do in the source template.

 The queue is kept oldest first; q[0] is the list's back().
 */
module TcpDirection {
  import opened Prelude
  import opened Bytes
  import opened TcpFraming
  import opened PipeOps

  datatype Op =
    | WriteOp(id: nat, timed: bool, resolved: bool, payload: seq<byte>, sent: nat)
    | ReadOp(id: nat, timed: bool, resolved: bool, got: seq<byte>, size: Option<nat>)
  {
    function Moved(): nat {
      if WriteOp? then sent else |got|
    }

    predicate HeaderDone() {
      Moved() >= PREFIX
    }

    predicate PayloadDone() {
      if WriteOp? then sent == PREFIX + |payload| else size.Some? && |got| == size.value + PREFIX
    }

    /** A reader has a payload buffer once it has read an acceptable length. */
    predicate BufferValid() {
      WriteOp? || size.Some?
    }

    function AddBytes(data: seq<byte>): Op {
      if WriteOp? then this.(sent := sent + |data|)
      else
        var all := got + data;
        var sized := if size.None? && |all| == PREFIX && Acceptable(Number(all)) then Some(Number(all)) else size;
        this.(got := all, size := sized)
    }

    /** The bytes of this operation's frame that have moved so far, and its payload. */
    function Part(): seq<byte> {
      if WriteOp? then (if sent <= PREFIX + |payload| then Frame(payload)[..sent] else Frame(payload)) else got
    }

    function Message(): seq<byte> {
      if WriteOp? then payload else if |got| >= PREFIX then got[PREFIX..] else []
    }

    /** How many bytes the outstanding socket operation may move. */
    function Room(header: bool): nat {
      if header then (if Moved() <= PREFIX then PREFIX - Moved() else 0)
      else if WriteOp? then (if sent <= PREFIX + |payload| then PREFIX + |payload| - sent else 0)
      else if size.Some? && |got| <= PREFIX + size.value then PREFIX + size.value - |got|
      else 0
    }
  }

  /** A socket operation: none, outstanding, or finished with its handler not yet run. */
  datatype Io = Idle | Pending(header: bool) | Ready(header: bool, ok: bool, data: seq<byte>)

  datatype Sock = Sock(open: bool, byFail: bool)
  {
    function Closed(fail: bool): Sock {
      if open then Sock(false, fail) else this
    }

    /** The result of operations that a closed socket leaves behind. */
    function Why(): PipeRes {
      if byFail then Failed else Canceled
    }
  }

  /** A result given to a caller, and whether the socket was open at that moment. */
  datatype Entry = Entry(id: nat, res: PipeRes, data: seq<byte>, open: bool)

  /** A frame that has moved completely, and whether its operation was still waiting for it. */
  datatype Done = Done(id: nat, payload: seq<byte>, delivered: bool)

  datatype Sub = Sub(payload: seq<byte>, timed: bool)

  /**
   `log` are the results published so far. The remaining fields are history: all operations ever
   accepted, frames completed, operations a timer removed, operations whose timer fired while the
   socket was open, the bytes moved, the unfinished bytes of the last operation when the direction
   ended, and whether a bad length was read.
   */
  datatype Dir = Dir(
    write: bool, q: seq<Op>, io: Io, log: seq<Entry>,
    subs: seq<Sub>, done: seq<Done>, dropped: set<nat>, fired: set<nat>, stream: seq<byte>, cut: seq<byte>, bad: bool)

  function NewDir(write: bool): Dir {
    Dir(write, [], Idle, [], [], [], {}, {}, [], [], false)
  }

  function TakeResult(op: Op, r: PipeRes, open: bool): seq<Entry> {
    if op.resolved then [] else [Entry(op.id, r, if r.Success? && op.ReadOp? then op.Message() else [], open)]
  }

  function Results(q: seq<Op>, r: PipeRes, open: bool): seq<Entry> {
    if q == [] then [] else TakeResult(q[0], r, open) + Results(q[1..], r, open)
  }

  function CompleteAll(d: Dir, r: PipeRes): Dir {
    d.(q := [], io := Idle, log := d.log + Results(d.q, r, false),
       cut := if d.q == [] then d.cut else d.q[0].Part())
  }

  function StartHeader(d: Dir, s: Sock): Dir {
    if s.open then d.(io := Pending(true)) else CompleteAll(d, s.Why())
  }

  function StartPayload(d: Dir, s: Sock): (Dir, Sock)
    requires d.q != []
  {
    if !d.q[0].BufferValid() then (CompleteAll(d.(bad := true), Failed), s.Closed(true))
    else if s.open then (d.(io := Pending(false)), s)
    else (CompleteAll(d, s.Why()), s)
  }

  function NewOp(d: Dir, sub: Sub): Op {
    if d.write then WriteOp(|d.subs|, sub.timed, false, sub.payload, 0)
    else ReadOp(|d.subs|, sub.timed, false, [], None)
  }

  /** write_async and read_async on an open socket. */
  function Submit(d: Dir, sub: Sub): Dir {
    var d' := d.(q := d.q + [NewOp(d, sub)], subs := d.subs + [sub]);
    if |d'.q| == 1 then d'.(io := Pending(true)) else d'
  }

  function Popped(d: Dir, s: Sock): Dir
    requires d.q != []
  {
    var op := d.q[0];
    d.(q := d.q[1..], io := Idle, log := d.log + TakeResult(op, Success, s.open),
       done := d.done + [Done(op.id, op.Message(), !op.resolved)])
  }

  function Received(d: Dir): Dir
    requires d.q != [] && d.io.Ready?
  {
    d.(q := d.q[0 := d.q[0].AddBytes(d.io.data)])
  }

  /** on_header_operation and on_payload_operation. */
  function OnIo(d: Dir, s: Sock): (Dir, Sock)
    requires d.q != [] && d.io.Ready?
  {
    var d1 := Received(d);
    if !d.io.ok then
      if !s.open then (CompleteAll(d1, s.Why()), s) else (CompleteAll(d1, Failed), s.Closed(true))
    else if d.io.header then
      if !d1.q[0].HeaderDone() then (StartHeader(d1, s), s) else StartPayload(d1, s)
    else if !d1.q[0].PayloadDone() then StartPayload(d1, s)
    else
      var d2 := Popped(d1, s);
      if d2.q == [] then (d2, s) else (StartHeader(d2, s), s)
  }

  function IndexOf(q: seq<Op>, id: nat): (r: Option<nat>)
    ensures r.Some? ==> r.value < |q| && q[r.value].id == id
    ensures r.None? ==> forall i :: 0 <= i < |q| ==> q[i].id != id
  {
    if q == [] then None
    else if q[0].id == id then Some(0)
    else match IndexOf(q[1..], id) case None => None case Some(i) => Some(i + 1)
  }

  /** A timer goes off. */
  function Fire(d: Dir, s: Sock, id: nat): Dir {
    if s.open then d.(fired := d.fired + {id}) else d
  }

  /** The handler of a timer. */
  function OnTimer(d: Dir, s: Sock, id: nat): Dir {
    match IndexOf(d.q, id)
    case None => d
    case Some(i) =>
      var r := if s.open then Timeout else s.Why();
      var d' := d.(log := d.log + TakeResult(d.q[i], r, s.open));
      if i == 0 then d'.(q := d.q[0 := d.q[0].(resolved := true)])
      else d'.(q := Without(d.q, i), dropped := d.dropped + {id})
  }

  // ----- the code -----

  class SocketState {
    var open: bool
    var byFail: bool

    ghost function View(): Sock
      reads this
    {
      Sock(open, byFail)
    }

    constructor ()
      ensures View() == Sock(true, false)
    {
      open, byFail := true, false;
    }

    method Invalidate(byCancel: bool)
      modifies this
      ensures View() == old(View()).Closed(!byCancel)
    {
      if open {
        byFail := !byCancel;
        open := false;
      }
    }
  }

  lemma OneResult(log: seq<Entry>, q: seq<Op>, r: PipeRes)
    requires q != []
    ensures log + Results(q, r, false) == log + TakeResult(q[0], r, false) + Results(q[1..], r, false)
  {
  }

  /** The search for the operation a timer belongs to. */
  method Find(q: seq<Op>, id: nat) returns (at: Option<nat>)
    ensures at == IndexOf(q, id)
  {
    var i := 0;
    while i < |q| && q[i].id != id
      invariant 0 <= i <= |q|
      invariant forall j :: 0 <= j < i ==> q[j].id != id
    {
      i := i + 1;
    }
    if i == |q| {
      return None;
    }
    FirstIndex(q, id, i);
    return Some(i);
  }

  class Direction {
    const write: bool
    var q: seq<Op>
    var io: Io
    var log: seq<Entry>
    var next: nat
    const sock: SocketState
    ghost var subs: seq<Sub>
    ghost var done: seq<Done>
    ghost var dropped: set<nat>
    ghost var fired: set<nat>
    ghost var stream: seq<byte>
    ghost var cut: seq<byte>
    ghost var bad: bool

    ghost function View(): Dir
      reads this
    {
      Dir(write, q, io, log, subs, done, dropped, fired, stream, cut, bad)
    }

    ghost predicate Counted()
      reads this
    {
      next == |subs|
    }

    constructor (write: bool, sock: SocketState)
      ensures View() == NewDir(write) && this.sock == sock && Counted()
    {
      this.write, this.sock := write, sock;
      q, io, log, next := [], Idle, [], 0;
      subs, done, dropped, fired, stream, cut, bad := [], [], {}, {}, [], [], false;
    }

    /** Publishes results oldest first. */
    method CompleteAllOperations(r: PipeRes)
      modifies this
      ensures View() == CompleteAll(old(View()), r)
      ensures next == old(next)
    {
      ghost var q0, log0 := q, log;
      cut := if q == [] then cut else q[0].Part();
      ghost var cut0 := cut;
      while q != []
        invariant log + Results(q, r, false) == log0 + Results(q0, r, false)
        invariant View() == old(View()).(q := q, log := log, cut := cut0)
        invariant next == old(next)
        decreases |q|
      {
        OneResult(log, q, r);
        log := log + TakeResult(q[0], r, false);
        q := q[1..];
      }
      assert log + [] == log;
      io := Idle;
    }

    method StartHeaderAsync()
      requires q != []
      modifies this
      ensures View() == StartHeader(old(View()), sock.View())
      ensures next == old(next)
    {
      if !sock.open {
        CompleteAllOperations(if sock.byFail then Failed else Canceled);
        return;
      }
      io := Pending(true);
    }

    method StartPayloadAsync()
      requires q != []
      modifies this, sock
      ensures (View(), sock.View()) == StartPayload(old(View()), old(sock.View()))
      ensures next == old(next)
    {
      if !q[0].BufferValid() {
        bad := true;
        sock.Invalidate(false);
        CompleteAllOperations(Failed);
        return;
      }
      if !sock.open {
        CompleteAllOperations(if sock.byFail then Failed else Canceled);
        return;
      }
      io := Pending(false);
    }

    /** None when the socket is closed: the caller gets `failed` at once. */
    method SubmitAsync(sub: Sub) returns (id: Option<nat>)
      requires Counted()
      modifies this
      ensures View() == if sock.open then Submit(old(View()), sub) else old(View())
      ensures id == if sock.open then Some(old(next)) else None
      ensures Counted()
    {
      if !sock.open {
        return None;
      }
      id := Some(next);
      var op := if write then WriteOp(next, sub.timed, false, sub.payload, 0)
                else ReadOp(next, sub.timed, false, [], None);
      next := next + 1;
      q := q + [op];
      subs := subs + [sub];
      if |q| == 1 {
        StartHeaderAsync();
      }
    }

    method OnOperation()
      requires q != [] && io.Ready?
      modifies this, sock
      ensures (View(), sock.View()) == OnIo(old(View()), old(sock.View()))
      ensures next == old(next)
    {
      var header, ok, data := io.header, io.ok, io.data;
      q := q[0 := q[0].AddBytes(data)];
      if !ok {
        if !sock.open {
          CompleteAllOperations(if sock.byFail then Failed else Canceled);
        } else {
          sock.Invalidate(false);
          CompleteAllOperations(Failed);
        }
      } else if header {
        if !q[0].HeaderDone() {
          StartHeaderAsync();
        } else {
          StartPayloadAsync();
        }
      } else if !q[0].PayloadDone() {
        StartPayloadAsync();
      } else {
        log := log + TakeResult(q[0], Success, sock.open);
        done := done + [Done(q[0].id, q[0].Message(), !q[0].resolved)];
        q := q[1..];
        io := Idle;
        if q != [] {
          StartHeaderAsync();
        }
      }
    }

    method TimerFired(id: nat)
      modifies this
      ensures View() == OnTimer(Fire(old(View()), sock.View(), id), sock.View(), id)
      ensures next == old(next)
    {
      fired := if sock.open then fired + {id} else fired;
      var at := Find(q, id);
      if at.Some? {
        var i := at.value;
        var r := if sock.open then Timeout else if sock.byFail then Failed else Canceled;
        log := log + TakeResult(q[i], r, sock.open);
        if i == 0 {
          q := q[0 := q[0].(resolved := true)];
        } else {
          q := Without(q, i);
          dropped := dropped + {id};
        }
      }
    }
  }

  lemma {:induction false} FirstIndex(q: seq<Op>, id: nat, i: nat)
    requires i < |q| && q[i].id == id && forall j :: 0 <= j < i ==> q[j].id != id
    ensures IndexOf(q, id) == Some(i)
  {
    if i > 0 {
      FirstIndex(q[1..], id, i - 1);
    }
  }
}
