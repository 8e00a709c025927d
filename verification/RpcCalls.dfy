/**
 Two peers calling each other's methods: the channel that numbers calls and reads the responses,
 the service that answers them, and between them encoded messages that may be lost and may
 overtake one another.
 */
module RpcCalls {
  import opened Prelude
  import opened Bytes
  import opened TransferMessage
  import opened RequestMap

  const OK: byte := 0
  const REQUEST_PARSE_ERROR: byte := 3
  const RESPONSE_TOO_BIG: byte := 4
  const NOT_IMPLEMENTED: byte := 5
  const INVALID_REQUEST: byte := 6

  /** A call as its caller made it, and as a service answered it. */
  datatype Call = Call(idx: nat, payload: seq<byte>)
  datatype Served = Served(number: nat, call: Call, code: byte, bytes: seq<byte>)

  /** What a peer sends. Its receiver gets only the bytes. */
  datatype Msg = ReqMsg(number: nat, call: Call) | ResMsg(x: Served) | PingMsg | PongMsg

  function Encode(m: Msg): seq<byte> {
    match m
    case ReqMsg(number, call) => EncodeReq(number, call.idx, call.payload)
    case ResMsg(x) => EncodeRes(x.number, x.code, x.bytes)
    case PingMsg => [PING]
    case PongMsg => [PONG]
  }

  // ----- the service -----

  /** How many methods the service object has (0 if there is none), whether the request parses,
   and what the called method replies. */
  datatype App = App(methods: nat, parses: bool, code: byte, bytes: seq<byte>)

  function Respond(m: seq<byte>, app: App): Served {
    if !IsRequestValid(m) then Served(TWO64 - 1, Call(0, []), INVALID_REQUEST, [])
    else
      AccessorsStayInBounds(m);
      var n, call := MsgNumberReq(m).value, Call(MethodIdxReq(m).value, ProtoMessage(m).value);
      if call.idx >= app.methods then Served(n, call, NOT_IMPLEMENTED, [])
      else if !app.parses then Served(n, call, REQUEST_PARSE_ERROR, [])
      else if |app.bytes| > MAX_PROTO then Served(n, call, RESPONSE_TOO_BIG, [])
      else Served(n, call, app.code, app.bytes)
  }

  // ----- the channel -----

  /** What the caller is told, given what the request completed with and whether the payload parses. */
  function Interpret(c: Completion, number: nat, parses: bool): (Code, seq<byte>) {
    if c.code != Ok then (c.code, [])
    else if !IsResponseValid(c.buf) then (InvalidResponse, [])
    else if MsgType(c.buf) != Some(RES) || MsgNumberRes(c.buf) != Some(number) then (UnknownError, [])
    else
      AccessorsStayInBounds(c.buf);
      if ResponseCodeRes(c.buf) != Some(OK) then (RequestNotProcessed, [])
      else if !parses then (ResponseParseError, [])
      else (Ok, ProtoMessage(c.buf).value)
  }

  /** What becomes of a call when it is made. */
  datatype Admission = Refused(code: Code) | Accepted(number: nat)

  /** A call that is too big takes no number; one made while the connection is not running does. */
  function Admit(call: Call, running: bool, next: nat): (Admission, nat) {
    if |call.payload| > MAX_PROTO then (Refused(RequestTooBig), next)
    else if !running then (Refused(RespFailed), next + 1)
    else (Accepted(next), next + 1)
  }

  class Channel {
    var nextReqId: nat
    const connection: Connection

    constructor (connection: Connection)
      ensures nextReqId == 0 && this.connection == connection
    {
      nextReqId := 0;
      this.connection := connection;
    }

    /** The counter is a 64-bit one. The message is what is handed to the transport. */
    method CallMethod(call: Call, running: bool) returns (a: Admission, message: Option<seq<byte>>)
      requires nextReqId < TWO64 && nextReqId !in connection.reqs
      modifies this, connection
      ensures a == Admit(call, running, old(nextReqId)).0
      ensures nextReqId == Admit(call, running, old(nextReqId)).1 % TWO64
      ensures a.Refused? ==> message == None && connection.View() == old(connection.View())
      ensures a.Accepted? ==>
                && message == Some(Encode(ReqMsg(a.number, call)))
                && connection.View() == AddRequest(old(connection.View()), a.number)
    {
      if |call.payload| > MAX_PROTO {
        return Refused(RequestTooBig), None;
      }
      var reqId := nextReqId;
      nextReqId := (nextReqId + 1) % TWO64;
      if !running {
        return Refused(RespFailed), None;
      }
      connection.AddRequestToMap(reqId);
      return Accepted(reqId), Some(EncodeReq(reqId, call.idx, call.payload));
    }
  }

  // ----- two peers -----

  datatype Refusal = Refusal(call: Call, running: bool, code: Code)

  /**
   `next` is the channel's counter, `calls` the numbered calls it has passed on, `rejected` those
   it has not, with whether the connection was running and the result given at once. `work` holds
   received requests a worker has yet to run.
   */
  datatype Peer = Peer(
    next: nat, calls: map<nat, Call>, rejected: seq<Refusal>, conn: Conn,
    hasService: bool, work: multiset<Msg>, served: seq<Served>)

  datatype World = World(left: Peer, right: Peer, toLeft: multiset<Msg>, toRight: multiset<Msg>)

  function NewPeer(hasService: bool): Peer {
    Peer(0, map[], [], NEW_CONN, hasService, multiset{}, [])
  }

  ghost predicate Initial(w: World) {
    exists l, r :: w == World(NewPeer(l), NewPeer(r), multiset{}, multiset{})
  }

  function Flip(w: World): World {
    World(w.right, w.left, w.toRight, w.toLeft)
  }

  datatype Event =
    | CallMethod(call: Call, running: bool)
    | Deliver(m: Msg)
    | Lose(m: Msg)
    | Serve(m: Msg, app: App)
    | ConnEvent(ev: RequestMap.Event)
    | WatchPing

  // What happens at the left peer; the right one is its mirror image.

  ghost predicate LeftEnabled(w: World, e: Event) {
    match e
    case CallMethod(call, _) => w.left.next < TWO64 && call.idx < TWO32
    case Deliver(m) => m in w.toLeft
    case Lose(m) => m in w.toLeft
    case Serve(m, _) => m in w.left.work
    case ConnEvent(ev) => !ev.Request? && !ev.Response? && RequestMap.Enabled(w.left.conn, ev)
    case WatchPing => true
  }

  function Requested(w: World, call: Call, running: bool): World {
    var (a, next) := Admit(call, running, w.left.next);
    var l := w.left.(next := next);
    match a
    case Refused(code) => w.(left := l.(rejected := l.rejected + [Refusal(call, running, code)]))
    case Accepted(n) =>
      w.(left := l.(calls := l.calls[n := call], conn := AddRequest(l.conn, n)),
         toRight := w.toRight + multiset{ReqMsg(n, call)})
  }

  /** How a connection takes a received message, from its bytes. */
  datatype Sight = SeesRequest | SeesResponse(number: nat) | SeesPing | SeesNothing

  function Look(bytes: seq<byte>): Sight {
    match MsgType(bytes)
    case None => SeesNothing
    case Some(kind) =>
      if kind == REQ then SeesRequest
      else if kind == RES then
        match MsgNumberRes(bytes)
        case None => SeesNothing
        case Some(n) => SeesResponse(n)
      else if kind == PING then SeesPing
      else SeesNothing
  }

  function Dispatched(w: World, m: Msg, sight: Sight): World {
    match sight
    case SeesRequest =>
      if w.left.hasService then w.(left := w.left.(work := w.left.work + multiset{m})) else w
    case SeesResponse(n) =>
      w.(left := w.left.(conn := CompleteRequest(w.left.conn, n, Completion(Ok, Encode(m)))))
    case SeesPing => w.(toRight := w.toRight + multiset{PongMsg})
    case SeesNothing => w
  }

  function Answered(w: World, m: Msg, x: Served): World {
    w.(left := w.left.(work := w.left.work - multiset{m}, served := w.left.served + [x]),
       toRight := w.toRight + multiset{ResMsg(x)})
  }

  ghost function LeftNext(w: World, e: Event): World
    requires LeftEnabled(w, e)
  {
    match e
    case CallMethod(call, running) => Requested(w, call, running)
    case Deliver(m) => Dispatched(w.(toLeft := w.toLeft - multiset{m}), m, Look(Encode(m)))
    case Lose(m) => w.(toLeft := w.toLeft - multiset{m})
    case Serve(m, app) => Answered(w, m, Respond(Encode(m), app))
    case ConnEvent(ev) => w.(left := w.left.(conn := RequestMap.Next(w.left.conn, ev)))
    case WatchPing => w.(toRight := w.toRight + multiset{PingMsg})
  }

  ghost predicate Step(w: World, w': World) {
    || (exists e :: LeftEnabled(w, e) && w' == LeftNext(w, e))
    || (exists e :: LeftEnabled(Flip(w), e) && Flip(w') == LeftNext(Flip(w), e))
  }

  ghost predicate IsRun(tr: seq<World>) {
    |tr| > 0 && Initial(tr[0]) && forall i :: 0 <= i < |tr| - 1 ==> Step(tr[i], tr[i + 1])
  }

  // ----- what the bytes let a receiver see -----

  predicate Fits(m: Msg) {
    match m
    case ReqMsg(number, call) => number < TWO64 && call.idx < TWO32 && |call.payload| <= MAX_PROTO
    case ResMsg(x) => x.number < TWO64 && |x.bytes| <= MAX_PROTO
    case _ => true
  }

  function SightOf(m: Msg): Sight {
    match m
    case ReqMsg(_, _) => SeesRequest
    case ResMsg(x) => SeesResponse(x.number)
    case PingMsg => SeesPing
    case PongMsg => SeesNothing
  }

  lemma ReceiverSees(m: Msg)
    requires Fits(m)
    ensures Look(Encode(m)) == SightOf(m)
  {
    match m
    case ReqMsg(number, call) => RequestRoundTrip(number, call.idx, call.payload);
    case ResMsg(x) => ResponseRoundTrip(x.number, x.code, x.bytes);
    case _ =>
  }

  /** The answer to a call, told from the service object and what the method replied. */
  ghost predicate Answers(call: Call, app: App, code: byte, bytes: seq<byte>) {
    if call.idx >= app.methods then code == 5 && bytes == []
    else if !app.parses then code == 3 && bytes == []
    else if |app.bytes| > 1024 * 1024 then code == 4 && bytes == []
    else code == app.code && bytes == app.bytes
  }

  /** The service answers the call that was made, as the method replied. */
  lemma ServiceSeesTheCall(number: nat, call: Call, app: App)
    requires Fits(ReqMsg(number, call))
    ensures var x := Respond(Encode(ReqMsg(number, call)), app);
            && x.number == number && x.call == call && |x.bytes| <= MAX_PROTO
            && Answers(call, app, x.code, x.bytes)
  {
    RequestRoundTrip(number, call.idx, call.payload);
  }

  /** The channel reads back what the service answered. */
  lemma ChannelReadsTheReply(x: Served, parses: bool)
    requires Fits(ResMsg(x))
    ensures Interpret(Completion(Ok, Encode(ResMsg(x))), x.number, parses)
         == if x.code != OK then (RequestNotProcessed, [])
            else if !parses then (ResponseParseError, []) else (Ok, x.bytes)
  {
    ResponseRoundTrip(x.number, x.code, x.bytes);
  }

  // ----- the invariant -----

  ghost predicate IsAnswer(served: seq<Served>, n: nat, buf: seq<byte>) {
    exists x :: x in served && x.number == n && buf == Encode(ResMsg(x))
  }

  ghost predicate Numbered(next: nat, calls: map<nat, Call>) {
    next <= TWO64 && forall n :: n in calls ==> n < next && Fits(ReqMsg(n, calls[n]))
  }

  ghost predicate Tracked(calls: map<nat, Call>, conn: Conn) {
    calls.Keys == conn.got.Keys && conn.reqs.Keys <= conn.got.Keys
  }

  /** What a message on the wire says is true of the peer that sent it. */
  ghost predicate Honest(calls: map<nat, Call>, served: seq<Served>, m: Msg) {
    match m
    case ReqMsg(n, call) => n in calls && calls[n] == call
    case ResMsg(x) => x in served
    case _ => true
  }

  ghost predicate NetOk(calls: map<nat, Call>, served: seq<Served>, net: multiset<Msg>) {
    forall m :: m in net ==> Honest(calls, served, m)
  }

  ghost predicate WorkOk(calls: map<nat, Call>, work: multiset<Msg>) {
    forall m :: m in work ==> m.ReqMsg? && Honest(calls, [], m)
  }

  ghost predicate ServedOk(calls: map<nat, Call>, served: seq<Served>) {
    forall x :: x in served ==> x.number in calls && calls[x.number] == x.call && |x.bytes| <= MAX_PROTO
  }

  ghost predicate GotOk(conn: Conn, served: seq<Served>) {
    forall n, j :: n in conn.got && 0 <= j < |conn.got[n]| && conn.got[n][j].code == Ok ==>
      IsAnswer(served, n, conn.got[n][j].buf)
  }

  /** The part about what the left peer has called and sent. */
  ghost predicate Half(w: World) {
    && Numbered(w.left.next, w.left.calls)
    && Tracked(w.left.calls, w.left.conn)
    && NetOk(w.left.calls, w.left.served, w.toRight)
    && WorkOk(w.left.calls, w.right.work)
    && ServedOk(w.left.calls, w.right.served)
    && GotOk(w.left.conn, w.right.served)
  }

  ghost predicate Inv(w: World) {
    Half(w) && Half(Flip(w))
  }

  // ----- one event keeps it -----

  lemma FreshGot(c: Conn, n: nat, served: seq<Served>)
    requires GotOk(c, served) && n !in c.got
    ensures GotOk(AddRequest(c, n), served)
  {
    assert forall i :: i in c.got ==> AddRequest(c, n).got[i] == c.got[i];
  }

  lemma CallsGrow(next: nat, calls: map<nat, Call>, call: Call)
    requires Numbered(next, calls) && next < TWO64 && Fits(ReqMsg(next, call))
    ensures next !in calls && Numbered(next + 1, calls[next := call])
    ensures forall served, net :: NetOk(calls, served, net) ==> NetOk(calls[next := call], served, net)
    ensures forall work :: WorkOk(calls, work) ==> WorkOk(calls[next := call], work)
    ensures forall served :: ServedOk(calls, served) ==> ServedOk(calls[next := call], served)
  {
  }

  lemma CallKeeps(w: World, call: Call)
    requires Inv(w) && w.left.next < TWO64 && Fits(ReqMsg(w.left.next, call))
    ensures Inv(Requested(w, call, true))
  {
    var n, calls := w.left.next, w.left.calls[w.left.next := call];
    CallsGrow(n, w.left.calls, call);
    FreshGot(w.left.conn, n, w.right.served);
    NetGrows(calls, w.left.served, w.toRight, ReqMsg(n, call));
    assert Half(Requested(w, call, true));
  }

  lemma NetGrows(calls: map<nat, Call>, served: seq<Served>, net: multiset<Msg>, m: Msg)
    requires NetOk(calls, served, net) && Honest(calls, served, m)
    ensures NetOk(calls, served, net + multiset{m})
  {
  }

  lemma ServeKeeps(w: World, m: Msg, app: App)
    requires Inv(w) && m in w.left.work
    ensures Inv(Answered(w, m, Respond(Encode(m), app)))
  {
    ServiceSeesTheCall(m.number, m.call, app);
    AnswerKeeps(w, m, Respond(Encode(m), app));
  }

  lemma AnswerKeeps(w: World, m: Msg, x: Served)
    requires Inv(w) && m in w.left.work && x.number == m.number && x.call == m.call && |x.bytes| <= MAX_PROTO
    ensures Inv(Answered(w, m, x))
  {
    var w' := Answered(w, m, x);
    assert forall y :: y in w'.left.served <==> y in w.left.served || y == x;
    forall n, buf | IsAnswer(w.left.served, n, buf)
      ensures IsAnswer(w'.left.served, n, buf)
    {
      var y :| y in w.left.served && y.number == n && buf == Encode(ResMsg(y));
      assert y in w'.left.served;
    }
    assert Half(Flip(w'));
  }

  /** A response that arrives is the answer to the call whose number it carries. */
  lemma CompletionGot(c: Conn, n: nat, buf: seq<byte>, served: seq<Served>)
    requires GotOk(c, served) && c.reqs.Keys <= c.got.Keys && IsAnswer(served, n, buf)
    ensures GotOk(CompleteRequest(c, n, Completion(Ok, buf)), served)
    ensures CompleteRequest(c, n, Completion(Ok, buf)).got.Keys == c.got.Keys
  {
    var c' := CompleteRequest(c, n, Completion(Ok, buf));
    forall i, j | i in c'.got && 0 <= j < |c'.got[i]| && c'.got[i][j].code == Ok
      ensures IsAnswer(served, i, c'.got[i][j].buf)
    {
      if j < |c.got[i]| {
        assert c.got[i][j] == c'.got[i][j];
      }
    }
  }

  lemma DispatchKeeps(w: World, m: Msg)
    requires Inv(w) && Honest(w.right.calls, w.right.served, m)
    ensures Inv(Dispatched(w, m, SightOf(m)))
  {
    if m.ResMsg? {
      assert IsAnswer(w.right.served, m.x.number, Encode(m));
      CompletionGot(w.left.conn, m.x.number, Encode(m), w.right.served);
    }
  }

  lemma DeliverKeeps(w: World, m: Msg)
    requires Inv(w) && m in w.toLeft
    ensures Fits(m)
    ensures Inv(LeftNext(w, Deliver(m)))
  {
    OnTheWireFits(w, m);
    DeliveryIsDispatch(w, m);
    LossKeeps(w, m);
    DispatchKeeps(w.(toLeft := w.toLeft - multiset{m}), m);
  }

  lemma OnTheWireFits(w: World, m: Msg)
    requires Inv(w) && m in w.toLeft
    ensures Fits(m) && Honest(w.right.calls, w.right.served, m)
  {
  }

  lemma DeliveryIsDispatch(w: World, m: Msg)
    requires Fits(m) && m in w.toLeft
    ensures LeftNext(w, Deliver(m)) == Dispatched(w.(toLeft := w.toLeft - multiset{m}), m, SightOf(m))
  {
    ReceiverSees(m);
  }

  lemma LossKeeps(w: World, m: Msg)
    requires Inv(w)
    ensures Inv(w.(toLeft := w.toLeft - multiset{m}))
  {
  }

  /** Only a response completes a request with ok. */
  lemma NothingOkIsAdded(c: Conn, ev: RequestMap.Event, served: seq<Served>)
    requires GotOk(c, served) && c.reqs.Keys <= c.got.Keys
    requires RequestMap.Enabled(c, ev) && !ev.Request? && !ev.Response? && FailsAreFails(c)
    ensures var c' := RequestMap.Next(c, ev);
            c'.got.Keys == c.got.Keys && c'.reqs.Keys <= c'.got.Keys && GotOk(c', served)
  {
    var c' := RequestMap.Next(c, ev);
    forall n, j | n in c'.got && 0 <= j < |c'.got[n]| && c'.got[n][j].code == Ok
      ensures IsAnswer(served, n, c'.got[n][j].buf)
    {
      assert j < |c.got[n]| && c.got[n][j] == c'.got[n][j];
    }
  }

  ghost predicate FailsAreFails(c: Conn) {
    forall n :: n in c.reqs ==> c.reqs[n].fail != Some(Ok)
  }

  lemma FailuresAreFailures(c: Conn)
    requires RequestMap.Inv(c)
    ensures FailsAreFails(c)
  {
    assert forall n :: n in c.got ==> RequestMap.ReqOk(c, n);
  }

  lemma ConnKeeps(w: World, ev: RequestMap.Event)
    requires Inv(w) && LeftEnabled(w, ConnEvent(ev)) && FailsAreFails(w.left.conn)
    ensures Inv(LeftNext(w, ConnEvent(ev)))
  {
    NothingOkIsAdded(w.left.conn, ev, w.right.served);
  }

  ghost predicate ConnsOk(w: World) {
    RequestMap.Inv(w.left.conn) && RequestMap.Inv(w.right.conn)
  }

  /** At each peer the request map itself makes one of its own moves, or none. */
  lemma ConnsKeep(w: World, e: Event)
    requires Inv(w) && ConnsOk(w) && LeftEnabled(w, e)
    ensures ConnsOk(LeftNext(w, e))
  {
    match e
    case CallMethod(_, _) =>
      assert w.left.next !in w.left.calls;
      RequestMap.EventKeeps(w.left.conn, RequestMap.Request(w.left.next));
    case Deliver(m) =>
      if Look(Encode(m)).SeesResponse? {
        RequestMap.EventKeeps(w.left.conn, RequestMap.Response(Look(Encode(m)).number, Encode(m)));
      }
    case ConnEvent(ev) => RequestMap.EventKeeps(w.left.conn, ev);
    case _ =>
  }

  lemma LeftKeeps(w: World, e: Event)
    requires Inv(w) && ConnsOk(w) && LeftEnabled(w, e)
    ensures Inv(LeftNext(w, e))
  {
    match e
    case CallMethod(call, running) =>
      if running && |call.payload| <= MAX_PROTO {
        CallKeeps(w, call);
      } else {
        RefusalKeeps(w, call, running);
      }
    case Deliver(m) => DeliverKeeps(w, m);
    case Lose(m) => LossKeeps(w, m);
    case Serve(m, app) => ServeKeeps(w, m, app);
    case ConnEvent(ev) =>
      FailuresAreFailures(w.left.conn);
      ConnKeeps(w, ev);
    case WatchPing => PingKeeps(w);
  }

  lemma RefusalKeeps(w: World, call: Call, running: bool)
    requires Inv(w) && w.left.next < TWO64 && (!running || |call.payload| > MAX_PROTO)
    ensures Inv(Requested(w, call, running))
  {
  }

  lemma PingKeeps(w: World)
    requires Inv(w)
    ensures Inv(w.(toRight := w.toRight + multiset{PingMsg}))
  {
    NetGrows(w.left.calls, w.left.served, w.toRight, PingMsg);
  }

  lemma {:induction false} Always(tr: seq<World>, i: nat)
    requires IsRun(tr) && i < |tr|
    ensures Inv(tr[i]) && ConnsOk(tr[i])
  {
    if i > 0 {
      Always(tr, i - 1);
      var w, w' := tr[i - 1], tr[i];
      assert Step(w, w');
      if e :| LeftEnabled(w, e) && w' == LeftNext(w, e) {
        LeftKeeps(w, e);
        ConnsKeep(w, e);
      } else {
        var e :| LeftEnabled(Flip(w), e) && Flip(w') == LeftNext(Flip(w), e);
        LeftKeeps(Flip(w), e);
        ConnsKeep(Flip(w), e);
      }
    }
  }

  // ----- what the callers are told -----

  ghost predicate WasServed(served: seq<Served>, number: nat, call: Call, code: byte, bytes: seq<byte>) {
    Served(number, call, code, bytes) in served
  }

  /** What each verdict given to a caller says about the other peer. */
  ghost predicate ToldTheTruth(call: Call, served: seq<Served>, n: nat, c: Completion, parses: bool) {
    var (code, bytes) := Interpret(c, n, parses);
    && (code == Ok ==> WasServed(served, n, call, OK, bytes) && parses)
    && (code == ResponseParseError ==> !parses && exists answer :: WasServed(served, n, call, OK, answer))
    && (code == RequestNotProcessed ==>
          exists rc, answer :: rc != OK && WasServed(served, n, call, rc, answer))
    && (if c.code == Ok then code in {Ok, ResponseParseError, RequestNotProcessed}
        else (code, bytes) == (c.code, []) && code !in {InvalidResponse, UnknownError, RequestTooBig, NoConnection})
  }

  ghost predicate CallerKnows(w: World, n: nat, parses: bool)
    requires n in w.left.calls
  {
    && n in w.left.conn.got
    && (w.left.conn.got[n] != [] ==>
          ToldTheTruth(w.left.calls[n], w.right.served, n, w.left.conn.got[n][0], parses))
  }

  lemma CallerIsToldTheTruth(w: World, n: nat, parses: bool)
    requires Inv(w) && ConnsOk(w) && n in w.left.calls
    ensures CallerKnows(w, n, parses)
  {
    if w.left.conn.got[n] != [] {
      var c := w.left.conn.got[n][0];
      assert RequestMap.ReqOk(w.left.conn, n);
      if c.code == Ok {
        assert IsAnswer(w.right.served, n, c.buf);
        var x :| x in w.right.served && x.number == n && c.buf == Encode(ResMsg(x));
        ChannelReadsTheReply(x, parses);
        assert WasServed(w.right.served, n, w.left.calls[n], x.code, x.bytes);
      }
    }
  }

  /**
   Whatever order messages and completions come in: a call reported ok was served by the other
   peer as that very call, and the bytes are the ones its service answered it with; one reported
   request_not_processed was served and refused. No caller, on either side, is told that a
   response was invalid or bore a wrong type or number.
   */
  lemma CallsAreAnsweredFaithfully(tr: seq<World>, i: nat, n: nat, parses: bool)
    requires IsRun(tr) && i < |tr|
    ensures n in tr[i].left.calls ==> CallerKnows(tr[i], n, parses)
    ensures n in tr[i].right.calls ==> CallerKnows(Flip(tr[i]), n, parses)
  {
    Always(tr, i);
    if n in tr[i].left.calls {
      CallerIsToldTheTruth(tr[i], n, parses);
    }
    if n in tr[i].right.calls {
      CallerIsToldTheTruth(Flip(tr[i]), n, parses);
    }
  }

  /** A call refused at once was too big, or was not and met a connection that was not running. */
  ghost predicate RefusedRightly(p: Peer) {
    forall r :: r in p.rejected ==>
      || (r.code == RequestTooBig && |r.call.payload| > MAX_PROTO)
      || (r.code == RespFailed && |r.call.payload| <= MAX_PROTO && !r.running)
  }

  lemma {:induction false} RefusalsAreTrue(tr: seq<World>, i: nat)
    requires IsRun(tr) && i < |tr|
    ensures RefusedRightly(tr[i].left) && RefusedRightly(tr[i].right)
  {
    if i > 0 {
      RefusalsAreTrue(tr, i - 1);
      var w, w' := tr[i - 1], tr[i];
      assert Step(w, w');
      if e :| LeftEnabled(w, e) && w' == LeftNext(w, e) {
        Refusals(w, e);
      } else {
        var e :| LeftEnabled(Flip(w), e) && Flip(w') == LeftNext(Flip(w), e);
        Refusals(Flip(w), e);
      }
    }
  }

  lemma Refusals(w: World, e: Event)
    requires LeftEnabled(w, e) && RefusedRightly(w.left) && RefusedRightly(w.right)
    ensures RefusedRightly(LeftNext(w, e).left) && RefusedRightly(LeftNext(w, e).right)
  {
  }
}
