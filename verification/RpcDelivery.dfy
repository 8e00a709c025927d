/** Nothing sent between two RPC peers disappears unless the transport loses it. */
module RpcDelivery {
  import opened Prelude
  import opened RequestMap
  import opened RequestCauses
  import opened RpcCalls
  import opened RpcReplies

  // ----- what an event does -----

  /** What is left of world w at the peer that a message reaches, by what its sender meant. */
  ghost predicate Arrives(w: World, m: Msg, w': World) {
    match m
    case ReqMsg(_, _) =>
      && w'.left == w.left.(work := if w.left.hasService then w.left.work + multiset{m} else w.left.work)
      && w'.toRight == w.toRight
    case ResMsg(x) =>
      && w'.left == w.left.(conn := w'.left.conn) && w'.toRight == w.toRight
      && (if Outstanding(w.left.conn, x.number) then HasGot(w'.left.conn, x.number, Completion(Ok, Encode(m)))
          else w'.left.conn == w.left.conn)
    case PingMsg => w'.left == w.left && w'.toRight == w.toRight + multiset{PongMsg}
    case PongMsg => w'.left == w.left && w'.toRight == w.toRight
  }

  lemma DeliverEffect(w: World, m: Msg)
    requires RpcCalls.Inv(w) && ConnsOk(w) && m in w.toLeft
    ensures var w' := LeftNext(w, Deliver(m));
            Arrives(w, m, w') && w'.toLeft == w.toLeft - multiset{m} && w'.right == w.right
  {
    OnTheWireFits(w, m);
    DeliveryIsDispatch(w, m);
    if m.ResMsg? {
      CompletionEffect(w.left.conn, m.x.number, Completion(Ok, Encode(m)));
    }
  }

  lemma CompletionEffect(c: Conn, n: nat, x: Completion)
    requires RequestMap.Inv(c)
    ensures if Outstanding(c, n) then HasGot(CompleteRequest(c, n, x), n, x) else CompleteRequest(c, n, x) == c
  {
    if n in c.got {
      assert RequestMap.ReqOk(c, n);
      assert [] + [x] == [x];
    }
  }

  /**
   Whatever arrives takes effect at once: a request is handed to a worker if there is a service, a
   response completes its request if that is outstanding, a ping is answered, a pong is ignored.
   */
  lemma DeliveriesTakeEffect(tr: seq<World>, i: nat, left: bool, m: Msg)
    requires RpcCalls.IsRun(tr) && i < |tr| && m in Seen(tr[i], left).toLeft
    ensures var w, w' := Seen(tr[i], left), LeftNext(Seen(tr[i], left), Deliver(m));
            Arrives(w, m, w') && w'.toLeft == w.toLeft - multiset{m} && w'.right == w.right
  {
    SeenInv(tr, i, left);
    DeliverEffect(Seen(tr[i], left), m);
  }

  /** What becomes of a call: too big, made while not running, or sent under the next number. */
  ghost predicate CallGoes(w: World, call: Call, running: bool, w': World) {
    var p, p' := w.left, w'.left;
    if |call.payload| > 1024 * 1024 then
      p' == p.(rejected := p.rejected + [Refusal(call, running, RequestTooBig)]) && w'.toRight == w.toRight
    else if !running then
      && p' == p.(next := p.next + 1, rejected := p.rejected + [Refusal(call, running, RespFailed)])
      && w'.toRight == w.toRight
    else
      && p'.next == p.next + 1 && p'.rejected == p.rejected && p'.calls == p.calls[p.next := call]
      && w'.toRight == w.toRight + multiset{ReqMsg(p.next, call)}
      && Outstanding(p'.conn, p.next) && p.next in p'.conn.timers
  }

  lemma CallsAreAdmittedExactly(tr: seq<World>, i: nat, left: bool, call: Call, running: bool)
    requires RpcCalls.IsRun(tr) && i < |tr| && LeftEnabled(Seen(tr[i], left), CallMethod(call, running))
    ensures var w := Seen(tr[i], left);
            CallGoes(w, call, running, LeftNext(w, CallMethod(call, running)))
  {
  }

  // ----- requests -----

  /** The request of call n is on the wire, before a worker, or answered. */
  ghost predicate InPlay(w: World, n: nat, call: Call) {
    || ReqMsg(n, call) in w.toRight
    || ReqMsg(n, call) in w.right.work
    || exists x :: x in w.right.served && x.number == n && x.call == call
  }

  /** At step m the transport loses the message, or it is a request that reaches a peer without service. */
  ghost predicate LostAt(tr: seq<World>, m: nat, sender: bool, msg: Msg)
    requires m + 1 < |tr|
  {
    || Acts(tr[m], tr[m + 1], !sender, Lose(msg))
    || (msg.ReqMsg? && Acts(tr[m], tr[m + 1], !sender, Deliver(msg)) && !Seen(tr[m], !sender).left.hasService)
  }

  lemma OnlyTakenOff(w: World, e: RpcCalls.Event, m: Msg)
    requires LeftEnabled(w, e) && m in w.toLeft && e != Deliver(m) && e != Lose(m)
    ensures m in LeftNext(w, e).toLeft
  {
  }

  lemma WorkStays(w: World, e: RpcCalls.Event, m: Msg)
    requires LeftEnabled(w, e) && m in w.left.work && !(e.Serve? && e.m == m)
    ensures m in LeftNext(w, e).left.work
  {
  }

  lemma ServedStays(w: World, e: RpcCalls.Event, x: Served)
    requires LeftEnabled(w, e) && x in w.left.served
    ensures x in LeftNext(w, e).left.served
  {
  }

  lemma ServingAnswers(w: World, n: nat, call: Call, app: App)
    requires ReqMsg(n, call) in w.left.work && Fits(ReqMsg(n, call))
    ensures InPlay(Flip(LeftNext(w, Serve(ReqMsg(n, call), app))), n, call)
  {
    ServiceSeesTheCall(n, call, app);
    assert Respond(Encode(ReqMsg(n, call)), app) in LeftNext(w, Serve(ReqMsg(n, call), app)).left.served;
  }

  /** What the receiving peer does with requests to it, seen from that peer. */
  lemma ReceiverKeeps(w: World, e: RpcCalls.Event, n: nat, call: Call)
    requires RpcCalls.Inv(w) && ConnsOk(w) && LeftEnabled(w, e) && InPlay(Flip(w), n, call)
    requires e != Lose(ReqMsg(n, call)) && (e == Deliver(ReqMsg(n, call)) ==> w.left.hasService)
    ensures InPlay(Flip(LeftNext(w, e)), n, call)
  {
    var req := ReqMsg(n, call);
    if x :| x in w.left.served && x.number == n && x.call == call {
      ServedStays(w, e, x);
    } else if req in w.left.work {
      if e.Serve? && e.m == req {
        ServingAnswers(w, n, call, e.app);
      } else {
        WorkStays(w, e, req);
      }
    } else if e == Deliver(req) {
      DeliverEffect(w, req);
    } else {
      OnlyTakenOff(w, e, req);
    }
  }

  lemma SentStays(w: World, e: RpcCalls.Event, m: Msg)
    requires LeftEnabled(w, e) && m in w.toRight
    ensures m in LeftNext(w, e).toRight
  {
    match e
    case CallMethod(call, running) => CallKeepsSent(w, call, running, m);
    case Deliver(x) => DispatchKeepsSent(w.(toLeft := w.toLeft - multiset{x}), x, Look(Encode(x)), m);
    case Serve(x, app) => AnswerKeepsSent(w, x, Respond(Encode(x), app), m);
    case Lose(_) =>
    case ConnEvent(_) =>
    case WatchPing =>
  }

  lemma CallKeepsSent(w: World, call: Call, running: bool, m: Msg)
    requires m in w.toRight
    ensures m in Requested(w, call, running).toRight
  {
  }

  lemma DispatchKeepsSent(w: World, x: Msg, sight: Sight, m: Msg)
    requires m in w.toRight
    ensures m in Dispatched(w, x, sight).toRight
  {
  }

  lemma AnswerKeepsSent(w: World, x: Msg, answer: Served, m: Msg)
    requires m in w.toRight
    ensures m in Answered(w, x, answer).toRight
  {
  }

  lemma SenderKeeps(w: World, e: RpcCalls.Event, n: nat, call: Call)
    requires LeftEnabled(w, e) && InPlay(w, n, call)
    ensures InPlay(LeftNext(w, e), n, call)
  {
    OthersAddNothing(w, e);
    if ReqMsg(n, call) in w.toRight {
      SentStays(w, e, ReqMsg(n, call));
    }
  }

  lemma CallStarts(w: World, e: RpcCalls.Event, n: nat)
    requires LeftEnabled(w, e) && n !in w.left.calls && n in LeftNext(w, e).left.calls
    ensures InPlay(LeftNext(w, e), n, LeftNext(w, e).left.calls[n])
  {
  }

  ghost predicate Called(w: World, n: nat, call: Call) {
    n in w.left.calls && w.left.calls[n] == call
  }

  lemma CallsStay(w: World, e: RpcCalls.Event, n: nat, call: Call)
    requires RpcCalls.Inv(w) && LeftEnabled(w, e) && Called(LeftNext(w, e), n, call)
    ensures Called(w, n, call) || n !in w.left.calls
  {
  }

  lemma RequestStep(tr: seq<World>, m: nat, left: bool, n: nat, call: Call)
    requires RpcCalls.IsRun(tr) && m + 1 < |tr|
    requires Called(Seen(tr[m], left), n, call) ==> InPlay(Seen(tr[m], left), n, call)
    requires Called(Seen(tr[m + 1], left), n, call) && !LostAt(tr, m, left, ReqMsg(n, call))
    ensures InPlay(Seen(tr[m + 1], left), n, call)
  {
    var who, e := SomePeerActs(tr, m);
    SeenInv(tr, m, who);
    if who == left {
      CallsStay(Seen(tr[m], left), e, n, call);
      if Called(Seen(tr[m], left), n, call) {
        SenderKeeps(Seen(tr[m], left), e, n, call);
      } else {
        CallStarts(Seen(tr[m], left), e, n);
      }
    } else {
      OthersAddNothing(Seen(tr[m], who), e);
      ReceiverKeeps(Seen(tr[m], who), e, n, call);
    }
  }

  /**
   No request disappears: in every run each call accepted is on the wire, before a worker of the
   other peer, or answered; or the transport has lost it, or it reached a peer that has no service.
   */
  lemma NoRequestVanishes(tr: seq<World>, i: nat, left: bool, n: nat)
    requires RpcCalls.IsRun(tr) && i < |tr| && n in Seen(tr[i], left).left.calls
    ensures var w := Seen(tr[i], left);
            var call := w.left.calls[n];
            InPlay(w, n, call) || exists m: nat :: m < i && LostAt(tr, m, left, ReqMsg(n, call))
  {
    var call := Seen(tr[i], left).left.calls[n];
    var holds := seq(|tr|, k requires 0 <= k < |tr| =>
      Called(Seen(tr[k], left), n, call) ==> InPlay(Seen(tr[k], left), n, call));
    var undoes := seq(|tr| - 1, k requires 0 <= k < |tr| - 1 => LostAt(tr, k, left, ReqMsg(n, call)));
    forall k | 0 <= k < |undoes|
      ensures holds[k] ==> holds[k + 1] || undoes[k]
    {
      if holds[k] && !undoes[k] && Called(Seen(tr[k + 1], left), n, call) {
        RequestStep(tr, k, left, n, call);
      }
    }
    KeptOrUndone(holds, undoes, i);
  }

  // ----- answers -----

  /** The answer is on its way back, or its call has been completed. */
  ghost predicate GoesBack(w: World, x: Served) {
    ResMsg(x) in w.toRight || (x.number in w.right.conn.got && w.right.conn.got[x.number] != [])
  }

  lemma NewAnswerIsSent(w: World, e: RpcCalls.Event, x: Served)
    requires LeftEnabled(w, e) && x !in w.left.served && x in LeftNext(w, e).left.served
    ensures ResMsg(x) in LeftNext(w, e).toRight
  {
  }

  lemma ServerKeeps(w: World, e: RpcCalls.Event, x: Served)
    requires LeftEnabled(w, e) && x in LeftNext(w, e).left.served
    requires x in w.left.served ==> GoesBack(w, x)
    ensures GoesBack(LeftNext(w, e), x)
  {
    if x !in w.left.served {
      NewAnswerIsSent(w, e, x);
    } else if ResMsg(x) in w.toRight {
      SentStays(w, e, ResMsg(x));
    } else {
      OthersAddNothing(w, e);
    }
  }

  ghost predicate Completed(c: Conn, n: nat) {
    n in c.got && c.got[n] != []
  }

  lemma CompletedStays(w: World, e: RpcCalls.Event, n: nat)
    requires RequestMap.Inv(w.left.conn) && w.left.next !in w.left.conn.got && LeftEnabled(w, e)
    requires Completed(w.left.conn, n)
    ensures Completed(LeftNext(w, e).left.conn, n)
  {
    var c := w.left.conn;
    match e
    case CallMethod(_, _) => EventKeepsCompletions(c, Request(w.left.next), n);
    case Deliver(m) =>
      if Look(Encode(m)).SeesResponse? {
        EventKeepsCompletions(c, Response(Look(Encode(m)).number, Encode(m)), n);
      }
    case ConnEvent(ev) => EventKeepsCompletions(c, ev, n);
    case Serve(_, _) =>
    case Lose(_) =>
    case WatchPing =>
  }

  lemma ArrivalCompletes(w: World, x: Served)
    requires RpcCalls.Inv(w) && ConnsOk(w) && x in w.right.served && ResMsg(x) in w.toLeft
    ensures Completed(LeftNext(w, Deliver(ResMsg(x))).left.conn, x.number)
  {
    DeliverEffect(w, ResMsg(x));
    assert x.number in w.left.calls && x.number in w.left.conn.got;
  }

  /** What the calling peer does with answers to it, seen from that peer. */
  lemma CallerKeeps(w: World, e: RpcCalls.Event, x: Served)
    requires RpcCalls.Inv(w) && ConnsOk(w) && LeftEnabled(w, e) && x in w.right.served
    requires GoesBack(Flip(w), x) && e != Lose(ResMsg(x))
    ensures GoesBack(Flip(LeftNext(w, e)), x)
  {
    if Completed(w.left.conn, x.number) {
      CompletedStays(w, e, x.number);
    } else if e == Deliver(ResMsg(x)) {
      ArrivalCompletes(w, x);
    } else {
      OnlyTakenOff(w, e, ResMsg(x));
    }
  }

  lemma AnswerStep(tr: seq<World>, m: nat, left: bool, x: Served)
    requires RpcCalls.IsRun(tr) && m + 1 < |tr|
    requires x in Seen(tr[m], left).left.served ==> GoesBack(Seen(tr[m], left), x)
    requires x in Seen(tr[m + 1], left).left.served && !Acts(tr[m], tr[m + 1], !left, Lose(ResMsg(x)))
    ensures GoesBack(Seen(tr[m + 1], left), x)
  {
    var who, e := SomePeerActs(tr, m);
    SeenInv(tr, m, who);
    if who == left {
      ServerKeeps(Seen(tr[m], left), e, x);
    } else {
      OthersAddNothing(Seen(tr[m], who), e);
      CallerKeeps(Seen(tr[m], who), e, x);
    }
  }

  /** No answer disappears: it is on the wire, or its call has been completed, or the transport lost it. */
  lemma NoAnswerVanishes(tr: seq<World>, i: nat, left: bool, x: Served)
    requires RpcCalls.IsRun(tr) && i < |tr| && x in Seen(tr[i], left).left.served
    ensures GoesBack(Seen(tr[i], left), x)
         || exists m: nat :: m < i && LostAt(tr, m, left, ResMsg(x))
  {
    var holds := seq(|tr|, k requires 0 <= k < |tr| =>
      x in Seen(tr[k], left).left.served ==> GoesBack(Seen(tr[k], left), x));
    var undoes := seq(|tr| - 1, k requires 0 <= k < |tr| - 1 => LostAt(tr, k, left, ResMsg(x)));
    forall k | 0 <= k < |undoes|
      ensures holds[k] ==> holds[k + 1] || undoes[k]
    {
      if holds[k] && !undoes[k] && x in Seen(tr[k + 1], left).left.served {
        AnswerStep(tr, k, left, x);
      }
    }
    KeptOrUndone(holds, undoes, i);
  }
}
