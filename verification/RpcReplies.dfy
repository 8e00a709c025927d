/** What a caller is told, traced to what the method it called replied. */
module RpcReplies {
  import opened Prelude
  import opened Bytes
  import opened TransferMessage
  import opened RequestMap
  import opened RpcCalls

  /** The world as one of the two peers sees it, itself on the left. */
  ghost function Seen(w: World, left: bool): World {
    if left then w else Flip(w)
  }

  /** The step from w to w' is event e at that peer. */
  ghost predicate Acts(w: World, w': World, left: bool, e: RpcCalls.Event) {
    LeftEnabled(Seen(w, left), e) && Seen(w', left) == LeftNext(Seen(w, left), e)
  }

  lemma SomePeerActs(tr: seq<World>, m: nat) returns (left: bool, e: RpcCalls.Event)
    requires RpcCalls.IsRun(tr) && m + 1 < |tr|
    ensures Acts(tr[m], tr[m + 1], left, e)
  {
    assert RpcCalls.Step(tr[m], tr[m + 1]);
    if x :| LeftEnabled(tr[m], x) && tr[m + 1] == LeftNext(tr[m], x) {
      left, e := true, x;
    } else {
      var x :| LeftEnabled(Flip(tr[m]), x) && Flip(tr[m + 1]) == LeftNext(Flip(tr[m]), x);
      left, e := false, x;
    }
  }

  lemma SeenInv(tr: seq<World>, m: nat, left: bool)
    requires RpcCalls.IsRun(tr) && m < |tr|
    ensures RpcCalls.Inv(Seen(tr[m], left)) && ConnsOk(Seen(tr[m], left))
  {
    RpcCalls.Always(tr, m);
  }

  // ----- what the service answers -----

  /** Bytes that are no request are refused under a number no call has. */
  lemma MalformedRequestsAreRefused(m: seq<byte>, app: App)
    requires !IsRequestValid(m)
    ensures EncodeRes(Respond(m, app).number, Respond(m, app).code, Respond(m, app).bytes)
         == EncodeRes(0xFFFF_FFFF_FFFF_FFFF, 6, [])
  {
  }

  /** Whatever bytes a request is completed with, the channel tells a malformed or misplaced answer. */
  lemma OddResponsesAreTold(c: Completion, number: nat, parses: bool)
    requires c.code == Ok
    ensures !IsResponseValid(c.buf) ==> Interpret(c, number, parses) == (InvalidResponse, [])
    ensures IsResponseValid(c.buf) && MsgNumberRes(c.buf) != Some(number) ==>
              Interpret(c, number, parses) == (UnknownError, [])
  {
  }

  /** At step m the peer serves call `call` under number n, the method replying `app`. */
  ghost predicate ServesAt(tr: seq<World>, m: nat, left: bool, n: nat, call: Call, app: App)
    requires m + 1 < |tr|
  {
    Acts(tr[m], tr[m + 1], left, Serve(ReqMsg(n, call), app))
  }

  ghost predicate AnsweredAt(tr: seq<World>, m: nat, left: bool, x: Served)
    requires m + 1 < |tr|
  {
    exists app :: ServesAt(tr, m, left, x.number, x.call, app) && Answers(x.call, app, x.code, x.bytes)
  }

  /** What a worker has before it is a call that was made. */
  lemma WorkFits(tr: seq<World>, m: nat, left: bool)
    requires RpcCalls.IsRun(tr) && m < |tr|
    ensures forall msg :: msg in Seen(tr[m], left).left.work ==> msg.ReqMsg? && Fits(msg)
  {
    SeenInv(tr, m, left);
  }

  lemma ServeAdds(w: World, m: Msg, app: App, x: Served)
    requires m in w.left.work && m.ReqMsg? && Fits(m)
    ensures x in LeftNext(w, Serve(m, app)).left.served <==>
              x in w.left.served || (x.number == m.number && x.call == m.call && Answers(m.call, app, x.code, x.bytes))
  {
    ServiceSeesTheCall(m.number, m.call, app);
  }

  lemma OthersAddNothing(w: World, e: RpcCalls.Event)
    requires LeftEnabled(w, e)
    ensures LeftNext(w, e).right == w.right
    ensures !e.Serve? ==> LeftNext(w, e).left.served == w.left.served
  {
  }

  lemma NewAnswerWasServed(tr: seq<World>, m: nat, left: bool, x: Served)
    requires RpcCalls.IsRun(tr) && m + 1 < |tr|
    requires forall msg :: msg in Seen(tr[m], left).left.work ==> msg.ReqMsg? && Fits(msg)
    ensures x in Seen(tr[m], left).left.served ==> x in Seen(tr[m + 1], left).left.served
    ensures x in Seen(tr[m + 1], left).left.served && x !in Seen(tr[m], left).left.served ==> AnsweredAt(tr, m, left, x)
  {
    var who, e := SomePeerActs(tr, m);
    OthersAddNothing(Seen(tr[m], who), e);
    if who == left && e.Serve? {
      ServeAdds(Seen(tr[m], left), e.m, e.app, x);
      if x in Seen(tr[m + 1], left).left.served && x !in Seen(tr[m], left).left.served {
        assert ServesAt(tr, m, left, x.number, x.call, e.app);
      }
    }
  }

  lemma StepAnswers(tr: seq<World>, m: nat, left: bool, x: Served)
    requires RpcCalls.IsRun(tr) && m + 1 < |tr|
    ensures x in Seen(tr[m + 1], left).left.served <==>
              x in Seen(tr[m], left).left.served || AnsweredAt(tr, m, left, x)
  {
    WorkFits(tr, m, left);
    NewAnswerWasServed(tr, m, left, x);
    if AnsweredAt(tr, m, left, x) {
      var app :| ServesAt(tr, m, left, x.number, x.call, app) && Answers(x.call, app, x.code, x.bytes);
      ServeAdds(Seen(tr[m], left), ReqMsg(x.number, x.call), app, x);
    }
  }

  /** In every run a peer has given an answer exactly when it served that call so at an earlier step. */
  lemma EachAnswerWasServed(tr: seq<World>, i: nat, left: bool, x: Served)
    requires RpcCalls.IsRun(tr) && i < |tr|
    ensures x in Seen(tr[i], left).left.served <==> exists m: nat :: m < i && AnsweredAt(tr, m, left, x)
  {
    var holds := seq(|tr|, k requires 0 <= k < |tr| => x in Seen(tr[k], left).left.served);
    var brings := seq(|tr| - 1, k requires 0 <= k < |tr| - 1 => AnsweredAt(tr, k, left, x));
    forall k | 0 <= k < |brings|
      ensures holds[k + 1] <==> holds[k] || brings[k]
    {
      StepAnswers(tr, k, left, x);
    }
    BroughtAbout(holds, brings, i);
    assert forall m: nat :: m < i ==> (brings[m] <==> AnsweredAt(tr, m, left, x));
  }

  // ----- what the caller is told -----

  /** The method was found, understood the request, and replied ok with these bytes. */
  ghost predicate RepliedOk(call: Call, app: App, bytes: seq<byte>) {
    call.idx < app.methods && app.parses && app.code == 0 && |app.bytes| <= 1024 * 1024 && app.bytes == bytes
  }

  /** The call was refused, or its reply could not be sent, or the method reported a failure. */
  ghost predicate NotProcessed(call: Call, app: App) {
    call.idx >= app.methods || !app.parses || |app.bytes| > 1024 * 1024 || app.code != 0
  }

  ghost predicate ServedBefore(tr: seq<World>, i: nat, server: bool, n: nat, call: Call, app: App)
    requires i < |tr|
  {
    exists m: nat :: m < i && ServesAt(tr, m, server, n, call, app)
  }

  /** What the caller of call n is told, and what happened at the other peer before, to make it so. */
  ghost predicate Explained(tr: seq<World>, i: nat, server: bool, n: nat, call: Call, told: (Code, seq<byte>),
                            parses: bool)
    requires i < |tr|
  {
    && (told.0 == Ok ==>
          parses && exists app :: ServedBefore(tr, i, server, n, call, app) && RepliedOk(call, app, told.1))
    && (told.0 == ResponseParseError ==>
          !parses && exists app :: ServedBefore(tr, i, server, n, call, app) && RepliedOk(call, app, app.bytes))
    && (told.0 == RequestNotProcessed ==>
          exists app :: ServedBefore(tr, i, server, n, call, app) && NotProcessed(call, app))
  }

  lemma ServedExplains(tr: seq<World>, i: nat, server: bool, x: Served) returns (app: App)
    requires RpcCalls.IsRun(tr) && i < |tr| && x in Seen(tr[i], server).left.served
    ensures ServedBefore(tr, i, server, x.number, x.call, app) && Answers(x.call, app, x.code, x.bytes)
  {
    EachAnswerWasServed(tr, i, server, x);
    var m: nat :| m < i && AnsweredAt(tr, m, server, x);
    app :| ServesAt(tr, m, server, x.number, x.call, app) && Answers(x.call, app, x.code, x.bytes);
  }

  /** The answer a request was completed with. */
  lemma TheAnswer(w: World, n: nat) returns (x: Served)
    requires RpcCalls.Inv(w) && n in w.left.calls && n in w.left.conn.got && w.left.conn.got[n] != []
    requires w.left.conn.got[n][0].code == Ok
    ensures x in w.right.served && x.number == n && x.call == w.left.calls[n] && Fits(ResMsg(x))
    ensures w.left.conn.got[n][0].buf == Encode(ResMsg(x))
  {
    var c := w.left.conn.got[n][0];
    assert IsAnswer(w.right.served, n, c.buf);
    x :| x in w.right.served && x.number == n && c.buf == Encode(ResMsg(x));
  }

  lemma OtherCodes(w: World, n: nat, parses: bool)
    requires ConnsOk(w) && n in w.left.conn.got && w.left.conn.got[n] != [] && w.left.conn.got[n][0].code != Ok
    ensures Interpret(w.left.conn.got[n][0], n, parses).0 !in {Ok, ResponseParseError, RequestNotProcessed}
  {
    assert RequestMap.ReqOk(w.left.conn, n);
  }

  lemma ReplyExplains(tr: seq<World>, i: nat, server: bool, x: Served, parses: bool)
    requires RpcCalls.IsRun(tr) && i < |tr| && x in Seen(tr[i], server).left.served && Fits(ResMsg(x))
    ensures Explained(tr, i, server, x.number, x.call,
                      Interpret(Completion(Ok, Encode(ResMsg(x))), x.number, parses), parses)
  {
    ChannelReadsTheReply(x, parses);
    var app := ServedExplains(tr, i, server, x);
  }

  /**
   A caller told ok is given the bytes with which the method it called replied ok, at an earlier step
   of the other peer that served this very call; one told request_not_processed called a method that
   does not exist, or that could not parse the request, replied too much or reported a failure.
   */
  lemma CallersAreToldTheReply(tr: seq<World>, i: nat, left: bool, n: nat, parses: bool)
    requires RpcCalls.IsRun(tr) && i < |tr|
    requires var p := Seen(tr[i], left).left; n in p.calls && n in p.conn.got && p.conn.got[n] != []
    ensures var p := Seen(tr[i], left).left;
            Explained(tr, i, !left, n, p.calls[n], Interpret(p.conn.got[n][0], n, parses), parses)
  {
    var w := Seen(tr[i], left);
    SeenInv(tr, i, left);
    if w.left.conn.got[n][0].code == Ok {
      var x := TheAnswer(w, n);
      assert w.right == Seen(tr[i], !left).left;
      ReplyExplains(tr, i, !left, x, parses);
      assert w.left.conn.got[n][0] == Completion(Ok, Encode(ResMsg(x)));
    } else {
      OtherCodes(w, n, parses);
    }
  }
}
