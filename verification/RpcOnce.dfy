/** No call is executed twice: a request is on the wire, waiting for a worker, or served, once in all. */
module RpcOnce {
  import opened Prelude
  import opened TransferMessage
  import opened RpcCalls

  ghost predicate IsAnswered(served: seq<Served>, n: nat) {
    exists k :: 0 <= k < |served| && served[k].number == n
  }

  ghost predicate OnceFor(net: multiset<Msg>, work: multiset<Msg>, served: seq<Served>, n: nat, call: Call) {
    net[ReqMsg(n, call)] + work[ReqMsg(n, call)] <= if IsAnswered(served, n) then 0 else 1
  }

  ghost predicate DistinctNumbers(served: seq<Served>) {
    forall j, k :: 0 <= j < k < |served| ==> served[j].number != served[k].number
  }

  /** The calls of the left peer. */
  ghost predicate Once(w: World) {
    && DistinctNumbers(w.right.served)
    && forall n, call :: OnceFor(w.toRight, w.right.work, w.right.served, n, call)
  }

  lemma CallKeepsOnce(w: World, call: Call)
    requires Inv(w) && Once(w) && w.left.next < TWO64 && |call.payload| <= MAX_PROTO
    ensures Once(Requested(w, call, true))
  {
    var w', n := Requested(w, call, true), w.left.next;
    forall i, c
      ensures OnceFor(w'.toRight, w'.right.work, w'.right.served, i, c)
    {
      assert OnceFor(w.toRight, w.right.work, w.right.served, i, c);
      assert ReqMsg(n, call) !in w.toRight && ReqMsg(n, call) !in w.right.work;
    }
  }

  /** A message that is no request may be added freely. */
  lemma OtherKeepsOnce(w: World, m: Msg)
    requires Once(w) && !m.ReqMsg?
    ensures Once(w.(toRight := w.toRight + multiset{m}))
  {
    forall i, c
      ensures OnceFor(w.toRight + multiset{m}, w.right.work, w.right.served, i, c)
    {
      assert OnceFor(w.toRight, w.right.work, w.right.served, i, c);
    }
  }

  lemma AnsweredNext(served: seq<Served>, x: Served, n: nat)
    ensures IsAnswered(served + [x], n) <==> IsAnswered(served, n) || x.number == n
  {
    assert (served + [x])[|served|] == x;
    if IsAnswered(served, n) {
      var k :| 0 <= k < |served| && served[k].number == n;
      assert (served + [x])[k].number == n;
    }
  }

  lemma ServeKeepsOnce(w: World, m: Msg, app: App)
    requires Inv(w) && Once(w) && Once(Flip(w)) && m in w.left.work
    ensures var w' := LeftNext(w, Serve(m, app)); Once(w') && Once(Flip(w'))
  {
    var x := Respond(Encode(m), app);
    ServiceSeesTheCall(m.number, m.call, app);
    OtherKeepsOnce(w, ResMsg(x));
    AnswerKeepsOnce(w, m, x);
  }

  lemma AnswerKeepsOnce(w: World, m: Msg, x: Served)
    requires Inv(w) && Once(Flip(w)) && m in w.left.work && x.number == m.number && x.call == m.call
    ensures Once(Flip(Answered(w, m, x)))
  {
    var w', served := Answered(w, m, x), w.left.served;
    assert OnceFor(w.toLeft, w.left.work, served, m.number, m.call);
    assert !IsAnswered(served, x.number);
    forall i, c
      ensures OnceFor(w'.toLeft, w'.left.work, served + [x], i, c)
    {
      AnsweredNext(served, x, i);
      assert OnceFor(w.toLeft, w.left.work, served, i, c);
      assert ReqMsg(i, c) in w.toLeft && i == x.number ==> c == x.call;
      assert ReqMsg(i, c) in w.left.work && i == x.number ==> c == x.call;
    }
  }

  /** Taking a message off the wire, and at most putting it into the work of the peer it reached. */
  lemma TakenKeepsOnce(w: World, m: Msg, work: multiset<Msg>)
    requires Once(Flip(w)) && m in w.toLeft
    requires work == w.left.work || work == w.left.work + multiset{m}
    ensures Once(Flip(w.(left := w.left.(work := work), toLeft := w.toLeft - multiset{m})))
  {
    forall i, c
      ensures OnceFor(w.toLeft - multiset{m}, work, w.left.served, i, c)
    {
      assert OnceFor(w.toLeft, w.left.work, w.left.served, i, c);
    }
  }

  lemma DeliverKeepsOnce(w: World, m: Msg)
    requires Inv(w) && Once(w) && Once(Flip(w)) && m in w.toLeft
    ensures var w' := LeftNext(w, Deliver(m)); Once(w') && Once(Flip(w'))
  {
    DeliverKeeps(w, m);
    ReceiverSees(m);
    DispatchKeepsOnce(w, m);
  }

  lemma DispatchKeepsOnce(w: World, m: Msg)
    requires Once(w) && Once(Flip(w)) && m in w.toLeft
    ensures var w' := Dispatched(w.(toLeft := w.toLeft - multiset{m}), m, SightOf(m)); Once(w') && Once(Flip(w'))
  {
    TakenKeepsOnce(w, m, Dispatched(w.(toLeft := w.toLeft - multiset{m}), m, SightOf(m)).left.work);
    if m.PingMsg? {
      OtherKeepsOnce(w, PongMsg);
    }
  }

  lemma LeftKeepsOnce(w: World, e: Event)
    requires Inv(w) && Once(w) && Once(Flip(w)) && LeftEnabled(w, e)
    ensures Once(LeftNext(w, e)) && Once(Flip(LeftNext(w, e)))
  {
    match e
    case CallMethod(call, running) =>
      if running && |call.payload| <= MAX_PROTO {
        CallKeepsOnce(w, call);
      }
    case Deliver(m) => DeliverKeepsOnce(w, m);
    case Lose(m) => TakenKeepsOnce(w, m, w.left.work);
    case Serve(m, app) => ServeKeepsOnce(w, m, app);
    case ConnEvent(ev) =>
    case WatchPing => OtherKeepsOnce(w, PingMsg);
  }

  lemma StepKeepsOnce(w: World, w': World)
    requires Inv(w) && Once(w) && Once(Flip(w)) && Step(w, w')
    ensures Once(w') && Once(Flip(w'))
  {
    if e :| LeftEnabled(w, e) && w' == LeftNext(w, e) {
      LeftKeepsOnce(w, e);
    } else {
      var e :| LeftEnabled(Flip(w), e) && Flip(w') == LeftNext(Flip(w), e);
      FlipKeepsOnce(w, w', e);
    }
  }

  lemma FlipKeepsOnce(w: World, w': World, e: Event)
    requires Inv(w) && Once(w) && Once(Flip(w)) && LeftEnabled(Flip(w), e) && Flip(w') == LeftNext(Flip(w), e)
    ensures Once(w') && Once(Flip(w'))
  {
    LeftKeepsOnce(Flip(w), e);
    assert Flip(Flip(w')) == w';
  }

  lemma RunStepKeepsOnce(tr: seq<World>, k: nat)
    requires IsRun(tr) && k + 1 < |tr| && Once(tr[k]) && Once(Flip(tr[k]))
    ensures Once(tr[k + 1]) && Once(Flip(tr[k + 1]))
  {
    Always(tr, k);
    assert Step(tr[k], tr[k + 1]);
    StepKeepsOnce(tr[k], tr[k + 1]);
  }

  lemma OnceAlways(tr: seq<World>, i: nat)
    requires IsRun(tr) && i < |tr|
    ensures Once(tr[i]) && Once(Flip(tr[i]))
  {
    var holds := seq(|tr|, k requires 0 <= k < |tr| => Once(tr[k]) && Once(Flip(tr[k])));
    forall k | 0 <= k < |tr| - 1 && holds[k]
      ensures holds[k + 1]
    {
      RunStepKeepsOnce(tr, k);
    }
    Persists(holds, 0, i);
  }

  /** In no run does a service answer the same call twice, on either side. */
  lemma NoCallIsServedTwice(tr: seq<World>, i: nat, j: nat, k: nat)
    requires IsRun(tr) && i < |tr|
    ensures j < k < |tr[i].right.served| ==> tr[i].right.served[j].number != tr[i].right.served[k].number
    ensures j < k < |tr[i].left.served| ==> tr[i].left.served[j].number != tr[i].left.served[k].number
  {
    OnceAlways(tr, i);
  }
}
