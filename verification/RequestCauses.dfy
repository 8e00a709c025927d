/** Why a request completes: every completion in every run, and the event that brought it about. */
module RequestCauses {
  import opened Prelude
  import opened PipeOps
  import opened RequestMap

  /** The request has been made and its promise has been given nothing yet. */
  ghost predicate Outstanding(c: Conn, n: nat) {
    n in c.got && c.got[n] == []
  }

  ghost predicate HasGot(c: Conn, n: nat, x: Completion) {
    n in c.got && c.got[n] == [x]
  }

  /** A write that fails ends its request; one that succeeds does if the receive loop ended meanwhile. */
  ghost predicate WriteCompletes(c: Conn, n: nat, r: PipeRes, x: Completion) {
    match r
    case Timeout => x == Completion(SendTimeout, [])
    case Canceled => x == Completion(SendCanceled, [])
    case Failed => x == Completion(SendFailed, [])
    case Success => n in c.left && LoopCompletes(c.ended, x)
  }

  ghost predicate LoopCompletes(r: Option<PipeRes>, x: Completion) {
    || (r == Some(Canceled) && x == Completion(RespCanceled, []))
    || (r == Some(Failed) && x == Completion(RespFailed, []))
  }

  /**
   The event completes request n with x: its response arrives, its timer fires, its write reports,
   or the receive loop ends after its write succeeded, in each case while it is outstanding.
   */
  ghost predicate Completes(c: Conn, ev: Event, n: nat, x: Completion) {
    && Outstanding(c, n)
    && match ev
       case Request(_) => false
       case Response(m, buf) => m == n && x == Completion(Ok, buf)
       case TimerFired(m) => m == n && x == Completion(RespTimeout, [])
       case Sent(m, r) => m == n && WriteCompletes(c, n, r, x)
       case ReceiveEnd(r) => n in c.wrote && c.wrote[n] == Success && LoopCompletes(Some(r), x)
  }

  lemma GivenOne(c: Conn, n: nat, y: Completion, x: Completion)
    requires Inv(c)
    ensures HasGot(CompleteRequest(c, n, y), n, x) <==> HasGot(c, n, x) || (Outstanding(c, n) && x == y)
  {
    if n in c.got {
      assert ReqOk(c, n);
      assert [] + [y] == [y];
      assert [x] == [y] ==> x == y;
    }
  }

  lemma OthersKeep(c: Conn, ev: Event, n: nat)
    requires Inv(c) && Enabled(c, ev) && !ev.ReceiveEnd? && ev.n != n
    ensures n in Next(c, ev).got <==> n in c.got
    ensures n in c.got ==> Next(c, ev).got[n] == c.got[n]
  {
  }

  lemma SendCauses(c: Conn, n: nat, r: PipeRes, x: Completion)
    requires Inv(c) && n in c.sends
    ensures HasGot(SendDone(c, n, r), n, x) <==> HasGot(c, n, x) || Completes(c, Sent(n, r), n, x)
  {
    assert ReqOk(c, n);
    assert forall y: Completion :: [y] == [x] ==> y == x;
  }

  lemma EndCauses(c: Conn, r: PipeRes, n: nat, x: Completion)
    requires Inv(c) && Enabled(c, ReceiveEnd(r))
    ensures HasGot(ReceiveEnded(c, r), n, x) <==> HasGot(c, n, x) || Completes(c, ReceiveEnd(r), n, x)
  {
    if n in c.got {
      assert ReqOk(c, n);
      assert forall y: Completion :: [y] == [x] ==> y == x;
    }
  }

  /** A request has a completion after an event exactly when it had it before or the event brings it. */
  lemma StepCauses(c: Conn, ev: Event, n: nat, x: Completion)
    requires Inv(c) && Enabled(c, ev)
    ensures HasGot(Next(c, ev), n, x) <==> HasGot(c, n, x) || Completes(c, ev, n, x)
  {
    match ev
    case Request(m) =>
      if m != n {
        OthersKeep(c, ev, n);
      }
    case Response(m, buf) =>
      if m == n {
        GivenOne(c, n, Completion(Ok, buf), x);
      } else {
        OthersKeep(c, ev, n);
      }
    case TimerFired(m) =>
      if m == n {
        GivenOne(c, n, Completion(RespTimeout, []), x);
      } else {
        OthersKeep(c, ev, n);
      }
    case Sent(m, r) =>
      if m == n {
        SendCauses(c, n, r, x);
      } else {
        OthersKeep(c, ev, n);
      }
    case ReceiveEnd(r) => EndCauses(c, r, n, x);
  }

  ghost predicate CompletedAt(tr: seq<Conn>, m: nat, n: nat, x: Completion)
    requires m + 1 < |tr|
  {
    exists ev :: Enabled(tr[m], ev) && tr[m + 1] == Next(tr[m], ev) && Completes(tr[m], ev, n, x)
  }

  lemma RunStepCauses(tr: seq<Conn>, m: nat, n: nat, x: Completion)
    requires IsRun(tr) && m + 1 < |tr|
    ensures HasGot(tr[m + 1], n, x) <==> HasGot(tr[m], n, x) || CompletedAt(tr, m, n, x)
  {
    Always(tr, m);
    assert Step(tr[m], tr[m + 1]);
    var ev :| Enabled(tr[m], ev) && tr[m + 1] == Next(tr[m], ev);
    StepCauses(tr[m], ev, n, x);
    if CompletedAt(tr, m, n, x) {
      var other :| Enabled(tr[m], other) && tr[m + 1] == Next(tr[m], other) && Completes(tr[m], other, n, x);
      StepCauses(tr[m], other, n, x);
    }
  }

  /** In every run a request has a completion exactly when an earlier event completed it so. */
  lemma EachCompletionHasItsCause(tr: seq<Conn>, i: nat, n: nat, x: Completion)
    requires IsRun(tr) && i < |tr|
    ensures HasGot(tr[i], n, x) <==> exists m: nat :: m < i && CompletedAt(tr, m, n, x)
  {
    var holds := seq(|tr|, k requires 0 <= k < |tr| => HasGot(tr[k], n, x));
    var brings := seq(|tr| - 1, k requires 0 <= k < |tr| - 1 => CompletedAt(tr, k, n, x));
    forall k | 0 <= k < |brings|
      ensures holds[k + 1] <==> holds[k] || brings[k]
    {
      RunStepCauses(tr, k, n, x);
    }
    BroughtAbout(holds, brings, i);
    assert forall m: nat :: m < i ==> (brings[m] <==> CompletedAt(tr, m, n, x));
  }

  /**
   The histories say what happened: a write's result is what its callback reported, the loop's is
   what it ended with, and the requests left are those outstanding when it ended.
   */
  lemma HistoryIsTrue(c: Conn, ev: Event, n: nat)
    requires Inv(c) && Enabled(c, ev)
    ensures var c' := Next(c, ev);
            && c'.wrote == (if ev.Sent? then c.wrote[ev.n := ev.r] else c.wrote)
            && c'.ended == (if ev.ReceiveEnd? then Some(ev.r) else c.ended)
            && (n in c'.left <==> n in c.left || (ev.ReceiveEnd? && Outstanding(c, n)))
            && (n in c'.got <==> n in c.got || (ev.Request? && ev.n == n))
  {
    if n in c.got {
      assert ReqOk(c, n);
    }
  }
}
