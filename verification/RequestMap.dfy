/**
 The outstanding requests of one RPC connection. A response, a timeout, the outcome of sending the
 request and the end of the receive loop all race to complete each of them.
 */
module RequestMap {
  import opened Prelude
  import opened Bytes
  import opened PipeOps
  import opened Ledger

  /** request_result */
  datatype Code =
    | Ok | UnknownError | RespTimeout | RespCanceled | RespFailed
    | SendTimeout | SendCanceled | SendFailed
    | RequestTooBig | RequestNotProcessed | InvalidResponse | ResponseParseError | NoConnection

  datatype Req = Req(sent: bool, fail: Option<Code>)

  /** What a request's promise is given. */
  datatype Completion = Completion(code: Code, buf: seq<byte>)

  /**
   `timers` are the running timers and `sends` the send callbacks still to come. `got` is, for
   every request ever accepted, everything its promise has been given; `wrote` is what sending it
   reported. `ended` is the result the receive loop has finished with, and `left` is history: the
   requests that were outstanding then.
   */
  datatype Conn = Conn(
    reqs: map<nat, Req>, timers: set<nat>, sends: set<nat>,
    got: map<nat, seq<Completion>>, wrote: map<nat, PipeRes>, ended: Option<PipeRes>, left: set<nat>)

  const NEW_CONN: Conn := Conn(map[], {}, {}, map[], map[], None, {})

  function SendCode(r: PipeRes): Code {
    match r
    case Success => Ok
    case Canceled => SendCanceled
    case Timeout => SendTimeout
    case Failed => SendFailed
  }

  function EndCode(r: PipeRes): Code {
    if r.Canceled? then RespCanceled else RespFailed
  }

  // ----- the blocks -----

  function AddRequest(c: Conn, n: nat): Conn {
    c.(reqs := c.reqs[n := Req(false, None)], timers := c.timers + {n}, sends := c.sends + {n},
       got := c.got[n := []])
  }

  function CompleteRequest(c: Conn, n: nat, x: Completion): Conn {
    if n in c.reqs then c.(reqs := c.reqs - {n}, timers := c.timers - {n}, got := Give(c.got, n, x)) else c
  }

  function RequestSent(c: Conn, n: nat): Conn {
    if n !in c.reqs then c
    else if c.reqs[n].fail.Some? then
      c.(reqs := c.reqs - {n}, got := Give(c.got, n, Completion(c.reqs[n].fail.value, [])))
    else c.(reqs := c.reqs[n := c.reqs[n].(sent := true)])
  }

  /** The callback of the write that carries request n. */
  function SendDone(c: Conn, n: nat, r: PipeRes): Conn {
    var c1 := c.(sends := c.sends - {n}, wrote := c.wrote[n := r]);
    if r.Success? then RequestSent(c1, n) else CompleteRequest(c1, n, Completion(SendCode(r), []))
  }

  /** The entries in `ks` have been dealt with: completed if sent, marked to fail if not. */
  function ReqsEnded(reqs: map<nat, Req>, code: Code, ks: set<nat>): map<nat, Req> {
    map n | n in reqs && (n in ks ==> !reqs[n].sent) ::
      if n in ks then reqs[n].(fail := Some(code)) else reqs[n]
  }

  function GotEnded(c: Conn, code: Code, ks: set<nat>): map<nat, seq<Completion>> {
    map n | n in c.got ::
      if n in ks && n in c.reqs && c.reqs[n].sent then c.got[n] + [Completion(code, [])] else c.got[n]
  }

  function ReceiveEnded(c: Conn, r: PipeRes): Conn {
    c.(reqs := ReqsEnded(c.reqs, EndCode(r), c.reqs.Keys),
       timers := c.timers - c.reqs.Keys,
       got := GotEnded(c, EndCode(r), c.reqs.Keys),
       ended := Some(r), left := c.left + c.reqs.Keys)
  }

  lemma ReqsEndedNext(reqs: map<nat, Req>, code: Code, ks: set<nat>, n: nat)
    requires n in reqs && n !in ks
    ensures var was := ReqsEnded(reqs, code, ks);
            && n in was && was[n] == reqs[n]
            && ReqsEnded(reqs, code, ks + {n})
               == (if reqs[n].sent then was - {n} else was[n := reqs[n].(fail := Some(code))])
  {
  }

  lemma GotEndedNext(c: Conn, code: Code, ks: set<nat>, n: nat)
    requires n in c.reqs && n in c.got && n !in ks
    ensures var was := GotEnded(c, code, ks);
            && was[n] == c.got[n]
            && GotEnded(c, code, ks + {n})
               == (if c.reqs[n].sent then was[n := was[n] + [Completion(code, [])]] else was)
  {
  }

  // ----- the code -----

  class Connection {
    var reqs: map<nat, Req>
    var timers: set<nat>
    ghost var sends: set<nat>
    ghost var wrote: map<nat, PipeRes>
    var got: map<nat, seq<Completion>>
    ghost var ended: Option<PipeRes>
    ghost var left: set<nat>

    ghost function View(): Conn
      reads this
    {
      Conn(reqs, timers, sends, got, wrote, ended, left)
    }

    constructor ()
      ensures View() == NEW_CONN
    {
      reqs, timers, sends, wrote, got, ended, left := map[], {}, {}, map[], map[], None, {};
    }

    method AddRequestToMap(n: nat)
      requires n !in reqs
      modifies this
      ensures View() == AddRequest(old(View()), n)
    {
      timers := timers + {n};
      reqs := reqs[n := Req(false, None)];
      got := got[n := []];
      sends := sends + {n};
    }

    method Complete(n: nat, x: Completion)
      modifies this
      ensures View() == CompleteRequest(old(View()), n, x)
    {
      if n in reqs {
        timers := timers - {n};
        reqs := reqs - {n};
        got := Give(got, n, x);
      }
    }

    method ProcessRequestSent(n: nat)
      modifies this
      ensures View() == RequestSent(old(View()), n)
    {
      var result: Option<Code> := None;
      if n in reqs {
        var data := reqs[n].(sent := true);
        reqs := reqs[n := data];
        if data.fail.Some? {
          result := data.fail;
          reqs := reqs - {n};
        }
      }
      if result.Some? {
        got := Give(got, n, Completion(result.value, []));
        assert reqs == old(reqs) - {n};
      }
    }

    method OnSent(n: nat, r: PipeRes)
      modifies this
      ensures View() == SendDone(old(View()), n, r)
    {
      sends := sends - {n};
      wrote := wrote[n := r];
      if r.Success? {
        ProcessRequestSent(n);
      } else if r.Canceled? {
        Complete(n, Completion(SendCanceled, []));
      } else if r.Timeout? {
        Complete(n, Completion(SendTimeout, []));
      } else {
        Complete(n, Completion(SendFailed, []));
      }
    }

    method EndOne(n: nat, code: Code)
      requires n in reqs && n in got
      modifies this`reqs, this`timers, this`got
      ensures timers == old(timers) - {n}
      ensures reqs == if old(reqs[n].sent) then old(reqs) - {n}
                      else old(reqs)[n := old(reqs[n]).(fail := Some(code))]
      ensures got == if old(reqs[n].sent) then old(got)[n := old(got[n]) + [Completion(code, [])]] else old(got)
    {
      timers := timers - {n};
      if reqs[n].sent {
        reqs := reqs - {n};
        got := Give(got, n, Completion(code, []));
      } else {
        reqs := reqs[n := reqs[n].(fail := Some(code))];
      }
    }

    /** Walks over the map in no particular order. */
    method CompleteReceiveRoutine(r: PipeRes)
      requires reqs.Keys <= got.Keys
      modifies this
      ensures View() == ReceiveEnded(old(View()), r)
    {
      var code := if r.Canceled? then RespCanceled else RespFailed;
      var todo := reqs.Keys;
      ghost var c0 := View();
      ghost var seen := {};
      assert ReqsEnded(c0.reqs, code, {}) == c0.reqs && GotEnded(c0, code, {}) == c0.got;
      while todo != {}
        invariant todo !! seen && todo + seen == c0.reqs.Keys
        invariant reqs == ReqsEnded(c0.reqs, code, seen)
        invariant timers == c0.timers - seen
        invariant got == GotEnded(c0, code, seen)
        invariant sends == c0.sends && wrote == c0.wrote && left == c0.left
        decreases todo
      {
        var n :| n in todo;
        ReqsEndedNext(c0.reqs, code, seen, n);
        GotEndedNext(c0, code, seen, n);
        todo := todo - {n};
        EndOne(n, code);
        seen := seen + {n};
      }
      assert seen == c0.reqs.Keys;
      ended, left := Some(r), left + c0.reqs.Keys;
    }
  }

  // ----- the races -----

  datatype Event =
    | Request(n: nat)
    | Sent(n: nat, r: PipeRes)
    | TimerFired(n: nat)
    | Response(n: nat, buf: seq<byte>)
    | ReceiveEnd(r: PipeRes)

  /**
   The channel never uses a number twice. A send callback comes once. A timer may fire for any
   request there has been, even one whose timer was cancelled with its handler already queued.
   The receive loop ends once, never with a timeout.
   */
  ghost predicate Enabled(c: Conn, ev: Event) {
    match ev
    case Request(n) => n !in c.got
    case Sent(n, _) => n in c.sends
    case TimerFired(n) => n in c.got
    case Response(_, _) => true
    case ReceiveEnd(r) => c.ended.None? && !r.Success? && !r.Timeout?
  }

  ghost function Next(c: Conn, ev: Event): Conn
    requires Enabled(c, ev)
  {
    match ev
    case Request(n) => AddRequest(c, n)
    case Sent(n, r) => SendDone(c, n, r)
    case TimerFired(n) => CompleteRequest(c, n, Completion(RespTimeout, [])).(timers := c.timers - {n})
    case Response(n, buf) => CompleteRequest(c, n, Completion(Ok, buf))
    case ReceiveEnd(r) => ReceiveEnded(c, r)
  }

  /** Where request n stands. */
  ghost predicate ReqOk(c: Conn, n: nat)
    requires n in c.got
  {
    && (n in c.sends <==> n !in c.wrote)
    && (if n in c.reqs then
          && c.got[n] == []
          && (c.reqs[n].sent ==> n in c.wrote && c.wrote[n].Success? && c.reqs[n].fail.None?)
          && (!c.reqs[n].sent ==> n in c.sends)
          && (c.reqs[n].fail.Some? <==> n in c.left)
          && (c.reqs[n].fail.Some? ==> EndedWith(c, c.reqs[n].fail.value))
          && (n in c.timers || c.reqs[n].fail.Some?)
        else
          |c.got[n]| == 1 && CodeOk(c, n, c.got[n][0].code))
  }

  /** The receive loop has ended in the way the code tells. */
  ghost predicate EndedWith(c: Conn, code: Code) {
    (code == RespCanceled && c.ended == Some(Canceled)) || (code == RespFailed && c.ended == Some(Failed))
  }

  /** What the code a request completed with says about its write and about the receive loop. */
  ghost predicate CodeOk(c: Conn, n: nat, code: Code) {
    match code
    case Ok => true
    case RespTimeout => true
    case SendTimeout => n in c.wrote && c.wrote[n] == Timeout
    case SendCanceled => n in c.wrote && c.wrote[n] == Canceled
    case SendFailed => n in c.wrote && c.wrote[n] == Failed
    case RespCanceled => n in c.wrote && c.wrote[n] == Success && n in c.left && EndedWith(c, code)
    case RespFailed => n in c.wrote && c.wrote[n] == Success && n in c.left && EndedWith(c, code)
    case _ => false
  }

  ghost predicate Inv(c: Conn) {
    && c.reqs.Keys <= c.got.Keys && c.sends <= c.got.Keys && c.wrote.Keys <= c.got.Keys && c.left <= c.got.Keys
    && (c.ended.None? ==> c.left == {})
    && c.ended in {None, Some(Canceled), Some(Failed)}
    && forall n :: n in c.got ==> ReqOk(c, n)
  }

  lemma SendDoneKeeps(c: Conn, n: nat, r: PipeRes)
    requires Inv(c) && n in c.sends
    ensures Inv(SendDone(c, n, r))
  {
    assert ReqOk(c, n);
    if r.Success? {
      WrittenKeeps(c, n);
    } else {
      WriteFailedKeeps(c, n, r);
    }
  }

  lemma WrittenKeeps(c: Conn, n: nat)
    requires Inv(c) && n in c.sends && ReqOk(c, n)
    ensures Inv(SendDone(c, n, Success))
  {
    var c' := SendDone(c, n, Success);
    forall m | m in c'.got
      ensures ReqOk(c', m)
    {
      assert ReqOk(c, m);
    }
  }

  lemma WriteFailedKeeps(c: Conn, n: nat, r: PipeRes)
    requires Inv(c) && n in c.sends && ReqOk(c, n) && !r.Success?
    ensures Inv(SendDone(c, n, r))
  {
    var c' := SendDone(c, n, r);
    forall m | m in c'.got
      ensures ReqOk(c', m)
    {
      assert ReqOk(c, m);
    }
  }

  lemma CompleteKeeps(c: Conn, n: nat, x: Completion)
    requires Inv(c) && (x.code == Ok || x.code == RespTimeout)
    ensures Inv(CompleteRequest(c, n, x))
  {
    var c' := CompleteRequest(c, n, x);
    forall m | m in c'.got
      ensures ReqOk(c', m)
    {
      assert ReqOk(c, m);
    }
  }

  lemma ReceiveEndKeeps(c: Conn, r: PipeRes)
    requires Inv(c) && Enabled(c, ReceiveEnd(r))
    ensures Inv(ReceiveEnded(c, r))
  {
    var c' := ReceiveEnded(c, r);
    forall m | m in c'.got
      ensures ReqOk(c', m)
    {
      assert ReqOk(c, m);
    }
  }

  lemma EventKeeps(c: Conn, ev: Event)
    requires Inv(c) && Enabled(c, ev)
    ensures Inv(Next(c, ev))
  {
    match ev
    case Request(n) =>
      forall m | m in AddRequest(c, n).got
        ensures ReqOk(AddRequest(c, n), m)
      {
        if m != n {
          assert ReqOk(c, m);
        }
      }
    case Sent(n, r) => SendDoneKeeps(c, n, r);
    case TimerFired(n) => CompleteKeeps(c, n, Completion(RespTimeout, []));
      forall m | m in c.got
        ensures ReqOk(Next(c, ev), m)
      {
        assert ReqOk(CompleteRequest(c, n, Completion(RespTimeout, [])), m);
      }
    case Response(n, buf) => CompleteKeeps(c, n, Completion(Ok, buf));
    case ReceiveEnd(r) => ReceiveEndKeeps(c, r);
  }

  ghost predicate Step(c: Conn, c': Conn) {
    exists ev :: Enabled(c, ev) && c' == Next(c, ev)
  }

  ghost predicate IsRun(tr: seq<Conn>) {
    |tr| > 0 && tr[0] == NEW_CONN && forall i :: 0 <= i < |tr| - 1 ==> Step(tr[i], tr[i + 1])
  }

  lemma {:induction false} Always(tr: seq<Conn>, i: nat)
    requires IsRun(tr) && i < |tr|
    ensures Inv(tr[i])
  {
    if i > 0 {
      Always(tr, i - 1);
      assert Step(tr[i - 1], tr[i]);
      var ev :| Enabled(tr[i - 1], ev) && tr[i] == Next(tr[i - 1], ev);
      EventKeeps(tr[i - 1], ev);
    }
  }

  /**
   No request is lost and none completes twice: each one has completed once, or is in the map and
   something is still bound to complete it: its timer, or its send callback with a failure code
   already recorded for it. Once no timer runs and no send callback is due, all have completed.
   */
  lemma CompletesExactlyOnce(tr: seq<Conn>, i: nat, n: nat)
    requires IsRun(tr) && i < |tr| && n in tr[i].got
    ensures var c := tr[i];
            && (n in c.reqs <==> c.got[n] == [])
            && |c.got[n]| <= 1
            && (n in c.reqs ==> n in c.timers || (n in c.sends && c.reqs[n].fail.Some?))
            && (c.timers == {} && c.sends == {} ==> |c.got[n]| == 1)
  {
    Always(tr, i);
    assert ReqOk(tr[i], n);
  }

  /**
   send_* codes only when the write failed that way. Canceled and failed only when it succeeded and
   the receive loop ended while the request was outstanding: by a cancel or by a failure, as told.
   */
  lemma CodesTellAboutTheWrite(tr: seq<Conn>, i: nat, n: nat)
    requires IsRun(tr) && i < |tr| && n in tr[i].got && tr[i].got[n] != []
    ensures var c, code := tr[i], tr[i].got[n][0].code;
            && (code == SendTimeout ==> n in c.wrote && c.wrote[n] == Timeout)
            && (code == SendCanceled ==> n in c.wrote && c.wrote[n] == Canceled)
            && (code == SendFailed ==> n in c.wrote && c.wrote[n] == Failed)
            && (code in {RespCanceled, RespFailed} ==> n in c.wrote && c.wrote[n] == Success && n in c.left)
            && (code == RespCanceled ==> c.ended == Some(Canceled))
            && (code == RespFailed ==> c.ended == Some(Failed))
            && code in {Ok, RespTimeout, SendTimeout, SendCanceled, SendFailed, RespCanceled, RespFailed}
  {
    Always(tr, i);
    assert ReqOk(tr[i], n);
  }

  lemma EventKeepsCompletions(c: Conn, ev: Event, n: nat)
    requires Inv(c) && Enabled(c, ev) && n in c.got && c.got[n] != []
    ensures n in Next(c, ev).got && Next(c, ev).got[n] == c.got[n]
  {
    assert ReqOk(c, n);
  }

  /** A completion, once given, is never taken back or added to. */
  lemma {:induction false} CompletionsStand(tr: seq<Conn>, i: nat, j: nat, n: nat)
    requires IsRun(tr) && i <= j < |tr| && n in tr[i].got && tr[i].got[n] != []
    ensures n in tr[j].got && tr[j].got[n] == tr[i].got[n]
    decreases j
  {
    if i < j {
      CompletionsStand(tr, i, j - 1, n);
      Always(tr, j - 1);
      assert Step(tr[j - 1], tr[j]);
      var ev :| Enabled(tr[j - 1], ev) && tr[j] == Next(tr[j - 1], ev);
      EventKeepsCompletions(tr[j - 1], ev, n);
    }
  }
}
