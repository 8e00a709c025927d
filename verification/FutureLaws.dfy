/** What each kind of callback contributes: the laws the evaluator obeys, and so every finished run. */
module FutureLaws {
  import opened Prelude
  import opened FutureSemantics
  import opened FutureMachine
  import opened FutureTheorems

  /** `then`: an exception passes by; the callback's result is stored, and so is what it throws. */
  lemma ThenLaw(env: seq<Outcome>, s: nat, t: imap<int, Body>)
    requires s < |env|
    ensures env[s].Err? ==> EvalNode(env, Then(s, t)) == env[s]
    ensures env[s].Ok? && env[s].v !in t ==> EvalNode(env, Then(s, t)) == Err(NoEntry)
    ensures forall u :: env[s].Ok? && env[s].v in t && t[env[s].v] == Ret(u) ==> EvalNode(env, Then(s, t)) == Ok(u)
    ensures forall e :: env[s].Ok? && env[s].v in t && t[env[s].v] == Throw(e) ==> EvalNode(env, Then(s, t)) == Err(e)
  {
  }

  /** `catched`: a value passes by, unless the callback returns void; an exception is replaced. */
  lemma CatchedLaw(env: seq<Outcome>, s: nat, t: imap<Exn, Body>, discard: bool)
    requires s < |env|
    ensures env[s].Ok? ==> EvalNode(env, Catched(s, t, discard)) == if discard then Ok(UNIT) else env[s]
    ensures env[s].Err? && env[s].e !in t ==> EvalNode(env, Catched(s, t, discard)) == Err(NoEntry)
    ensures forall u :: env[s].Err? && env[s].e in t && t[env[s].e] == Ret(u) ==>
              EvalNode(env, Catched(s, t, discard)) == Ok(if discard then UNIT else u)
    ensures forall e :: env[s].Err? && env[s].e in t && t[env[s].e] == Throw(e) ==>
              EvalNode(env, Catched(s, t, discard)) == Err(e)
  {
  }

  /** `finally`: the outcome passes by, unless the callback throws. */
  lemma FinallyLaw(env: seq<Outcome>, s: nat, v: int, e: Exn)
    requires s < |env|
    ensures EvalNode(env, Finally(s, Ret(v))) == env[s]
    ensures EvalNode(env, Finally(s, Throw(e))) == Err(e)
  {
  }

  /** What the future a callback returned comes to: its own outcome, or an error if there is none. */
  ghost predicate ComesTo(env: seq<Outcome>, b: FutureBody, o: Outcome) {
    match b
    case FThrow(e) => o == Err(e)
    case FReturn(p) =>
      match Eval(env, p)
      case Nested(inner) => o == inner
      case Failed(e) => o == Err(e)
      case Invalid => o == Err(ReturnedFutureInvalid)
      case Plain(_) => false
  }

  lemma {:induction false} ProgramsReturnFutures(env: seq<Outcome>, p: Prog)
    ensures !Eval(env, p).Plain?
    decreases p
  {
    match p
    case Done(_) =>
    case Let(n, rest) =>
      if InScope(env, n) {
        ProgramsReturnFutures(env + [EvalNode(env, n)], rest);
      }
  }

  /** `then` with a callback that returns a future is that future. */
  lemma ThenFutureLaw(env: seq<Outcome>, s: nat, t: imap<int, FutureBody>)
    requires s < |env|
    ensures env[s].Err? ==> EvalNode(env, ThenFuture(s, t)) == env[s]
    ensures env[s].Ok? && env[s].v !in t ==> EvalNode(env, ThenFuture(s, t)) == Err(NoEntry)
    ensures env[s].Ok? && env[s].v in t ==> ComesTo(env, t[env[s].v], EvalNode(env, ThenFuture(s, t)))
  {
    if env[s].Ok? && env[s].v in t && t[env[s].v].FReturn? {
      ProgramsReturnFutures(env, t[env[s].v].p);
    }
  }

  lemma CatchedFutureLaw(env: seq<Outcome>, s: nat, t: imap<Exn, FutureBody>)
    requires s < |env|
    ensures env[s].Ok? ==> EvalNode(env, CatchedFuture(s, t)) == env[s]
    ensures env[s].Err? && env[s].e !in t ==> EvalNode(env, CatchedFuture(s, t)) == Err(NoEntry)
    ensures env[s].Err? && env[s].e in t ==> ComesTo(env, t[env[s].e], EvalNode(env, CatchedFuture(s, t)))
  {
    if env[s].Err? && env[s].e in t && t[env[s].e].FReturn? {
      ProgramsReturnFutures(env, t[env[s].e].p);
    }
  }

  /** `finally` with a callback that returns a future: the outcome passes by, unless that future fails. */
  lemma FinallyFutureLaw(env: seq<Outcome>, s: nat, b: FutureBody, o: Outcome)
    requires s < |env| && ComesTo(env, b, o)
    ensures EvalNode(env, FinallyFuture(s, b)) == if o.Err? then o else env[s]
  {
  }

  /** A program: its definitions one after another, each over a future that exists; then its result. */
  lemma ProgramLaw(env: seq<Outcome>, n: Node, rest: Prog, r: nat)
    ensures r < |env| ==> Eval(env, Done(r)) == Nested(env[r])
    ensures r >= |env| ==> Eval(env, Done(r)) == Invalid
    ensures !n.Promised? && n.src >= |env| ==> Eval(env, Let(n, rest)) == Failed(FutureInvalid)
    ensures n.Promised? ==> Eval(env, Let(n, rest)) == Eval(env + [n.o], rest)
    ensures !n.Promised? && n.src < |env| ==> Eval(env, Let(n, rest)) == Eval(env + [EvalNode(env, n)], rest)
  {
  }

  ghost function OneStage(o: Outcome, n: Node): Prog {
    Let(Promised(o), Let(n, Done(1)))
  }

  /**
   Every run of a promise and one continuation, once nothing is left to run, shows the client the
   outcome that the laws above give for that continuation.
   */
  lemma RunsObeyTheLaws(o: Outcome, n: Node, tr: seq<State>)
    requires !n.Promised? && n.src == 0 && IsRun(OneStage(o, n), tr) && tr[|tr| - 1].tasks == []
    ensures Observed(tr[|tr| - 1]) == Some(Nested(EvalNode([o], n)))
  {
    ScheduleIndependence(OneStage(o, n), tr);
    assert [] + [EvalNode([], Promised(o))] == [o];
    assert Eval([o], Let(n, Done(1))) == Eval([o] + [EvalNode([o], n)], Done(1));
    assert ([o] + [EvalNode([o], n)])[1] == EvalNode([o], n);
  }
}
