/**
 What every step of the future machine keeps. An oracle says in advance what each controller is
 going to hold and orders the controllers by dependency; the invariant says that every closure in
 circulation agrees with the oracle, that the closures and threads in circulation are, one for
 one, the controllers still to be settled, and how many steps are left.
 */
module FutureInvariant {
  import opened Prelude
  import opened FutureController
  import opened FutureSemantics
  import opened FutureMachine

  datatype Oracle = Oracle(want: seq<Held>, rank: seq<real>)

  ghost predicate Flat(h: Held) {
    h.Plain? || h.Failed?
  }

  ghost function Outs(o: Oracle, env: seq<nat>): seq<Outcome> {
    seq(|env|, i requires 0 <= i < |env| =>
      if env[i] < |o.want| then Join(o.want[env[i]]) else Err(FutureInvalid))
  }

  ghost function Env(k: Cont): seq<nat> {
    if k.KThenFuture? || k.KCatchedFuture? || k.KFinallyFuture? then k.env else []
  }

  /** Everything captured is known, is a proper future, and does not depend on t. */
  ghost predicate EnvOk(o: Oracle, env: seq<nat>, t: nat) {
    && t < |o.want| == |o.rank|
    && forall i :: 0 <= i < |env| ==>
         env[i] < |o.want| && Flat(o.want[env[i]]) && o.rank[env[i]] < o.rank[t]
  }

  /** What settling with `made`, returned by a nested callback, leads to. */
  ghost function RetResult(ret: Ret, made: Held): Held {
    match ret
    case ToSlot(_) => made
    case ToCatched(_) => Hold(Join(made))
    case ToFinally(_, before) => Hold(AfterCleanup(before, Join(made)))
  }

  /** What pair k, registered on a controller that will hold w, leads its target to hold. */
  ghost function Result(k: Cont, w: Held, env: seq<Outcome>): Held {
    match k
    case KThen(_, t) => if w.Plain? then Hold(RunBody(At(t, w.v))) else w
    case KThenFuture(_, _, t) => if w.Plain? then EvalBody(env, FutureAt(t, w.v)) else w
    case KFlatten(_) => Hold(Join(w))
    case KAdopt(_) => w
    case KCatched(_, t, discard) =>
      var h := if w.Failed? then Hold(RunBody(At(t, w.e))) else w;
      if h.Plain? && discard then Plain(UNIT) else h
    case KCatchedFuture(_, _, t) =>
      if w.Failed? then Hold(Join(EvalBody(env, FutureAt(t, w.e)))) else w
    case KFinally(_, b) => Hold(AfterCleanup(Join(w), RunBody(b)))
    case KFinallyFuture(_, _, b) => Hold(AfterCleanup(Join(w), Join(EvalBody(env, b))))
    case KKeep(_, before) => Hold(AfterCleanup(before, Join(w)))
  }

  ghost predicate ContOk(o: Oracle, c: nat, k: Cont) {
    && c < |o.want| && EnvOk(o, Env(k), k.next) && o.rank[c] < o.rank[k.next]
    && (if k.KFlatten? then !o.want[c].Plain? else Flat(o.want[c]))
    && o.want[k.next] == Result(k, o.want[c], Outs(o, Env(k)))
  }

  ghost predicate Matches(o: Oracle, c: nat, x: Content)
    requires c < |o.want| == |o.rank|
  {
    match x
    case Data(v) => o.want[c] == Plain(v)
    case NoHandle => o.want[c] == Invalid
    case Handle(r) =>
      r < |o.want| && Flat(o.want[r]) && o.rank[r] < o.rank[c] && o.want[c] == Nested(Join(o.want[r]))
  }

  ghost predicate TaskOk(cs: Controllers, o: Oracle, t: Task) {
    match t
    case DrainS(c) => c < |cs|
    case DrainF(c) => c < |cs|
    case CallS(c, k) => c < |cs| && cs[c].val.Some? && ContOk(o, c, k)
    case CallF(c, k) => c < |cs| && cs[c].exc.Some? && ContOk(o, c, k)
    case Produce(c, out) => c < |o.want| && o.want[c] == Hold(out)
    case Build(env, p, ret) =>
      EnvOk(o, env, ret.slot) && o.want[ret.slot] == RetResult(ret, Eval(Outs(o, env), p))
    case BuildFlat(env, mid, rest, ret) =>
      && EnvOk(o, env, mid) && EnvOk(o, env, ret.slot)
      && o.rank[mid] < o.rank[ret.slot] && !o.want[mid].Plain?
      && o.want[ret.slot] == RetResult(ret, Eval(Outs(o, env) + [Join(o.want[mid])], rest))
  }

  ghost predicate CtlOk(q: Ctl<Content, Exn, Cont>, o: Oracle, c: nat)
    requires c < |o.want| == |o.rank|
  {
    && !(q.val.Some? && q.exc.Some?)
    && (q.val.Some? ==> Matches(o, c, q.val.value))
    && (q.exc.Some? ==> o.want[c] == Failed(q.exc.value))
    && (!q.Settled() ==> q.onSuccess == q.onFail)
    && (forall k :: k in q.onSuccess ==> ContOk(o, c, k))
    && (forall k :: k in q.onFail ==> ContOk(o, c, k))
  }

  /** No callback of a settled controller is waiting without a drain on its way. */
  ghost predicate DrainDue(s: State, c: nat)
    requires c < |s.ctls|
  {
    var q := s.ctls[c];
    && (q.Settled() && q.onSuccess != [] ==> DrainS(c) in s.tasks)
    && (q.Settled() && q.onFail != [] ==> DrainF(c) in s.tasks)
  }

  // ----- how many steps things take -----

  ghost function ProgCost(env: seq<Outcome>, p: Prog): nat
    decreases p
  {
    match p
    case Done(_) => 1
    case Let(n, rest) =>
      if InScope(env, n) then 1 + NodeCost(env, n) + ProgCost(env + [EvalNode(env, n)], rest) else 1
  }

  /** Handing over the returned future: two drains, and the inner pair where there is one. */
  ghost function ReturnCost(direct: bool, made: Held): nat {
    if direct || !made.Nested? then 2 else 5
  }

  ghost function BodyCost(env: seq<Outcome>, b: FutureBody, direct: bool): nat
    decreases b
  {
    match b
    case FThrow(_) => 2
    case FReturn(p) => ProgCost(env, p) + ReturnCost(direct, Eval(env, p))
  }

  ghost function FlattenCost(mid: Held): nat {
    if mid.Nested? then 6 else 3
  }

  ghost function NodeCost(env: seq<Outcome>, n: Node): nat
    requires InScope(env, n)
    decreases n
  {
    match n
    case Promised(_) => 3
    case ThenFuture(s, t) =>
      (match env[s]
       case Ok(v) =>
         6 + (if v in t then BodyCost(env, t[v], true) else 2)
           + FlattenCost(if v in t then EvalBody(env, t[v]) else Failed(NoEntry))
       case Err(e) => 8 + FlattenCost(Failed(e)))
    case CatchedFuture(s, t) =>
      (match env[s] case Ok(_) => 5 case Err(e) => 3 + if e in t then BodyCost(env, t[e], false) else 2)
    case FinallyFuture(s, b) => 3 + BodyCost(env, b, false)
    case _ => 5
  }

  ghost function CallCost(k: Cont, w: Held, env: seq<Outcome>): nat {
    match k
    case KThenFuture(_, _, t) => if w.Plain? then 1 + BodyCost(env, FutureAt(t, w.v), true) else 3
    case KFlatten(_) => FlattenCost(w)
    case KCatchedFuture(_, _, t) => if w.Failed? then 1 + BodyCost(env, FutureAt(t, w.e), false) else 3
    case KFinallyFuture(_, _, b) => 1 + BodyCost(env, b, false)
    case _ => 3
  }

  ghost function ContCost(o: Oracle, c: nat, k: Cont): nat {
    if c < |o.want| then CallCost(k, o.want[c], Outs(o, Env(k))) else 0
  }

  ghost function TaskCost(o: Oracle, t: Task): nat {
    match t
    case DrainS(_) => 1
    case DrainF(_) => 1
    case CallS(c, k) => ContCost(o, c, k)
    case CallF(c, k) => ContCost(o, c, k)
    case Produce(_, _) => 3
    case Build(env, p, ret) =>
      ProgCost(Outs(o, env), p) + ReturnCost(ret.ToSlot?, Eval(Outs(o, env), p))
    case BuildFlat(env, mid, rest, ret) =>
      if mid < |o.want| then
        var env' := Outs(o, env) + [Join(o.want[mid])];
        3 + FlattenCost(o.want[mid]) + ProgCost(env', rest) + ReturnCost(ret.ToSlot?, Eval(env', rest))
      else 0
  }

  /** The controller a task still has to settle, if any. */
  ghost function Owed(t: Task): multiset<nat> {
    match t
    case DrainS(_) => multiset{}
    case DrainF(_) => multiset{}
    case CallS(_, k) => multiset{k.next}
    case CallF(_, k) => multiset{k.next}
    case Produce(c, _) => multiset{c}
    case Build(_, _, ret) => multiset{ret.slot}
    case BuildFlat(_, _, _, ret) => multiset{ret.slot}
  }

  // ----- adding up -----

  /** What is being added up: the duties towards one controller, or the steps still to come. */
  datatype Gauge = Duty(c: nat) | Steps

  ghost function TaskLoad(o: Oracle, t: Task, g: Gauge): nat {
    match g
    case Duty(c) => Owed(t)[c]
    case Steps => TaskCost(o, t)
  }

  ghost function ContLoad(o: Oracle, c: nat, k: Cont, g: Gauge): nat {
    match g
    case Duty(n) => if k.next == n then 1 else 0
    case Steps => ContCost(o, c, k)
  }

  ghost function TaskSum(o: Oracle, ts: seq<Task>, g: Gauge): nat {
    if ts == [] then 0 else TaskSum(o, ts[..|ts| - 1], g) + TaskLoad(o, ts[|ts| - 1], g)
  }

  ghost function ContSum(o: Oracle, c: nat, ks: seq<Cont>, g: Gauge): nat {
    if ks == [] then 0 else ContSum(o, c, ks[..|ks| - 1], g) + ContLoad(o, c, ks[|ks| - 1], g)
  }

  /** The queue whose callbacks are still going to run. */
  ghost function Live(q: Ctl<Content, Exn, Cont>): seq<Cont> {
    if q.exc.Some? then q.onFail else q.onSuccess
  }

  ghost function CtlSum(o: Oracle, cs: Controllers, g: Gauge): nat {
    if cs == [] then 0
    else CtlSum(o, cs[..|cs| - 1], g) + ContSum(o, |cs| - 1, Live(cs[|cs| - 1]), g)
  }

  ghost function Total(o: Oracle, s: State, g: Gauge): nat {
    TaskSum(o, s.tasks, g) + CtlSum(o, s.ctls, g)
  }

  /** `duty` are the controllers that the thread now running has taken on. */
  ghost predicate Balanced(s: State, o: Oracle, duty: multiset<nat>, c: nat) {
    Total(o, s, Duty(c)) + duty[c] == if c < |s.ctls| && !s.ctls[c].Settled() then 1 else 0
  }

  ghost predicate CtlsOk(cs: Controllers, o: Oracle) {
    && |cs| == |o.want| == |o.rank|
    && forall c :: 0 <= c < |cs| ==> CtlOk(cs[c], o, c)
  }

  ghost predicate DrainsDue(s: State) {
    forall c :: 0 <= c < |s.ctls| ==> DrainDue(s, c)
  }

  ghost predicate TasksOk(cs: Controllers, o: Oracle, ts: seq<Task>) {
    forall t :: t in ts ==> TaskOk(cs, o, t)
  }

  ghost predicate AllBalanced(s: State, o: Oracle, duty: multiset<nat>) {
    forall c: nat :: Balanced(s, o, duty, c)
  }

  ghost predicate Inv(s: State, o: Oracle, duty: multiset<nat>) {
    && CtlsOk(s.ctls, o)
    && DrainsDue(s)
    && TasksOk(s.ctls, o, s.tasks)
    && AllBalanced(s, o, duty)
  }

  // ----- sums -----

  lemma {:induction false} TaskSumAppend(o: Oracle, a: seq<Task>, b: seq<Task>, g: Gauge)
    ensures TaskSum(o, a + b, g) == TaskSum(o, a, g) + TaskSum(o, b, g)
  {
    if b == [] {
      assert a + b == a;
    } else {
      TaskSumAppend(o, a, b[..|b| - 1], g);
      assert (a + b)[..|a + b| - 1] == a + b[..|b| - 1];
    }
  }

  lemma TaskSumOne(o: Oracle, a: seq<Task>, t: Task, g: Gauge)
    ensures TaskSum(o, a + [t], g) == TaskSum(o, a, g) + TaskLoad(o, t, g)
  {
    assert (a + [t])[..|a|] == a;
  }

  lemma TaskSumWithout(o: Oracle, ts: seq<Task>, i: nat, g: Gauge)
    requires i < |ts|
    ensures TaskSum(o, ts, g) == TaskSum(o, Without(ts, i), g) + TaskLoad(o, ts[i], g)
  {
    var a, b := ts[..i], ts[i + 1..];
    assert ts == (a + [ts[i]]) + b;
    TaskSumAppend(o, a + [ts[i]], b, g);
    TaskSumOne(o, a, ts[i], g);
    TaskSumAppend(o, a, b, g);
  }

  lemma ContSumOne(o: Oracle, c: nat, ks: seq<Cont>, k: Cont, g: Gauge)
    ensures ContSum(o, c, ks + [k], g) == ContSum(o, c, ks, g) + ContLoad(o, c, k, g)
  {
    assert (ks + [k])[..|ks|] == ks;
  }

  lemma {:induction false} CtlSumUpdate(o: Oracle, cs: Controllers, c: nat, q: Ctl<Content, Exn, Cont>, g: Gauge)
    requires c < |cs|
    ensures CtlSum(o, cs[c := q], g) + ContSum(o, c, Live(cs[c]), g)
         == CtlSum(o, cs, g) + ContSum(o, c, Live(q), g)
  {
    var n := |cs| - 1;
    if c == n {
      assert cs[c := q][..n] == cs[..n];
    } else {
      CtlSumUpdate(o, cs[..n], c, q, g);
      assert cs[c := q][..n] == cs[..n][c := q];
    }
  }

  ghost function CallTask(c: nat, k: Cont, success: bool): Task {
    if success then CallS(c, k) else CallF(c, k)
  }

  lemma CallTasksLast(c: nat, ks: seq<Cont>, success: bool)
    requires ks != []
    ensures var n := |ks| - 1;
            && ks == ks[..n] + [ks[n]]
            && CallTasks(c, ks, success) == CallTasks(c, ks[..n], success) + [CallTask(c, ks[n], success)]
  {
  }

  lemma CallTaskLoad(o: Oracle, c: nat, k: Cont, success: bool, g: Gauge)
    ensures TaskLoad(o, CallTask(c, k, success), g) == ContLoad(o, c, k, g)
  {
  }

  /** Draining a queue turns its callbacks into call tasks of the same load. */
  lemma {:induction false} CallTasksSum(o: Oracle, c: nat, ks: seq<Cont>, success: bool, g: Gauge)
    ensures TaskSum(o, CallTasks(c, ks, success), g) == ContSum(o, c, ks, g)
  {
    if ks != [] {
      var n := |ks| - 1;
      CallTasksLast(c, ks, success);
      CallTasksSum(o, c, ks[..n], success, g);
      TaskSumOne(o, CallTasks(c, ks[..n], success), CallTask(c, ks[n], success), g);
      ContSumOne(o, c, ks[..n], ks[n], g);
      CallTaskLoad(o, c, ks[n], success, g);
    }
  }
}
