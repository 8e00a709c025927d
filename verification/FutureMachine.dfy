/**
 How a future graph really runs: controllers with callback queues, and a pool whose tasks may be
 executed in any order. One step of the machine is one mutex-protected block together with the
 tasks posted from it.
 */
module FutureMachine {
  import opened Prelude
  import opened FutureController
  import opened FutureSemantics

  /** What a controller's value slot can hold; a future is held as the number of its controller. */
  datatype Content = Data(v: int) | Handle(c: nat) | NoHandle

  /**
   The closure pairs that then, catched, finally and flatten_future register on a source. `next`
   is the controller the pair will settle; `env` are the futures a nested callback has captured.
   `KAdopt` and `KKeep` are the inner pairs registered on a future that a callback returned.
   */
  datatype Cont =
    | KThen(next: nat, plain: imap<int, Body>)
    | KThenFuture(next: nat, env: seq<nat>, nested: imap<int, FutureBody>)
    | KFlatten(next: nat)
    | KAdopt(next: nat)
    | KCatched(next: nat, recover: imap<Exn, Body>, discard: bool)
    | KCatchedFuture(next: nat, env: seq<nat>, nestedRecover: imap<Exn, FutureBody>)
    | KFinally(next: nat, cleanup: Body)
    | KFinallyFuture(next: nat, env: seq<nat>, nestedCleanup: FutureBody)
    | KKeep(next: nat, before: Outcome)

  /** What becomes of the future that a nested program returns. */
  datatype Ret = ToSlot(slot: nat) | ToCatched(slot: nat) | ToFinally(slot: nat, before: Outcome)

  /**
   Pool tasks and running threads. `Produce` is the owner of a promise on its way to settling it;
   `Build` is a thread part-way through a client program; `BuildFlat` is such a thread between the
   two registrations of a `then` whose callback returns a future.
   */
  datatype Task =
    | DrainS(c: nat)
    | DrainF(c: nat)
    | CallS(c: nat, k: Cont)
    | CallF(c: nat, k: Cont)
    | Produce(c: nat, o: Outcome)
    | Build(env: seq<nat>, p: Prog, ret: Ret)
    | BuildFlat(env: seq<nat>, mid: nat, rest: Prog, ret: Ret)

  type Controllers = seq<Ctl<Content, Exn, Cont>>

  datatype State = State(ctls: Controllers, tasks: seq<Task>)

  ghost function Fresh(): Ctl<Content, Exn, Cont> {
    Ctl(None, None, [], [])
  }

  /** The client's thread runs p and keeps the future it ends up with in slot 0. */
  ghost function Init(p: Prog): State {
    State([Fresh()], [Build([], p, ToSlot(0))])
  }

  // ----- callbacks -----

  ghost function RunBody(b: Body): Outcome {
    match b case Ret(v) => Ok(v) case Throw(e) => Err(e)
  }

  ghost function At<K>(table: imap<K, Body>, k: K): Body {
    if k in table then table[k] else Throw(NoEntry)
  }

  ghost function FutureAt<K>(table: imap<K, FutureBody>, k: K): FutureBody {
    if k in table then table[k] else FThrow(NoEntry)
  }

  // ----- the blocks -----

  ghost function Post(s: State, t: Task): State {
    s.(tasks := s.tasks + [t])
  }

  ghost function PostDrains(s: State, c: nat): State {
    Post(Post(s, DrainS(c)), DrainF(c))
  }

  ghost function SetVal(s: State, c: nat, x: Content): State
    requires c < |s.ctls|
  {
    PostDrains(s.(ctls := s.ctls[c := s.ctls[c].WithValue(x)]), c)
  }

  ghost function SetExc(s: State, c: nat, e: Exn): State
    requires c < |s.ctls|
  {
    PostDrains(s.(ctls := s.ctls[c := s.ctls[c].WithException(e)]), c)
  }

  ghost function Settle(s: State, c: nat, o: Outcome): State
    requires c < |s.ctls|
  {
    match o case Ok(v) => SetVal(s, c, Data(v)) case Err(e) => SetExc(s, c, e)
  }

  ghost function Register(s: State, c: nat, k: Cont): State
    requires c < |s.ctls|
  {
    PostDrains(s.(ctls := s.ctls[c := s.ctls[c].WithPair(k, k)]), c)
  }

  ghost function Alloc(s: State): State {
    s.(ctls := s.ctls + [Fresh()])
  }

  ghost function PostAll(s: State, ts: seq<Task>): State {
    s.(tasks := s.tasks + ts)
  }

  // ----- the tasks -----

  /** A nested callback hands back x: a future, or an invalid one. */
  ghost function Deliver(s: State, ret: Ret, x: Content): State
    requires ret.slot < |s.ctls|
    requires x.Handle? ==> x.c < |s.ctls|
  {
    match ret
    case ToSlot(m) => SetVal(s, m, x)
    case ToCatched(n) =>
      if x.Handle? then Register(s, x.c, KAdopt(n)) else SetExc(s, n, ReturnedFutureInvalid)
    case ToFinally(n, before) =>
      if x.Handle? then Register(s, x.c, KKeep(n, before)) else SetExc(s, n, ReturnedFutureInvalid)
  }

  /** The pair that a definition registers on its source. */
  ghost function PairOf(env: seq<nat>, n: Node, next: nat): Cont
    requires !n.Promised?
  {
    match n
    case Then(_, t) => KThen(next, t)
    case ThenFuture(_, t) => KThenFuture(next, env, t)
    case Catched(_, t, d) => KCatched(next, t, d)
    case CatchedFuture(_, t) => KCatchedFuture(next, env, t)
    case Finally(_, b) => KFinally(next, b)
    case FinallyFuture(_, b) => KFinallyFuture(next, env, b)
  }

  ghost function Define(s: State, env: seq<nat>, n: Node, rest: Prog, ret: Ret): State
    requires !n.Promised? ==> n.src < |env| && env[n.src] < |s.ctls|
  {
    var next := |s.ctls|;
    var continue_ := Build(env + [next], rest, ret);
    if n.Promised? then
      Post(Post(Alloc(s), Produce(next, n.o)), continue_)
    else
      Post(Register(Alloc(s), env[n.src], PairOf(env, n, next)),
           if n.ThenFuture? then BuildFlat(env, next, rest, ret) else continue_)
  }

  ghost predicate Known(s: State, env: seq<nat>) {
    forall i :: 0 <= i < |env| ==> env[i] < |s.ctls|
  }

  ghost function RunBuild(s: State, env: seq<nat>, p: Prog, ret: Ret): State
    requires Known(s, env) && ret.slot < |s.ctls|
  {
    match p
    case Done(r) => Deliver(s, ret, if r < |env| then Handle(env[r]) else NoHandle)
    case Let(n, rest) =>
      if n.Promised? || n.src < |env| then Define(s, env, n, rest, ret)
      else SetExc(s, ret.slot, FutureInvalid)
  }

  ghost function RunBuildFlat(s: State, env: seq<nat>, mid: nat, rest: Prog, ret: Ret): State
    requires mid < |s.ctls|
  {
    var next := |s.ctls|;
    Post(Register(Alloc(s), mid, KFlatten(next)), Build(env + [next], rest, ret))
  }

  ghost function RunNested(s: State, env: seq<nat>, b: FutureBody, ret: Ret): State
    requires ret.slot < |s.ctls|
  {
    match b
    case FThrow(e) => SetExc(s, ret.slot, e)
    case FReturn(p) => Post(s, Build(env, p, ret))
  }

  ghost function Datum(x: Content): int {
    if x.Data? then x.v else UNIT
  }

  ghost function RunSuccess(s: State, x: Content, k: Cont): State
    requires k.next < |s.ctls| && (x.Handle? ==> x.c < |s.ctls|)
  {
    match k
    case KThen(n, t) => Settle(s, n, RunBody(At(t, Datum(x))))
    case KThenFuture(n, env, t) => RunNested(s, env, FutureAt(t, Datum(x)), ToSlot(n))
    case KFlatten(n) => Deliver(s, ToCatched(n), x)
    case KAdopt(n) => SetVal(s, n, x)
    case KCatched(n, _, discard) => SetVal(s, n, if discard then Data(UNIT) else x)
    case KCatchedFuture(n, _, _) => SetVal(s, n, x)
    case KFinally(n, b) => if b.Throw? then SetExc(s, n, b.e) else SetVal(s, n, x)
    case KFinallyFuture(n, env, b) => RunNested(s, env, b, ToFinally(n, Ok(Datum(x))))
    case KKeep(n, before) => Settle(s, n, before)
  }

  ghost function RunFail(s: State, e: Exn, k: Cont): State
    requires k.next < |s.ctls|
  {
    match k
    case KCatched(n, t, discard) =>
      (match At(t, e)
       case Ret(v) => SetVal(s, n, Data(if discard then UNIT else v))
       case Throw(e') => SetExc(s, n, e'))
    case KCatchedFuture(n, env, t) => RunNested(s, env, FutureAt(t, e), ToCatched(n))
    case KFinally(n, b) => SetExc(s, n, if b.Throw? then b.e else e)
    case KFinallyFuture(n, env, b) => RunNested(s, env, b, ToFinally(n, Err(e)))
    case _ => SetExc(s, k.next, e)
  }

  ghost function CallTasks(c: nat, ks: seq<Cont>, success: bool): seq<Task> {
    seq(|ks|, i requires 0 <= i < |ks| => if success then CallS(c, ks[i]) else CallF(c, ks[i]))
  }

  /** What a task needs in order to be executable; the invariant shows it is never missing. */
  ghost predicate Runnable(s: State, t: Task) {
    match t
    case DrainS(c) => c < |s.ctls|
    case DrainF(c) => c < |s.ctls|
    case CallS(c, k) =>
      && c < |s.ctls| && s.ctls[c].val.Some? && k.next < |s.ctls|
      && (s.ctls[c].val.value.Handle? ==> s.ctls[c].val.value.c < |s.ctls|)
    case CallF(c, k) => c < |s.ctls| && s.ctls[c].exc.Some? && k.next < |s.ctls|
    case Produce(c, _) => c < |s.ctls|
    case Build(env, _, ret) => Known(s, env) && ret.slot < |s.ctls|
    case BuildFlat(_, mid, _, _) => mid < |s.ctls|
  }

  ghost function Run(s: State, t: Task): State
    requires Runnable(s, t)
  {
    match t
    case DrainS(c) =>
      PostAll(s.(ctls := s.ctls[c := s.ctls[c].SuccessDrained()]),
              CallTasks(c, s.ctls[c].SuccessPosted(), true))
    case DrainF(c) =>
      PostAll(s.(ctls := s.ctls[c := s.ctls[c].FailDrained()]),
              CallTasks(c, s.ctls[c].FailPosted(), false))
    case CallS(c, k) => RunSuccess(s, s.ctls[c].val.value, k)
    case CallF(c, k) => RunFail(s, s.ctls[c].exc.value, k)
    case Produce(c, o) => Settle(s, c, o)
    case Build(env, p, ret) => RunBuild(s, env, p, ret)
    case BuildFlat(env, mid, rest, ret) => RunBuildFlat(s, env, mid, rest, ret)
  }

  ghost function Take(s: State, i: nat): State
    requires i < |s.tasks|
  {
    s.(tasks := Without(s.tasks, i))
  }

  /** The scheduler picks any task at all. */
  ghost predicate Step(s: State, t: State) {
    exists i: nat :: i < |s.tasks| && StepsWith(s, i, t)
  }

  ghost predicate StepsWith(s: State, i: nat, t: State)
    requires i < |s.tasks|
  {
    Runnable(Take(s, i), s.tasks[i]) && t == Run(Take(s, i), s.tasks[i])
  }

  ghost predicate IsRun(p: Prog, tr: seq<State>) {
    && |tr| > 0 && tr[0] == Init(p)
    && forall i :: 0 <= i < |tr| - 1 ==> Step(tr[i], tr[i + 1])
  }

  /** What the client observes once nothing is left to run. */
  ghost function Observed(s: State): Option<Held>
  {
    if |s.ctls| == 0 then None
    else if s.ctls[0].exc.Some? then Some(Failed(s.ctls[0].exc.value))
    else if s.ctls[0].val.None? then None
    else match s.ctls[0].val.value
      case Data(v) => Some(Plain(v))
      case NoHandle => Some(Invalid)
      case Handle(r) =>
        if r >= |s.ctls| then None
        else if s.ctls[r].exc.Some? then Some(Nested(Err(s.ctls[r].exc.value)))
        else if s.ctls[r].val.Some? && s.ctls[r].val.value.Data?
        then Some(Nested(Ok(s.ctls[r].val.value.v)))
        else None
  }
}
