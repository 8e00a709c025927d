/** Every task of the future machine keeps the invariant and takes one step off the count. */
module FutureTasks {
  import opened Prelude
  import opened FutureController
  import opened FutureSemantics
  import opened FutureMachine
  import opened FutureInvariant
  import opened FutureSteps

  // ----- taking a task out of the pool -----

  lemma TakeKeeps(s: State, o: Oracle, i: nat)
    requires Inv(s, o, multiset{}) && i < |s.tasks| && !s.tasks[i].DrainS? && !s.tasks[i].DrainF?
    ensures Inv(Take(s, i), o, Owed(s.tasks[i]))
    ensures Total(o, Take(s, i), Steps) + TaskCost(o, s.tasks[i]) == Total(o, s, Steps)
  {
    var s', t := Take(s, i), s.tasks[i];
    WithoutMembers(s.tasks, i);
    TaskSumWithout(o, s.tasks, i, Steps);
    forall c: nat
      ensures Balanced(s', o, Owed(t), c)
    {
      assert Balanced(s, o, multiset{}, c);
      TaskSumWithout(o, s.tasks, i, Duty(c));
    }
    forall c | 0 <= c < |s'.ctls|
      ensures DrainDue(s', c)
    {
      assert DrainDue(s, c);
    }
  }

  // ----- drains -----

  /** A drain task is replaced by calls; controller c by q, whose drained side is empty. */
  lemma DrainTotal(s: State, o: Oracle, i: nat, c: nat, q: Ctl<Content, Exn, Cont>, ks: seq<Cont>, b: bool, g: Gauge)
    requires i < |s.tasks| && s.tasks[i] == (if b then DrainS(c) else DrainF(c)) && c < |s.ctls|
    requires ContSum(o, c, Live(q), g) + ContSum(o, c, ks, g) == ContSum(o, c, Live(s.ctls[c]), g)
    ensures Total(o, PostAll(Take(s, i).(ctls := s.ctls[c := q]), CallTasks(c, ks, b)), g)
          + (if g.Steps? then 1 else 0) == Total(o, s, g)
  {
    TaskSumWithout(o, s.tasks, i, g);
    TaskSumAppend(o, Without(s.tasks, i), CallTasks(c, ks, b), g);
    CallTasksSum(o, c, ks, b, g);
    CtlSumUpdate(o, s.ctls, c, q, g);
  }

  lemma DrainTasksOk(s: State, o: Oracle, i: nat, c: nat, q: Ctl<Content, Exn, Cont>, ks: seq<Cont>, b: bool)
    requires TasksOk(s.ctls, o, s.tasks) && i < |s.tasks| && c < |s.ctls|
    requires q.val == s.ctls[c].val && q.exc == s.ctls[c].exc
    requires forall k :: k in ks ==> ContOk(o, c, k)
    requires ks != [] ==> if b then q.val.Some? else q.exc.Some?
    ensures TasksOk(s.ctls[c := q], o, Without(s.tasks, i) + CallTasks(c, ks, b))
  {
    var cs', ts' := s.ctls[c := q], Without(s.tasks, i) + CallTasks(c, ks, b);
    WithoutMembers(s.tasks, i);
    forall t | t in ts'
      ensures TaskOk(cs', o, t)
    {
      if t in Without(s.tasks, i) {
        assert TaskOk(s.ctls, o, t);
      } else {
        var j :| 0 <= j < |ks| && t == CallTasks(c, ks, b)[j];
        assert ks[j] in ks;
      }
    }
  }

  lemma DrainDrains(s: State, i: nat, c: nat, q: Ctl<Content, Exn, Cont>, extra: seq<Task>)
    requires DrainsDue(s) && i < |s.tasks| && c < |s.ctls|
    requires q.val == s.ctls[c].val && q.exc == s.ctls[c].exc
    requires s.tasks[i] == DrainS(c) || s.tasks[i] == DrainF(c)
    requires s.tasks[i] == DrainS(c) ==> q.onFail == s.ctls[c].onFail && (q.Settled() ==> q.onSuccess == [])
    requires s.tasks[i] == DrainF(c) ==> q.onSuccess == s.ctls[c].onSuccess && (q.Settled() ==> q.onFail == [])
    ensures DrainsDue(State(s.ctls[c := q], Without(s.tasks, i) + extra))
  {
    var s' := State(s.ctls[c := q], Without(s.tasks, i) + extra);
    WithoutMembers(s.tasks, i);
    forall d | 0 <= d < |s'.ctls|
      ensures DrainDue(s', d)
    {
      assert DrainDue(s, d);
    }
  }

  /** What a drain leaves behind still agrees with the oracle, and what it posts was live. */
  lemma DrainFits(q: Ctl<Content, Exn, Cont>, o: Oracle, c: nat, b: bool)
    requires c < |o.want| == |o.rank| && CtlOk(q, o, c)
    ensures var q' := if b then q.SuccessDrained() else q.FailDrained();
            var ks := if b then q.SuccessPosted() else q.FailPosted();
            && CtlOk(q', o, c)
            && (forall k :: k in ks ==> ContOk(o, c, k))
            && forall g :: ContSum(o, c, Live(q'), g) + ContSum(o, c, ks, g) == ContSum(o, c, Live(q), g)
  {
  }

  lemma DrainKeeps(s: State, o: Oracle, i: nat)
    requires Inv(s, o, multiset{}) && i < |s.tasks| && (s.tasks[i].DrainS? || s.tasks[i].DrainF?)
    ensures Runnable(Take(s, i), s.tasks[i])
    ensures Inv(Run(Take(s, i), s.tasks[i]), o, multiset{})
    ensures Total(o, Run(Take(s, i), s.tasks[i]), Steps) + 1 == Total(o, s, Steps)
  {
    var c, b := s.tasks[i].c, s.tasks[i].DrainS?;
    assert TaskOk(s.ctls, o, s.tasks[i]);
    DrainFits(s.ctls[c], o, c, b);
    var q := if b then s.ctls[c].SuccessDrained() else s.ctls[c].FailDrained();
    var ks := if b then s.ctls[c].SuccessPosted() else s.ctls[c].FailPosted();
    var s' := Run(Take(s, i), s.tasks[i]);
    assert s' == PostAll(Take(s, i).(ctls := s.ctls[c := q]), CallTasks(c, ks, b));
    DrainTasksOk(s, o, i, c, q, ks, b);
    DrainDrains(s, i, c, q, CallTasks(c, ks, b));
    DrainTotal(s, o, i, c, q, ks, b, Steps);
    DrainBalance(s, o, i, c, q, ks, b);
  }

  lemma DrainBalance(s: State, o: Oracle, i: nat, c: nat, q: Ctl<Content, Exn, Cont>, ks: seq<Cont>, b: bool)
    requires AllBalanced(s, o, multiset{}) && c < |s.ctls| && q.val == s.ctls[c].val && q.exc == s.ctls[c].exc
    requires i < |s.tasks| && s.tasks[i] == (if b then DrainS(c) else DrainF(c))
    requires forall g :: ContSum(o, c, Live(q), g) + ContSum(o, c, ks, g) == ContSum(o, c, Live(s.ctls[c]), g)
    ensures AllBalanced(PostAll(Take(s, i).(ctls := s.ctls[c := q]), CallTasks(c, ks, b)), o, multiset{})
  {
    var s' := PostAll(Take(s, i).(ctls := s.ctls[c := q]), CallTasks(c, ks, b));
    forall n: nat
      ensures Balanced(s', o, multiset{}, n)
    {
      assert Balanced(s, o, multiset{}, n);
      DrainTotal(s, o, i, c, q, ks, b, Duty(n));
    }
  }

  // ----- callbacks -----

  lemma NestedKeeps(s: State, o: Oracle, duty: multiset<nat>, env: seq<nat>, b: FutureBody, ret: Ret)
    requires Inv(s, o, duty) && ret.slot in duty && EnvOk(o, env, ret.slot)
    requires o.want[ret.slot] == RetResult(ret, EvalBody(Outs(o, env), b))
    ensures Inv(RunNested(s, env, b, ret), o, duty - multiset{ret.slot})
    ensures Total(o, RunNested(s, env, b, ret), Steps)
         == Total(o, s, Steps) + BodyCost(Outs(o, env), b, ret.ToSlot?)
  {
    match b
    case FThrow(e) => SetExcKeeps(s, o, duty, ret.slot, e);
    case FReturn(p) => PostKeeps(s, o, duty, Build(env, p, ret));
  }

  /** x is the run-time form of the returned future `made`, and does not depend on slot t. */
  ghost predicate Represents(o: Oracle, x: Content, made: Held, t: nat)
    requires t < |o.want| == |o.rank|
  {
    match x
    case Data(_) => false
    case NoHandle => made == Invalid
    case Handle(r) =>
      r < |o.want| && Flat(o.want[r]) && o.rank[r] < o.rank[t] && made == Nested(Join(o.want[r]))
  }

  lemma DeliverKeeps(s: State, o: Oracle, duty: multiset<nat>, ret: Ret, x: Content, made: Held)
    requires Inv(s, o, duty) && ret.slot in duty && ret.slot < |s.ctls|
    requires Represents(o, x, made, ret.slot)
    requires o.want[ret.slot] == RetResult(ret, made)
    ensures Inv(Deliver(s, ret, x), o, duty - multiset{ret.slot})
    ensures Total(o, Deliver(s, ret, x), Steps) == Total(o, s, Steps) + ReturnCost(ret.ToSlot?, made)
  {
    match ret
    case ToSlot(m) => SetValKeeps(s, o, duty, m, x);
    case ToCatched(n) =>
      if x.Handle? {
        RegisterKeeps(s, o, duty, x.c, KAdopt(n));
      } else {
        SetExcKeeps(s, o, duty, n, ReturnedFutureInvalid);
      }
    case ToFinally(n, before) =>
      if x.Handle? {
        RegisterKeeps(s, o, duty, x.c, KKeep(n, before));
      } else {
        SetExcKeeps(s, o, duty, n, ReturnedFutureInvalid);
      }
  }

  lemma SettleOutcomeKeeps(s: State, o: Oracle, duty: multiset<nat>, c: nat, out: Outcome)
    requires Inv(s, o, duty) && c < |s.ctls| && c in duty && o.want[c] == Hold(out)
    ensures Inv(Settle(s, c, out), o, duty - multiset{c})
    ensures Total(o, Settle(s, c, out), Steps) == Total(o, s, Steps) + 2
  {
    match out
    case Ok(v) => SetValKeeps(s, o, duty, c, Data(v));
    case Err(e) => SetExcKeeps(s, o, duty, c, e);
  }

  lemma SuccessKeeps(s: State, o: Oracle, duty: multiset<nat>, c: nat, k: Cont)
    requires Inv(s, o, duty) && k.next in duty && ContOk(o, c, k) && c < |s.ctls| && s.ctls[c].val.Some?
    ensures Runnable(s, CallS(c, k))
    ensures Inv(Run(s, CallS(c, k)), o, duty - multiset{k.next})
    ensures Total(o, Run(s, CallS(c, k)), Steps) + 1 == Total(o, s, Steps) + ContCost(o, c, k)
  {
    assert CtlOk(s.ctls[c], o, c);
    var x, n := s.ctls[c].val.value, k.next;
    match k
    case KThen(_, t) => SettleOutcomeKeeps(s, o, duty, n, RunBody(At(t, Datum(x))));
    case KThenFuture(_, env, t) => NestedKeeps(s, o, duty, env, FutureAt(t, Datum(x)), ToSlot(n));
    case KFlatten(_) => DeliverKeeps(s, o, duty, ToCatched(n), x, o.want[c]);
    case KAdopt(_) => SetValKeeps(s, o, duty, n, x);
    case KCatched(_, _, discard) => SetValKeeps(s, o, duty, n, if discard then Data(UNIT) else x);
    case KCatchedFuture(_, _, _) => SetValKeeps(s, o, duty, n, x);
    case KFinally(_, b) =>
      if b.Throw? {
        SetExcKeeps(s, o, duty, n, b.e);
      } else {
        SetValKeeps(s, o, duty, n, x);
      }
    case KFinallyFuture(_, env, b) => NestedKeeps(s, o, duty, env, b, ToFinally(n, Ok(Datum(x))));
    case KKeep(_, before) => SettleOutcomeKeeps(s, o, duty, n, before);
  }

  lemma FailKeeps(s: State, o: Oracle, duty: multiset<nat>, c: nat, k: Cont)
    requires Inv(s, o, duty) && k.next in duty && ContOk(o, c, k) && c < |s.ctls| && s.ctls[c].exc.Some?
    ensures Runnable(s, CallF(c, k))
    ensures Inv(Run(s, CallF(c, k)), o, duty - multiset{k.next})
    ensures Total(o, Run(s, CallF(c, k)), Steps) + 1 == Total(o, s, Steps) + ContCost(o, c, k)
  {
    assert CtlOk(s.ctls[c], o, c);
    var e, n := s.ctls[c].exc.value, k.next;
    match k
    case KCatched(_, t, discard) =>
      match At(t, e) {
        case Ret(v) => SetValKeeps(s, o, duty, n, Data(if discard then UNIT else v));
        case Throw(e') => SetExcKeeps(s, o, duty, n, e');
      }
    case KCatchedFuture(_, env, t) => NestedKeeps(s, o, duty, env, FutureAt(t, e), ToCatched(n));
    case KFinally(_, b) => SetExcKeeps(s, o, duty, n, if b.Throw? then b.e else e);
    case KFinallyFuture(_, env, b) => NestedKeeps(s, o, duty, env, b, ToFinally(n, Err(e)));
    case _ => SetExcKeeps(s, o, duty, n, e);
  }

  // ----- building -----

  lemma Duties(a: nat, b: nat)
    ensures multiset{a} + multiset{b} - multiset{b} == multiset{a}
    ensures multiset{a} - multiset{a} == multiset{}
    ensures b in multiset{a} + multiset{b}
  {
  }

  /** There is room below hi and above everything captured. */
  lemma {:induction false} RankBetween(rank: seq<real>, env: seq<nat>, hi: real) returns (r: real)
    requires forall i :: 0 <= i < |env| ==> env[i] < |rank| && rank[env[i]] < hi
    ensures r < hi && forall i :: 0 <= i < |env| ==> rank[env[i]] < r
  {
    if env == [] {
      r := hi - 1.0;
    } else {
      var n := |env| - 1;
      r := RankBetween(rank, env[..n], hi);
      if r <= rank[env[n]] {
        r := (rank[env[n]] + hi) / 2.0;
      }
    }
  }

  /** What a registered pair leads to is what the evaluator says of the definition. */
  lemma PairMeaning(o: Oracle, env: seq<nat>, n: Node, next: nat)
    requires |o.want| == |o.rank| && !n.Promised? && n.src < |env|
    requires forall i :: 0 <= i < |env| ==> env[i] < |o.want| && Flat(o.want[env[i]])
    ensures var h := Result(PairOf(env, n, next), o.want[env[n.src]], Outs(o, env));
            && Join(h) == EvalNode(Outs(o, env), n)
            && (if n.ThenFuture? then !h.Plain? else Flat(h))
            && NodeCost(Outs(o, env), n)
               == 2 + CallCost(PairOf(env, n, next), o.want[env[n.src]], Outs(o, env))
                  + if n.ThenFuture? then 3 + FlattenCost(h) else 0
  {
    var outs := Outs(o, env);
    assert outs[n.src] == Join(o.want[env[n.src]]);
    match n
    case ThenFuture(s, t) =>
      if outs[s].Ok? {
        EvalIsReturned(outs, FutureAt(t, outs[s].v));
      }
    case _ =>
  }

  lemma {:induction false} EvalIsReturned(env: seq<Outcome>, b: FutureBody)
    ensures !EvalBody(env, b).Plain?
  {
    if b.FReturn? {
      ProgIsReturned(env, b.p);
    }
  }

  lemma {:induction false} ProgIsReturned(env: seq<Outcome>, p: Prog)
    ensures !Eval(env, p).Plain?
    decreases p
  {
    if p.Let? && InScope(env, p.node) {
      ProgIsReturned(env + [EvalNode(env, p.node)], p.rest);
    }
  }

  lemma OutsGrow(o: Oracle, env: seq<nat>, h: Held, r: real)
    requires |o.want| == |o.rank| && forall i :: 0 <= i < |env| ==> env[i] < |o.want|
    ensures Outs(With(o, h, r), env + [|o.want|]) == Outs(o, env) + [Join(h)]
  {
    OutsExtend(o, With(o, h, r), env);
  }

  /** The rest of the program, with the new future as its latest definition. */
  lemma RestOk(cs: Controllers, o: Oracle, env: seq<nat>, rest: Prog, ret: Ret, h: Held, r: real)
    requires EnvOk(o, env, ret.slot) && Flat(h) && r < o.rank[ret.slot]
    requires o.want[ret.slot] == RetResult(ret, Eval(Outs(o, env) + [Join(h)], rest))
    ensures TaskOk(cs, With(o, h, r), Build(env + [|o.want|], rest, ret))
    ensures var outs := Outs(o, env) + [Join(h)];
            TaskCost(With(o, h, r), Build(env + [|o.want|], rest, ret))
            == ProgCost(outs, rest) + ReturnCost(ret.ToSlot?, Eval(outs, rest))
  {
    OutsGrow(o, env, h, r);
  }

  lemma LetUnfolds(env: seq<Outcome>, n: Node, rest: Prog)
    requires InScope(env, n)
    ensures Eval(env, Let(n, rest)) == Eval(env + [EvalNode(env, n)], rest)
    ensures ProgCost(env, Let(n, rest))
         == 1 + NodeCost(env, n) + ProgCost(env + [EvalNode(env, n)], rest)
  {
  }

  /** A new controller together with the pair that will settle it. */
  lemma NewRegisteredKeeps(s: State, o: Oracle, slot: nat, h: Held, r: real, c: nat, k: Cont)
    requires Inv(s, o, multiset{slot}) && k.next == |s.ctls| && c < |s.ctls|
    requires ContOk(With(o, h, r), c, k)
    ensures Inv(Register(Alloc(s), c, k), With(o, h, r), multiset{slot})
    ensures Extends(o, With(o, h, r))
    ensures Total(With(o, h, r), Register(Alloc(s), c, k), Steps)
         == Total(o, s, Steps) + 2 + ContCost(With(o, h, r), c, k)
  {
    Duties(slot, k.next);
    AllocKeeps(s, o, multiset{slot}, h, r);
    RegisterKeeps(Alloc(s), With(o, h, r), multiset{slot} + multiset{k.next}, c, k);
  }

  /** A new promise and the thread that will settle it. */
  lemma NewPromisedKeeps(s: State, o: Oracle, slot: nat, out: Outcome, r: real)
    requires Inv(s, o, multiset{slot})
    ensures Inv(Post(Alloc(s), Produce(|s.ctls|, out)), With(o, Hold(out), r), multiset{slot})
    ensures Extends(o, With(o, Hold(out), r))
    ensures Total(With(o, Hold(out), r), Post(Alloc(s), Produce(|s.ctls|, out)), Steps)
         == Total(o, s, Steps) + 3
  {
    Duties(slot, |s.ctls|);
    AllocKeeps(s, o, multiset{slot}, Hold(out), r);
    PostKeeps(Alloc(s), With(o, Hold(out), r), multiset{slot} + multiset{|s.ctls|}, Produce(|s.ctls|, out));
  }

  /** The building thread hands its duty to the task that continues it. */
  lemma ContinueKeeps(s: State, o: Oracle, slot: nat, t: Task)
    requires Inv(s, o, multiset{slot}) && TaskOk(s.ctls, o, t) && Owed(t) == multiset{slot}
    ensures Inv(Post(s, t), o, multiset{})
    ensures Total(o, Post(s, t), Steps) == Total(o, s, Steps) + TaskCost(o, t)
  {
    Duties(slot, slot);
    PostKeeps(s, o, multiset{slot}, t);
  }

  /** The building thread goes on with the rest of its program, once it has made the new future. */
  lemma RestKeeps(s: State, o: Oracle, env: seq<nat>, rest: Prog, ret: Ret, h: Held, r: real)
    requires EnvOk(o, env, ret.slot) && Flat(h) && r < o.rank[ret.slot]
    requires o.want[ret.slot] == RetResult(ret, Eval(Outs(o, env) + [Join(h)], rest))
    requires Inv(s, With(o, h, r), multiset{ret.slot})
    ensures var t := Build(env + [|o.want|], rest, ret);
            var outs := Outs(o, env) + [Join(h)];
            && Inv(Post(s, t), With(o, h, r), multiset{})
            && Total(With(o, h, r), Post(s, t), Steps)
               == Total(With(o, h, r), s, Steps) + ProgCost(outs, rest) + ReturnCost(ret.ToSlot?, Eval(outs, rest))
  {
    RestOk(s.ctls, o, env, rest, ret, h, r);
    ContinueKeeps(s, With(o, h, r), ret.slot, Build(env + [|o.want|], rest, ret));
  }

  lemma PromisedKeeps(s: State, o: Oracle, env: seq<nat>, n: Node, rest: Prog, ret: Ret) returns (o': Oracle)
    requires Inv(s, o, multiset{ret.slot}) && TaskOk(s.ctls, o, Build(env, Let(n, rest), ret))
    requires n.Promised?
    ensures Inv(Define(s, env, n, rest, ret), o', multiset{})
    ensures Extends(o, o')
    ensures Total(o', Define(s, env, n, rest, ret), Steps) + 1
         == Total(o, s, Steps) + TaskCost(o, Build(env, Let(n, rest), ret))
  {
    var next := |s.ctls|;
    var r := RankBetween(o.rank, env, o.rank[ret.slot]);
    o' := With(o, Hold(n.o), r);
    LetUnfolds(Outs(o, env), n, rest);
    JoinOfHold(n.o);
    NewPromisedKeeps(s, o, ret.slot, n.o, r);
    RestKeeps(Post(Alloc(s), Produce(next, n.o)), o, env, rest, ret, Hold(n.o), r);
  }

  /** A pair whose target is new agrees with the oracle once the oracle knows the target. */
  lemma FreshPairOk(o: Oracle, c: nat, k: Cont, h: Held, r: real)
    requires |o.want| == |o.rank| == k.next && c < |o.want| && o.rank[c] < r
    requires if k.KFlatten? then !o.want[c].Plain? else Flat(o.want[c])
    requires forall i :: 0 <= i < |Env(k)| ==>
               Env(k)[i] < |o.want| && Flat(o.want[Env(k)[i]]) && o.rank[Env(k)[i]] < r
    requires h == Result(k, o.want[c], Outs(o, Env(k)))
    ensures ContOk(With(o, h, r), c, k)
    ensures ContCost(With(o, h, r), c, k) == CallCost(k, o.want[c], Outs(o, Env(k)))
  {
    OutsExtend(o, With(o, h, r), Env(k));
  }

  /** Only pairs with a nested callback depend on what was captured. */
  lemma PairNeedsItsEnv(o: Oracle, env: seq<nat>, n: Node, next: nat, w: Held)
    requires !n.Promised?
    ensures var k := PairOf(env, n, next);
            && (Env(k) == env || Env(k) == [])
            && Result(k, w, Outs(o, env)) == Result(k, w, Outs(o, Env(k)))
            && CallCost(k, w, Outs(o, env)) == CallCost(k, w, Outs(o, Env(k)))
  {
  }

  lemma NewPairOk(o: Oracle, env: seq<nat>, n: Node, t: nat, h: Held, r: real)
    requires EnvOk(o, env, t) && !n.Promised? && n.src < |env|
    requires forall i :: 0 <= i < |env| ==> o.rank[env[i]] < r
    requires h == Result(PairOf(env, n, |o.want|), o.want[env[n.src]], Outs(o, env))
    ensures ContOk(With(o, h, r), env[n.src], PairOf(env, n, |o.want|))
    ensures ContCost(With(o, h, r), env[n.src], PairOf(env, n, |o.want|))
         == CallCost(PairOf(env, n, |o.want|), o.want[env[n.src]], Outs(o, env))
  {
    PairNeedsItsEnv(o, env, n, |o.want|, o.want[env[n.src]]);
    FreshPairOk(o, env[n.src], PairOf(env, n, |o.want|), h, r);
  }

  lemma NewFlatOk(cs: Controllers, o: Oracle, env: seq<nat>, rest: Prog, ret: Ret, h: Held, r: real)
    requires EnvOk(o, env, ret.slot) && !h.Plain? && r < o.rank[ret.slot]
    requires forall i :: 0 <= i < |env| ==> o.rank[env[i]] < r
    requires o.want[ret.slot] == RetResult(ret, Eval(Outs(o, env) + [Join(h)], rest))
    ensures TaskOk(cs, With(o, h, r), BuildFlat(env, |o.want|, rest, ret))
    ensures var outs := Outs(o, env) + [Join(h)];
            TaskCost(With(o, h, r), BuildFlat(env, |o.want|, rest, ret))
            == 3 + FlattenCost(h) + ProgCost(outs, rest) + ReturnCost(ret.ToSlot?, Eval(outs, rest))
  {
    OutsExtend(o, With(o, h, r), env);
  }

  lemma DefineKeeps(s: State, o: Oracle, env: seq<nat>, n: Node, rest: Prog, ret: Ret) returns (o': Oracle)
    requires Inv(s, o, multiset{ret.slot}) && TaskOk(s.ctls, o, Build(env, Let(n, rest), ret))
    requires !n.Promised? && n.src < |env|
    ensures Inv(Define(s, env, n, rest, ret), o', multiset{})
    ensures Extends(o, o')
    ensures Total(o', Define(s, env, n, rest, ret), Steps) + 1
         == Total(o, s, Steps) + TaskCost(o, Build(env, Let(n, rest), ret))
  {
    var next := |s.ctls|;
    var k := PairOf(env, n, next);
    var h := Result(k, o.want[env[n.src]], Outs(o, env));
    var r := RankBetween(o.rank, env, o.rank[ret.slot]);
    o' := With(o, h, r);
    PairMeaning(o, env, n, next);
    LetUnfolds(Outs(o, env), n, rest);
    NewPairOk(o, env, n, ret.slot, h, r);
    NewRegisteredKeeps(s, o, ret.slot, h, r, env[n.src], k);
    var s2 := Register(Alloc(s), env[n.src], k);
    if n.ThenFuture? {
      NewFlatOk(s2.ctls, o, env, rest, ret, h, r);
      ContinueKeeps(s2, o', ret.slot, BuildFlat(env, next, rest, ret));
    } else {
      RestKeeps(s2, o, env, rest, ret, h, r);
    }
  }

  lemma JoinOfHold(x: Outcome)
    ensures Join(Hold(x)) == x && Flat(Hold(x))
  {
  }

  /** The second half of a `then` that returns a future: flattening into a new controller. */
  lemma FlattenKeeps(s: State, o: Oracle, slot: nat, mid: nat, h: Held, r: real)
    requires Inv(s, o, multiset{slot}) && mid < |o.want| && !o.want[mid].Plain? && o.rank[mid] < r
    requires h == Hold(Join(o.want[mid]))
    ensures mid < |s.ctls| == |o.want|
    ensures var s' := Register(Alloc(s), mid, KFlatten(|s.ctls|));
            && Inv(s', With(o, h, r), multiset{slot}) && Extends(o, With(o, h, r))
            && Total(With(o, h, r), s', Steps) == Total(o, s, Steps) + 2 + FlattenCost(o.want[mid])
  {
    FreshPairOk(o, mid, KFlatten(|s.ctls|), h, r);
    NewRegisteredKeeps(s, o, slot, h, r, mid, KFlatten(|s.ctls|));
  }

  lemma BuildFlatKeeps(s: State, o: Oracle, env: seq<nat>, mid: nat, rest: Prog, ret: Ret) returns (o': Oracle)
    requires Inv(s, o, multiset{ret.slot}) && TaskOk(s.ctls, o, BuildFlat(env, mid, rest, ret))
    ensures Inv(RunBuildFlat(s, env, mid, rest, ret), o', multiset{})
    ensures Extends(o, o')
    ensures Total(o', RunBuildFlat(s, env, mid, rest, ret), Steps) + 1
         == Total(o, s, Steps) + TaskCost(o, BuildFlat(env, mid, rest, ret))
  {
    var h, r := Hold(Join(o.want[mid])), (o.rank[mid] + o.rank[ret.slot]) / 2.0;
    o' := With(o, h, r);
    JoinOfHold(Join(o.want[mid]));
    FlattenKeeps(s, o, ret.slot, mid, h, r);
    RestKeeps(Register(Alloc(s), mid, KFlatten(|s.ctls|)), o, env, rest, ret, h, r);
  }

  lemma BuildKeeps(s: State, o: Oracle, env: seq<nat>, p: Prog, ret: Ret) returns (o': Oracle)
    requires Inv(s, o, multiset{ret.slot}) && TaskOk(s.ctls, o, Build(env, p, ret))
    ensures Runnable(s, Build(env, p, ret))
    ensures Inv(RunBuild(s, env, p, ret), o', multiset{})
    ensures Extends(o, o')
    ensures Total(o', RunBuild(s, env, p, ret), Steps) + 1
         == Total(o, s, Steps) + TaskCost(o, Build(env, p, ret))
  {
    o' := o;
    Duties(ret.slot, ret.slot);
    match p
    case Done(r) =>
      var x := if r < |env| then Handle(env[r]) else NoHandle;
      DeliverKeeps(s, o, multiset{ret.slot}, ret, x, Eval(Outs(o, env), p));
    case Let(n, rest) =>
      if n.Promised? {
        o' := PromisedKeeps(s, o, env, n, rest, ret);
      } else if n.src < |env| {
        o' := DefineKeeps(s, o, env, n, rest, ret);
      } else {
        SetExcKeeps(s, o, multiset{ret.slot}, ret.slot, FutureInvalid);
      }
  }

  /** Whichever task the scheduler picks, it can run, and the invariant survives it. */
  lemma StepKeeps(s: State, o: Oracle, i: nat) returns (o': Oracle)
    requires Inv(s, o, multiset{}) && i < |s.tasks|
    ensures Runnable(Take(s, i), s.tasks[i])
    ensures Inv(Run(Take(s, i), s.tasks[i]), o', multiset{})
    ensures Extends(o, o')
    ensures Total(o', Run(Take(s, i), s.tasks[i]), Steps) + 1 == Total(o, s, Steps)
  {
    var t := s.tasks[i];
    o' := o;
    if t.DrainS? || t.DrainF? {
      DrainKeeps(s, o, i);
    } else {
      TakeKeeps(s, o, i);
      assert TaskOk(s.ctls, o, t);
      match t
      case Build(env, p, ret) => o' := BuildKeeps(Take(s, i), o, env, p, ret);
      case BuildFlat(env, mid, rest, ret) => o' := BuildFlatKeeps(Take(s, i), o, env, mid, rest, ret);
      case CallS(_, _) => CallKeeps(Take(s, i), o, t);
      case CallF(_, _) => CallKeeps(Take(s, i), o, t);
      case Produce(_, _) => CallKeeps(Take(s, i), o, t);
    }
  }

  /** A callback, or the owner of a promise, settles the controller it owes an outcome. */
  lemma CallKeeps(s: State, o: Oracle, t: Task)
    requires Inv(s, o, Owed(t)) && TaskOk(s.ctls, o, t) && (t.CallS? || t.CallF? || t.Produce?)
    ensures Runnable(s, t) && Inv(Run(s, t), o, multiset{})
    ensures Total(o, Run(s, t), Steps) + 1 == Total(o, s, Steps) + TaskCost(o, t)
  {
    match t
    case CallS(c, k) => Duties(k.next, k.next); SuccessKeeps(s, o, multiset{k.next}, c, k);
    case CallF(c, k) => Duties(k.next, k.next); FailKeeps(s, o, multiset{k.next}, c, k);
    case Produce(c, out) => Duties(c, c); SettleOutcomeKeeps(s, o, multiset{c}, c, out);
  }
}
