/** The blocks and tasks of the future machine keep the invariant and use up exactly their steps. */
module FutureSteps {
  import opened FutureController
  import opened FutureSemantics
  import opened FutureMachine
  import opened FutureInvariant

  // ----- blocks -----

  lemma MoreTasksKeepDrains(s: State, s': State)
    requires DrainsDue(s) && s'.ctls == s.ctls && forall t :: t in s.tasks ==> t in s'.tasks
    ensures DrainsDue(s')
  {
    forall c | 0 <= c < |s'.ctls|
      ensures DrainDue(s', c)
    {
      assert DrainDue(s, c);
    }
  }

  lemma PostKeeps(s: State, o: Oracle, duty: multiset<nat>, t: Task)
    requires Inv(s, o, duty) && TaskOk(s.ctls, o, t) && Owed(t) <= duty
    ensures Inv(Post(s, t), o, duty - Owed(t))
    ensures Total(o, Post(s, t), Steps) == Total(o, s, Steps) + TaskCost(o, t)
  {
    var s' := Post(s, t);
    forall c: nat
      ensures Balanced(s', o, duty - Owed(t), c)
    {
      assert Balanced(s, o, duty, c);
      TaskSumOne(o, s.tasks, t, Duty(c));
    }
    TaskSumOne(o, s.tasks, t, Steps);
    MoreTasksKeepDrains(s, s');
  }

  /** q may take the place of controller c: it is at least as settled. */
  ghost predicate Refines(q: Ctl<Content, Exn, Cont>, old_: Ctl<Content, Exn, Cont>) {
    (old_.val.Some? ==> q.val.Some?) && (old_.exc.Some? ==> q.exc.Some?)
  }

  lemma ReplaceTasksOk(cs: Controllers, o: Oracle, ts: seq<Task>, c: nat, q: Ctl<Content, Exn, Cont>)
    requires TasksOk(cs, o, ts) && c < |cs| && Refines(q, cs[c])
    ensures TasksOk(cs[c := q], o, ts + [DrainS(c)] + [DrainF(c)])
  {
    forall t | t in ts + [DrainS(c)] + [DrainF(c)]
      ensures TaskOk(cs[c := q], o, t)
    {
      if t in ts {
        assert TaskOk(cs, o, t);
      }
    }
  }

  lemma ReplaceDrains(s: State, c: nat, q: Ctl<Content, Exn, Cont>)
    requires DrainsDue(s) && c < |s.ctls|
    ensures DrainsDue(PostDrains(s.(ctls := s.ctls[c := q]), c))
  {
    var s' := PostDrains(s.(ctls := s.ctls[c := q]), c);
    assert DrainS(c) == s'.tasks[|s.tasks|] && DrainF(c) == s'.tasks[|s.tasks| + 1];
    forall d | 0 <= d < |s'.ctls|
      ensures DrainDue(s', d)
    {
      assert DrainDue(s, d);
    }
  }

  lemma ReplaceTotal(s: State, o: Oracle, c: nat, q: Ctl<Content, Exn, Cont>, g: Gauge)
    requires c < |s.ctls|
    ensures Total(o, PostDrains(s.(ctls := s.ctls[c := q]), c), g) + ContSum(o, c, Live(s.ctls[c]), g)
         == Total(o, s, g) + ContSum(o, c, Live(q), g) + if g.Steps? then 2 else 0
  {
    TaskSumOne(o, s.tasks, DrainS(c), g);
    TaskSumOne(o, s.tasks + [DrainS(c)], DrainF(c), g);
    CtlSumUpdate(o, s.ctls, c, q, g);
  }

  /** Settling controller c, which the running thread owes. */
  lemma SettleKeeps(s: State, o: Oracle, duty: multiset<nat>, c: nat, q: Ctl<Content, Exn, Cont>)
    requires Inv(s, o, duty) && c < |s.ctls| && c in duty
    requires q.Settled() && CtlOk(q, o, c)
    requires q.onSuccess == s.ctls[c].onSuccess && q.onFail == s.ctls[c].onFail
    ensures Inv(PostDrains(s.(ctls := s.ctls[c := q]), c), o, duty - multiset{c})
    ensures Total(o, PostDrains(s.(ctls := s.ctls[c := q]), c), Steps) == Total(o, s, Steps) + 2
  {
    var s' := PostDrains(s.(ctls := s.ctls[c := q]), c);
    assert Balanced(s, o, duty, c);
    assert !s.ctls[c].Settled() && CtlOk(s.ctls[c], o, c);
    assert Live(q) == Live(s.ctls[c]);
    ReplaceTasksOk(s.ctls, o, s.tasks, c, q);
    ReplaceDrains(s, c, q);
    ReplaceTotal(s, o, c, q, Steps);
    forall n: nat
      ensures Balanced(s', o, duty - multiset{c}, n)
    {
      assert Balanced(s, o, duty, n);
      ReplaceTotal(s, o, c, q, Duty(n));
    }
  }

  lemma SetValKeeps(s: State, o: Oracle, duty: multiset<nat>, c: nat, x: Content)
    requires Inv(s, o, duty) && c < |s.ctls| && c in duty && Matches(o, c, x)
    ensures Inv(SetVal(s, c, x), o, duty - multiset{c})
    ensures Total(o, SetVal(s, c, x), Steps) == Total(o, s, Steps) + 2
  {
    assert Balanced(s, o, duty, c);
    assert CtlOk(s.ctls[c], o, c);
    SettleKeeps(s, o, duty, c, s.ctls[c].WithValue(x));
  }

  lemma SetExcKeeps(s: State, o: Oracle, duty: multiset<nat>, c: nat, e: Exn)
    requires Inv(s, o, duty) && c < |s.ctls| && c in duty && o.want[c] == Failed(e)
    ensures Inv(SetExc(s, c, e), o, duty - multiset{c})
    ensures Total(o, SetExc(s, c, e), Steps) == Total(o, s, Steps) + 2
  {
    assert Balanced(s, o, duty, c);
    assert CtlOk(s.ctls[c], o, c);
    SettleKeeps(s, o, duty, c, s.ctls[c].WithException(e));
  }

  lemma PairFits(q: Ctl<Content, Exn, Cont>, o: Oracle, c: nat, k: Cont)
    requires c < |o.want| == |o.rank| && CtlOk(q, o, c) && ContOk(o, c, k)
    ensures CtlOk(q.WithPair(k, k), o, c)
    ensures Live(q.WithPair(k, k)) == Live(q) + [k]
  {
  }

  lemma RegisterTotal(s: State, o: Oracle, c: nat, k: Cont, g: Gauge)
    requires c < |s.ctls| && Live(s.ctls[c].WithPair(k, k)) == Live(s.ctls[c]) + [k]
    ensures Total(o, Register(s, c, k), g)
         == Total(o, s, g) + ContLoad(o, c, k, g) + if g.Steps? then 2 else 0
  {
    ReplaceTotal(s, o, c, s.ctls[c].WithPair(k, k), g);
    ContSumOne(o, c, Live(s.ctls[c]), k, g);
  }

  lemma RegisterBalanced(s: State, o: Oracle, duty: multiset<nat>, c: nat, k: Cont)
    requires AllBalanced(s, o, duty) && c < |s.ctls| && k.next in duty
    requires Live(s.ctls[c].WithPair(k, k)) == Live(s.ctls[c]) + [k]
    ensures AllBalanced(Register(s, c, k), o, duty - multiset{k.next})
  {
    forall n: nat
      ensures Balanced(Register(s, c, k), o, duty - multiset{k.next}, n)
    {
      assert Balanced(s, o, duty, n);
      RegisterTotal(s, o, c, k, Duty(n));
    }
  }

  /** Registering a pair passes the duty towards its target on to the source. */
  lemma RegisterKeeps(s: State, o: Oracle, duty: multiset<nat>, c: nat, k: Cont)
    requires Inv(s, o, duty) && c < |s.ctls| && k.next in duty && ContOk(o, c, k)
    ensures Inv(Register(s, c, k), o, duty - multiset{k.next})
    ensures Total(o, Register(s, c, k), Steps) == Total(o, s, Steps) + 2 + ContCost(o, c, k)
  {
    var q := s.ctls[c].WithPair(k, k);
    PairFits(s.ctls[c], o, c, k);
    ReplaceTasksOk(s.ctls, o, s.tasks, c, q);
    ReplaceDrains(s, c, q);
    RegisterTotal(s, o, c, k, Steps);
    RegisterBalanced(s, o, duty, c, k);
  }

  // ----- a new controller -----

  ghost predicate Extends(o: Oracle, o': Oracle) {
    |o.want| == |o.rank| && |o'.want| == |o'.rank| && o.want <= o'.want && o.rank <= o'.rank
  }

  lemma OutsExtend(o: Oracle, o': Oracle, env: seq<nat>)
    requires Extends(o, o') && forall i :: 0 <= i < |env| ==> env[i] < |o.want|
    ensures Outs(o', env) == Outs(o, env)
  {
  }

  lemma ContExtend(o: Oracle, o': Oracle, c: nat, k: Cont)
    requires Extends(o, o') && ContOk(o, c, k)
    ensures ContOk(o', c, k) && ContCost(o', c, k) == ContCost(o, c, k)
  {
    OutsExtend(o, o', Env(k));
  }

  lemma TaskExtend(cs: Controllers, cs': Controllers, o: Oracle, o': Oracle, t: Task)
    requires Extends(o, o') && |cs| <= |o.want| && cs <= cs' && TaskOk(cs, o, t)
    ensures TaskOk(cs', o', t) && TaskCost(o', t) == TaskCost(o, t)
  {
    match t
    case CallS(c, k) => ContExtend(o, o', c, k);
    case CallF(c, k) => ContExtend(o, o', c, k);
    case Build(env, _, _) => OutsExtend(o, o', env);
    case BuildFlat(env, _, _, _) => OutsExtend(o, o', env);
    case _ =>
  }

  lemma {:induction false} TasksExtend(cs: Controllers, cs': Controllers, o: Oracle, o': Oracle, ts: seq<Task>)
    requires Extends(o, o') && |cs| <= |o.want| && cs <= cs' && TasksOk(cs, o, ts)
    ensures TasksOk(cs', o', ts)
    ensures forall g :: TaskSum(o', ts, g) == TaskSum(o, ts, g)
  {
    if ts != [] {
      var n := |ts| - 1;
      TasksExtend(cs, cs', o, o', ts[..n]);
      TaskExtend(cs, cs', o, o', ts[n]);
      assert ts == ts[..n] + [ts[n]];
    }
  }

  lemma {:induction false} ContsExtend(o: Oracle, o': Oracle, c: nat, ks: seq<Cont>)
    requires Extends(o, o') && forall k :: k in ks ==> ContOk(o, c, k)
    ensures forall k :: k in ks ==> ContOk(o', c, k)
    ensures forall g :: ContSum(o', c, ks, g) == ContSum(o, c, ks, g)
  {
    if ks != [] {
      var n := |ks| - 1;
      ContsExtend(o, o', c, ks[..n]);
      ContExtend(o, o', c, ks[n]);
      assert ks == ks[..n] + [ks[n]];
    }
  }

  lemma CtlExtend(o: Oracle, o': Oracle, c: nat, q: Ctl<Content, Exn, Cont>)
    requires Extends(o, o') && c < |o.want| && CtlOk(q, o, c)
    ensures CtlOk(q, o', c)
    ensures forall g :: ContSum(o', c, Live(q), g) == ContSum(o, c, Live(q), g)
  {
    ContsExtend(o, o', c, q.onSuccess);
    ContsExtend(o, o', c, q.onFail);
  }

  lemma {:induction false} CtlSumExtend(o: Oracle, o': Oracle, cs: Controllers, g: Gauge)
    requires forall c :: 0 <= c < |cs| ==> ContSum(o', c, Live(cs[c]), g) == ContSum(o, c, Live(cs[c]), g)
    ensures CtlSum(o', cs, g) == CtlSum(o, cs, g)
  {
    if cs != [] {
      CtlSumExtend(o, o', cs[..|cs| - 1], g);
    }
  }

  lemma CtlsExtend(o: Oracle, o': Oracle, cs: Controllers)
    requires Extends(o, o') && CtlsOk(cs, o)
    ensures forall c :: 0 <= c < |cs| ==> CtlOk(cs[c], o', c)
    ensures forall g :: CtlSum(o', cs, g) == CtlSum(o, cs, g)
  {
    forall c | 0 <= c < |cs|
      ensures CtlOk(cs[c], o', c)
      ensures forall g :: ContSum(o', c, Live(cs[c]), g) == ContSum(o, c, Live(cs[c]), g)
    {
      CtlExtend(o, o', c, cs[c]);
    }
    forall g {
      CtlSumExtend(o, o', cs, g);
    }
  }

  ghost function With(o: Oracle, h: Held, r: real): Oracle {
    Oracle(o.want + [h], o.rank + [r])
  }

  lemma AllocTotal(s: State, o: Oracle, o': Oracle, g: Gauge)
    requires CtlsOk(s.ctls, o) && TasksOk(s.ctls, o, s.tasks) && Extends(o, o')
    ensures Total(o', Alloc(s), g) == Total(o, s, g)
  {
    TasksExtend(s.ctls, s.ctls, o, o', s.tasks);
    CtlsExtend(o, o', s.ctls);
    assert Alloc(s).ctls[..|s.ctls|] == s.ctls;
  }

  /** A new controller: the thread that made it owes its settlement. */
  lemma AllocKeeps(s: State, o: Oracle, duty: multiset<nat>, h: Held, r: real)
    requires Inv(s, o, duty)
    ensures Inv(Alloc(s), With(o, h, r), duty + multiset{|s.ctls|})
    ensures Extends(o, With(o, h, r))
    ensures Total(With(o, h, r), Alloc(s), Steps) == Total(o, s, Steps)
  {
    var s', o' := Alloc(s), With(o, h, r);
    TasksExtend(s.ctls, s'.ctls, o, o', s.tasks);
    CtlsExtend(o, o', s.ctls);
    AllocTotal(s, o, o', Steps);
    forall c: nat
      ensures Balanced(s', o', duty + multiset{|s.ctls|}, c)
    {
      assert Balanced(s, o, duty, c);
      AllocTotal(s, o, o', Duty(c));
    }
    forall c | 0 <= c < |s'.ctls|
      ensures DrainDue(s', c)
    {
      if c < |s.ctls| {
        assert DrainDue(s, c);
      }
    }
  }
}
