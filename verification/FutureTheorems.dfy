/**
 Schedule independence: every run of a future graph ends, after the same number of steps, in the
 outcome of the sequential evaluator.
 */
module FutureTheorems {
  import opened Prelude
  import opened FutureSemantics
  import opened FutureMachine
  import opened FutureInvariant
  import opened FutureTasks

  /** How many steps program p takes, whatever the schedule. */
  ghost function RunLength(p: Prog): nat {
    ProgCost([], p) + 2
  }

  lemma InitInv(p: Prog) returns (o: Oracle)
    ensures Inv(Init(p), o, multiset{}) && |o.want| == 1 && o.want[0] == Eval([], p)
    ensures Total(o, Init(p), Steps) == RunLength(p)
  {
    o := Oracle([Eval([], p)], [0.0]);
    var s, t := Init(p), Build([], p, ToSlot(0));
    assert Outs(o, []) == [];
    forall g
      ensures Total(o, s, g) == TaskLoad(o, t, g)
    {
      TaskSumOne(o, [], t, g);
      assert [] + [t] == s.tasks;
      assert s.ctls[..0] == [];
      assert CtlSum(o, s.ctls, g) == CtlSum(o, s.ctls[..0], g) + ContSum(o, 0, Live(Fresh()), g);
    }
    forall c: nat
      ensures Balanced(s, o, multiset{}, c)
    {
      assert Total(o, s, Duty(c)) == TaskLoad(o, t, Duty(c));
    }
  }

  lemma {:induction false} RunInv(p: Prog, tr: seq<State>, i: nat) returns (o: Oracle)
    requires IsRun(p, tr) && i < |tr|
    ensures Inv(tr[i], o, multiset{}) && |o.want| > 0 && o.want[0] == Eval([], p)
    ensures Total(o, tr[i], Steps) + i == RunLength(p)
  {
    if i == 0 {
      o := InitInv(p);
    } else {
      var o1 := RunInv(p, tr, i - 1);
      assert Step(tr[i - 1], tr[i]);
      var j: nat :| j < |tr[i - 1].tasks| && StepsWith(tr[i - 1], j, tr[i]);
      o := StepKeeps(tr[i - 1], o1, j);
    }
  }

  // ----- nothing is left behind -----

  lemma {:induction false} DutyIsLive(o: Oracle, cs: Controllers, n: nat) returns (c: nat, i: nat)
    requires CtlSum(o, cs, Duty(n)) > 0
    ensures c < |cs| && i < |Live(cs[c])| && Live(cs[c])[i].next == n
  {
    var m := |cs| - 1;
    if ContSum(o, m, Live(cs[m]), Duty(n)) > 0 {
      c := m;
      i := DutyInQueue(o, m, Live(cs[m]), n);
    } else {
      c, i := DutyIsLive(o, cs[..m], n);
    }
  }

  lemma {:induction false} DutyInQueue(o: Oracle, c: nat, ks: seq<Cont>, n: nat) returns (i: nat)
    requires ContSum(o, c, ks, Duty(n)) > 0
    ensures i < |ks| && ks[i].next == n
  {
    i := |ks| - 1;
    if ks[i].next != n {
      i := DutyInQueue(o, c, ks[..i], n);
    }
  }

  /** Among the unsettled controllers below m there is one that depends on no other. */
  lemma {:induction false} LowestUnsettled(cs: Controllers, rank: seq<real>, m: nat) returns (c: Option<nat>)
    requires m <= |cs| == |rank|
    ensures c.None? ==> forall d :: 0 <= d < m ==> cs[d].Settled()
    ensures c.Some? ==> c.value < m && !cs[c.value].Settled()
    ensures c.Some? ==> forall d :: 0 <= d < m && rank[d] < rank[c.value] ==> cs[d].Settled()
  {
    if m == 0 {
      c := None;
    } else {
      c := LowestUnsettled(cs, rank, m - 1);
      if !cs[m - 1].Settled() && (c.None? || rank[m - 1] < rank[c.value]) {
        c := Some(m - 1);
      }
    }
  }

  lemma LiveNeedsDrain(s: State, c: nat)
    requires c < |s.ctls| && DrainDue(s, c) && s.ctls[c].Settled() && Live(s.ctls[c]) != []
    ensures s.tasks != []
  {
    assert DrainS(c) in s.tasks || DrainF(c) in s.tasks;
  }

  /** With no task left, every controller is settled and every queue is empty. */
  lemma AtRest(s: State, o: Oracle)
    requires Inv(s, o, multiset{}) && s.tasks == []
    ensures forall c :: 0 <= c < |s.ctls| ==> s.ctls[c].Settled()
    ensures forall c :: 0 <= c < |s.ctls| ==> s.ctls[c].onSuccess == [] && s.ctls[c].onFail == []
  {
    var low := LowestUnsettled(s.ctls, o.rank, |s.ctls|);
    if low.Some? {
      var n := low.value;
      assert Balanced(s, o, multiset{}, n);
      var c, i := DutyIsLive(o, s.ctls, n);
      assert CtlOk(s.ctls[c], o, c);
      assert ContOk(o, c, Live(s.ctls[c])[i]);
      LiveNeedsDrain(s, c);
      assert false;
    }
    forall c | 0 <= c < |s.ctls|
      ensures s.ctls[c].onSuccess == [] && s.ctls[c].onFail == []
    {
      assert DrainDue(s, c);
    }
  }

  lemma ObservedIsWanted(s: State, o: Oracle)
    requires Inv(s, o, multiset{}) && |o.want| > 0
    ensures Observed(s).Some? ==> Observed(s).value == o.want[0]
    ensures (forall c :: 0 <= c < |s.ctls| ==> s.ctls[c].Settled()) ==> Observed(s).Some?
  {
    assert CtlOk(s.ctls[0], o, 0);
    if s.ctls[0].val.Some? && s.ctls[0].val.value.Handle? {
      var r := s.ctls[0].val.value.c;
      assert CtlOk(s.ctls[r], o, r);
    }
  }

  // ----- the theorems -----

  ghost predicate Exhausted(s: State) {
    forall c :: 0 <= c < |s.ctls| ==>
      s.ctls[c].Settled() && s.ctls[c].onSuccess == [] && s.ctls[c].onFail == []
  }

  /** At every moment of every run, what the client can observe is what the evaluator says. */
  lemma NeverWrong(p: Prog, tr: seq<State>, i: nat)
    requires IsRun(p, tr) && i < |tr|
    ensures Observed(tr[i]).Some? ==> Observed(tr[i]).value == Eval([], p)
    ensures forall c :: 0 <= c < |tr[i].ctls| ==> !(tr[i].ctls[c].val.Some? && tr[i].ctls[c].exc.Some?)
  {
    var o := RunInv(p, tr, i);
    ObservedIsWanted(tr[i], o);
    forall c | 0 <= c < |tr[i].ctls|
      ensures !(tr[i].ctls[c].val.Some? && tr[i].ctls[c].exc.Some?)
    {
      assert CtlOk(tr[i].ctls[c], o, c);
    }
  }

  /**
   Whatever task is picked next, everything it relies on is there; the controller it owes an
   outcome to holds neither a value nor an exception yet; and what any other holds it leaves alone.
   */
  lemma NeverStuck(p: Prog, tr: seq<State>, i: nat, j: nat)
    requires IsRun(p, tr) && i < |tr| && j < |tr[i].tasks|
    ensures Runnable(Take(tr[i], j), tr[i].tasks[j])
    ensures forall c :: c in Owed(tr[i].tasks[j]) ==> c < |tr[i].ctls| && !tr[i].ctls[c].Settled()
    ensures forall c: nat :: c < |tr[i].ctls| && c !in Owed(tr[i].tasks[j]) ==>
              LeftAlone(tr[i].ctls, Run(Take(tr[i], j), tr[i].tasks[j]).ctls, c)
  {
    var s, t := tr[i], tr[i].tasks[j];
    var o := RunInv(p, tr, i);
    var _ := StepKeeps(s, o, j);
    if !t.DrainS? && !t.DrainF? {
      TakeKeeps(s, o, j);
      forall c | c in Owed(t)
        ensures c < |s.ctls| && !s.ctls[c].Settled()
      {
        assert Balanced(Take(s, j), o, Owed(t), c);
      }
    }
    forall c: nat | c < |s.ctls| && c !in Owed(t)
      ensures LeftAlone(s.ctls, Run(Take(s, j), t).ctls, c)
    {
      SettlesOnlyWhatItOwes(Take(s, j), t, c);
    }
  }

  ghost predicate LeftAlone(cs: Controllers, cs': Controllers, c: nat) {
    c < |cs| <= |cs'| && cs'[c].val == cs[c].val && cs'[c].exc == cs[c].exc
  }

  lemma SettlesOnlyWhatItOwes(s: State, t: Task, c: nat)
    requires Runnable(s, t) && c < |s.ctls| && c !in Owed(t)
    ensures LeftAlone(s.ctls, Run(s, t).ctls, c)
  {
    match t
    case CallS(_, k) => SuccessSettlesNext(s, t.c, k, c);
    case CallF(_, k) => FailSettlesNext(s, t.c, k, c);
    case _ =>
  }

  lemma SuccessSettlesNext(s: State, from: nat, k: Cont, c: nat)
    requires Runnable(s, CallS(from, k)) && c < |s.ctls| && c != k.next
    ensures LeftAlone(s.ctls, Run(s, CallS(from, k)).ctls, c)
  {
  }

  lemma FailSettlesNext(s: State, from: nat, k: Cont, c: nat)
    requires Runnable(s, CallF(from, k)) && c < |s.ctls| && c != k.next
    ensures LeftAlone(s.ctls, Run(s, CallF(from, k)).ctls, c)
  {
  }

  /**
   For every program and every schedule: the run ends, after a number of steps that depends on the
   program alone; it has then settled every controller and emptied every queue; and the client
   holds exactly what the sequential evaluator computes. A run that has not got that far can go on.
   */
  lemma ScheduleIndependence(p: Prog, tr: seq<State>)
    requires IsRun(p, tr)
    ensures |tr| <= RunLength(p) + 1
    ensures tr[|tr| - 1].tasks == [] <==> |tr| == RunLength(p) + 1
    ensures |tr| == RunLength(p) + 1 ==> Observed(tr[|tr| - 1]) == Some(Eval([], p))
    ensures |tr| == RunLength(p) + 1 ==> Exhausted(tr[|tr| - 1])
  {
    var s := tr[|tr| - 1];
    var o := RunInv(p, tr, |tr| - 1);
    if s.tasks != [] {
      var _ := StepKeeps(s, o, 0);
    } else {
      AtRest(s, o);
      NothingLeft(o, s);
      ObservedIsWanted(s, o);
    }
  }

  lemma {:induction false} EmptyQueuesCostNothing(o: Oracle, cs: Controllers)
    requires forall c :: 0 <= c < |cs| ==> cs[c].onSuccess == [] && cs[c].onFail == []
    ensures CtlSum(o, cs, Steps) == 0
  {
    if cs != [] {
      EmptyQueuesCostNothing(o, cs[..|cs| - 1]);
    }
  }

  lemma NothingLeft(o: Oracle, s: State)
    requires s.tasks == []
    requires forall c :: 0 <= c < |s.ctls| ==> s.ctls[c].onSuccess == [] && s.ctls[c].onFail == []
    ensures Total(o, s, Steps) == 0
  {
    EmptyQueuesCostNothing(o, s.ctls);
  }
}
