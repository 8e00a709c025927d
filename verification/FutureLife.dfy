/**
 One controller together with the pool tasks that concern it, under every interleaving of
 registrations, the one settlement, drains and calls: each registered pair has exactly one side run.
 */
module FutureLife {
  import opened Prelude
  import opened FutureController

  /** The two callbacks of a registered pair; pairs are numbered in order of registration. */
  datatype Callback = ForValue(pair: nat) | ForException(pair: nat)

  type Tasks = multiset<PoolTask<Callback>>

  /**
   `tasks` are in the pool; `ran` are the calls that have been executed. The posted and dropped
   fields are history: callbacks a drain has posted calls of, and those a drain has thrown away.
   */
  datatype Life<V, E> = Life(
    ctl: Ctl<V, E, Callback>, pairs: nat, tasks: Tasks, ran: Tasks,
    postedS: seq<Callback>, droppedS: seq<Callback>, postedF: seq<Callback>, droppedF: seq<Callback>)

  datatype Event<V, E> =
    | Register
    | Fulfil(v: V)
    | Reject(e: E)
    | RunTask(t: PoolTask<Callback>)

  function NewLife<V, E>(): Life<V, E> {
    Life(Ctl(None, None, [], []), 0, multiset{}, multiset{}, [], [], [], [])
  }

  /** A promise settles its controller once; every other event may happen whenever it is due. */
  ghost predicate Enabled<V, E>(s: Life<V, E>, ev: Event<V, E>) {
    match ev
    case Register => true
    case Fulfil(_) => !s.ctl.Settled()
    case Reject(_) => !s.ctl.Settled()
    case RunTask(t) => t in s.tasks
  }

  const DRAINS: Tasks := multiset{DrainSuccess, DrainFail}

  ghost function DrainedS<V, E>(s: Life<V, E>): Life<V, E> {
    var out := s.ctl.SuccessPosted();
    s.(ctl := s.ctl.SuccessDrained(), tasks := s.tasks + multiset(Calls(true, out)), postedS := s.postedS + out,
       droppedS := s.droppedS + (if s.ctl.val.None? && s.ctl.exc.Some? then s.ctl.onSuccess else []))
  }

  ghost function DrainedF<V, E>(s: Life<V, E>): Life<V, E> {
    var out := s.ctl.FailPosted();
    s.(ctl := s.ctl.FailDrained(), tasks := s.tasks + multiset(Calls(false, out)), postedF := s.postedF + out,
       droppedF := s.droppedF + (if s.ctl.exc.None? && s.ctl.val.Some? then s.ctl.onFail else []))
  }

  ghost function Happen<V, E>(s: Life<V, E>, ev: Event<V, E>): Life<V, E>
    requires Enabled(s, ev)
  {
    match ev
    case Register =>
      s.(ctl := s.ctl.WithPair(ForValue(s.pairs), ForException(s.pairs)), pairs := s.pairs + 1,
         tasks := s.tasks + DRAINS)
    case Fulfil(v) => s.(ctl := s.ctl.WithValue(v), tasks := s.tasks + DRAINS)
    case Reject(e) => s.(ctl := s.ctl.WithException(e), tasks := s.tasks + DRAINS)
    case RunTask(t) =>
      var s1 := s.(tasks := s.tasks - multiset{t});
      match t
      case DrainSuccess => DrainedS(s1)
      case DrainFail => DrainedF(s1)
      case CallSuccess(_) => s1.(ran := s.ran + multiset{t})
      case CallFail(_) => s1.(ran := s.ran + multiset{t})
  }

  ghost predicate IsLife<V(!new), E(!new)>(tr: seq<Life<V, E>>) {
    && |tr| > 0 && tr[0] == NewLife()
    && forall i :: 0 <= i < |tr| - 1 ==> Follows(tr[i], tr[i + 1])
  }

  ghost predicate Follows<V(!new), E(!new)>(s: Life<V, E>, t: Life<V, E>) {
    exists ev :: Enabled(s, ev) && t == Happen(s, ev)
  }

  ghost function ValueSides(n: nat): (r: seq<Callback>)
    ensures |r| == n
  {
    seq(n, i requires 0 <= i < n => ForValue(i))
  }

  ghost function ExceptionSides(n: nat): (r: seq<Callback>)
    ensures |r| == n
  {
    seq(n, i requires 0 <= i < n => ForException(i))
  }

  /** How often task t is in the pool as a call or has been executed. */
  ghost function Made<V, E>(s: Life<V, E>, t: PoolTask<Callback>): nat {
    s.tasks[t] + s.ran[t]
  }

  ghost predicate CallsOk<V, E>(s: Life<V, E>) {
    && (forall k :: Made(s, CallSuccess(k)) == multiset(s.postedS)[k])
    && (forall k :: Made(s, CallFail(k)) == multiset(s.postedF)[k])
    && s.ran[DrainSuccess] == 0 && s.ran[DrainFail] == 0
  }

  /** The invariant: each queue and its history are, in order, exactly the registered callbacks of its side. */
  ghost predicate LifeInv<V, E>(s: Life<V, E>) {
    && !(s.ctl.val.Some? && s.ctl.exc.Some?)
    && s.postedS + s.droppedS + s.ctl.onSuccess == ValueSides(s.pairs)
    && s.postedF + s.droppedF + s.ctl.onFail == ExceptionSides(s.pairs)
    && (s.ctl.val.None? ==> s.postedS == [] && s.droppedF == [])
    && (s.ctl.exc.None? ==> s.postedF == [] && s.droppedS == [])
    && (s.ctl.Settled() && s.ctl.onSuccess != [] ==> DrainSuccess in s.tasks)
    && (s.ctl.Settled() && s.ctl.onFail != [] ==> DrainFail in s.tasks)
    && CallsOk(s)
  }

  lemma {:induction false} CallsCount(success: bool, ks: seq<Callback>, k: Callback)
    ensures multiset(Calls(success, ks))[CallSuccess(k)] == if success then multiset(ks)[k] else 0
    ensures multiset(Calls(success, ks))[CallFail(k)] == if success then 0 else multiset(ks)[k]
    ensures multiset(Calls(success, ks))[DrainSuccess] == 0 && multiset(Calls(success, ks))[DrainFail] == 0
  {
    if ks == [] {
      assert Calls(success, ks) == [];
    } else {
      var n := |ks| - 1;
      CallsCount(success, ks[..n], k);
      OneMoreCall(success, ks, n);
      assert ks[..n + 1] == ks && ks == ks[..n] + [ks[n]];
    }
  }

  lemma SidesGrow(n: nat)
    ensures ValueSides(n + 1) == ValueSides(n) + [ForValue(n)]
    ensures ExceptionSides(n + 1) == ExceptionSides(n) + [ForException(n)]
  {
  }

  lemma DrainMovesQueue(posted: seq<Callback>, dropped: seq<Callback>, queue: seq<Callback>)
    ensures dropped == [] ==> (posted + queue) + dropped + [] == posted + dropped + queue
    ensures posted == [] ==> (posted + []) + (dropped + queue) + [] == posted + dropped + queue
    ensures (posted + []) + (dropped + []) + queue == posted + dropped + queue
  {
  }

  lemma SuccessDrainKeepsInv<V, E>(s: Life<V, E>)
    requires LifeInv(s) && DrainSuccess in s.tasks
    ensures LifeInv(Happen(s, RunTask(DrainSuccess)))
  {
    var t, out := Happen(s, RunTask(DrainSuccess)), s.ctl.SuccessPosted();
    DrainMovesQueue(s.postedS, s.droppedS, s.ctl.onSuccess);
    DrainedCalls(s, t, true, out);
  }

  /** A drain adds the calls of what it takes out of its queue. */
  lemma DrainedCalls<V, E>(s: Life<V, E>, t: Life<V, E>, success: bool, out: seq<Callback>)
    requires CallsOk(s) && t.ran == s.ran
    requires var drain: PoolTask<Callback> := if success then DrainSuccess else DrainFail;
             t.tasks == s.tasks - multiset{drain} + multiset(Calls(success, out))
    requires t.postedS == (if success then s.postedS + out else s.postedS)
    requires t.postedF == (if success then s.postedF else s.postedF + out)
    ensures CallsOk(t)
  {
    forall k
      ensures Made(t, CallSuccess(k)) == multiset(t.postedS)[k] && Made(t, CallFail(k)) == multiset(t.postedF)[k]
    {
      CallsCount(success, out, k);
      assert Made(s, CallSuccess(k)) == multiset(s.postedS)[k] && Made(s, CallFail(k)) == multiset(s.postedF)[k];
    }
  }

  lemma FailDrainKeepsInv<V, E>(s: Life<V, E>)
    requires LifeInv(s) && DrainFail in s.tasks
    ensures LifeInv(Happen(s, RunTask(DrainFail)))
  {
    var t, out := Happen(s, RunTask(DrainFail)), s.ctl.FailPosted();
    DrainMovesQueue(s.postedF, s.droppedF, s.ctl.onFail);
    DrainedCalls(s, t, false, out);
    CallsCount(false, out, ForValue(0));
  }

  /** Posting two drains, or executing a call, leaves the calls made as they were. */
  lemma SameCalls<V, E>(s: Life<V, E>, t: Life<V, E>)
    requires CallsOk(s) && t.postedS == s.postedS && t.postedF == s.postedF
    requires (t.tasks == s.tasks + DRAINS && t.ran == s.ran)
          || exists c: PoolTask<Callback> :: (c.CallSuccess? || c.CallFail?) && c in s.tasks
                                             && t.tasks == s.tasks - multiset{c} && t.ran == s.ran + multiset{c}
    ensures CallsOk(t)
  {
    forall k
      ensures Made(t, CallSuccess(k)) == multiset(t.postedS)[k] && Made(t, CallFail(k)) == multiset(t.postedF)[k]
    {
      assert Made(s, CallSuccess(k)) == multiset(s.postedS)[k] && Made(s, CallFail(k)) == multiset(s.postedF)[k];
    }
  }

  lemma RegisterKeepsInv<V, E>(s: Life<V, E>)
    requires LifeInv(s)
    ensures LifeInv(Happen(s, Register))
  {
    SidesGrow(s.pairs);
    assert s.postedS + s.droppedS + (s.ctl.onSuccess + [ForValue(s.pairs)])
        == (s.postedS + s.droppedS + s.ctl.onSuccess) + [ForValue(s.pairs)];
    assert s.postedF + s.droppedF + (s.ctl.onFail + [ForException(s.pairs)])
        == (s.postedF + s.droppedF + s.ctl.onFail) + [ForException(s.pairs)];
    SameCalls(s, Happen(s, Register));
  }

  lemma HappenKeepsInv<V, E>(s: Life<V, E>, ev: Event<V, E>)
    requires LifeInv(s) && Enabled(s, ev)
    ensures LifeInv(Happen(s, ev))
  {
    match ev
    case Register => RegisterKeepsInv(s);
    case Fulfil(_) => SettleKeepsInv(s, ev);
    case Reject(_) => SettleKeepsInv(s, ev);
    case RunTask(t) =>
      match t
      case DrainSuccess => SuccessDrainKeepsInv(s);
      case DrainFail => FailDrainKeepsInv(s);
      case CallSuccess(_) => CallKeepsInv(s, t);
      case CallFail(_) => CallKeepsInv(s, t);
  }

  lemma SettleKeepsInv<V, E>(s: Life<V, E>, ev: Event<V, E>)
    requires LifeInv(s) && Enabled(s, ev) && (ev.Fulfil? || ev.Reject?)
    ensures LifeInv(Happen(s, ev))
  {
    SameCalls(s, Happen(s, ev));
  }

  lemma CallKeepsInv<V, E>(s: Life<V, E>, t: PoolTask<Callback>)
    requires LifeInv(s) && t in s.tasks && (t.CallSuccess? || t.CallFail?)
    ensures LifeInv(Happen(s, RunTask(t)))
  {
    SameCalls(s, Happen(s, RunTask(t)));
  }

  lemma {:induction false} LifeAlways<V(!new), E(!new)>(tr: seq<Life<V, E>>, i: nat)
    requires IsLife(tr) && i < |tr|
    ensures LifeInv(tr[i])
  {
    if i > 0 {
      LifeAlways(tr, i - 1);
      assert Follows(tr[i - 1], tr[i]);
      var ev :| Enabled(tr[i - 1], ev) && tr[i] == Happen(tr[i - 1], ev);
      HappenKeepsInv(tr[i - 1], ev);
    }
  }

  lemma {:induction false} SidesCount(n: nat, k: Callback)
    ensures multiset(ValueSides(n))[k] == if k.ForValue? && k.pair < n then 1 else 0
    ensures multiset(ExceptionSides(n))[k] == if k.ForException? && k.pair < n then 1 else 0
  {
    if n == 0 {
      assert ValueSides(0) == [] && ExceptionSides(0) == [];
    } else {
      SidesCount(n - 1, k);
      SidesGrow(n - 1);
    }
  }

  lemma PrefixCount(a: seq<Callback>, b: seq<Callback>, c: seq<Callback>, k: Callback)
    ensures multiset(a)[k] <= multiset(a + b + c)[k]
  {
    assert multiset(a + b + c) == multiset(a) + multiset(b) + multiset(c);
  }

  /**
   The calls executed are calls of a success callback with the value, once there is one, or of a
   failure callback with the exception, once there is one; and none is executed twice.
   */
  lemma NeverTwiceNeverWrongSide<V(!new), E(!new)>(tr: seq<Life<V, E>>, i: nat, t: PoolTask<Callback>)
    requires IsLife(tr) && i < |tr|
    ensures tr[i].ran[t] <= 1
    ensures t in tr[i].ran ==>
              || (t.CallSuccess? && t.k.ForValue? && t.k.pair < tr[i].pairs && tr[i].ctl.val.Some?)
              || (t.CallFail? && t.k.ForException? && t.k.pair < tr[i].pairs && tr[i].ctl.exc.Some?)
    ensures !(tr[i].ctl.val.Some? && tr[i].ctl.exc.Some?)
  {
    LifeAlways(tr, i);
    var s := tr[i];
    if t.CallSuccess? || t.CallFail? {
      assert Made(s, CallSuccess(t.k)) == multiset(s.postedS)[t.k];
      assert Made(s, CallFail(t.k)) == multiset(s.postedF)[t.k];
      PrefixCount(s.postedS, s.droppedS, s.ctl.onSuccess, t.k);
      PrefixCount(s.postedF, s.droppedF, s.ctl.onFail, t.k);
      SidesCount(s.pairs, t.k);
    }
  }

  /**
   Once a settled controller's tasks have all run, both queues are empty; of every pair the side
   that matches the outcome has been called exactly once and the other side has been discarded.
   */
  lemma ExactlyOnceWhenDrained<V(!new), E(!new)>(tr: seq<Life<V, E>>, i: nat, p: nat)
    requires IsLife(tr) && i < |tr| && tr[i].ctl.Settled() && tr[i].tasks == multiset{} && p < tr[i].pairs
    ensures tr[i].ctl.onSuccess == [] && tr[i].ctl.onFail == []
    ensures tr[i].ran[CallSuccess(ForValue(p))] == if tr[i].ctl.val.Some? then 1 else 0
    ensures tr[i].ran[CallFail(ForException(p))] == if tr[i].ctl.exc.Some? then 1 else 0
    ensures tr[i].ctl.val.Some? ==> ForException(p) in tr[i].droppedF
    ensures tr[i].ctl.exc.Some? ==> ForValue(p) in tr[i].droppedS
  {
    LifeAlways(tr, i);
    ValueSideAtRest(tr[i], p);
    ExceptionSideAtRest(tr[i], p);
  }

  lemma ValueSideAtRest<V, E>(s: Life<V, E>, p: nat)
    requires LifeInv(s) && s.ctl.Settled() && s.tasks == multiset{} && p < s.pairs
    ensures s.ran[CallSuccess(ForValue(p))] == if s.ctl.val.Some? then 1 else 0
    ensures s.ctl.exc.Some? ==> ForValue(p) in s.droppedS
  {
    assert s.postedS + s.droppedS == s.postedS + s.droppedS + s.ctl.onSuccess;
    assert Made(s, CallSuccess(ForValue(p))) == multiset(s.postedS)[ForValue(p)];
    SidesCount(s.pairs, ForValue(p));
    if s.ctl.val.Some? {
      assert s.postedS == ValueSides(s.pairs);
    } else {
      assert s.droppedS == ValueSides(s.pairs) && s.droppedS[p] == ForValue(p);
    }
  }

  lemma ExceptionSideAtRest<V, E>(s: Life<V, E>, p: nat)
    requires LifeInv(s) && s.ctl.Settled() && s.tasks == multiset{} && p < s.pairs
    ensures s.ran[CallFail(ForException(p))] == if s.ctl.exc.Some? then 1 else 0
    ensures s.ctl.val.Some? ==> ForException(p) in s.droppedF
  {
    assert s.postedF + s.droppedF == s.postedF + s.droppedF + s.ctl.onFail;
    assert Made(s, CallFail(ForException(p))) == multiset(s.postedF)[ForException(p)];
    SidesCount(s.pairs, ForException(p));
    if s.ctl.exc.Some? {
      assert s.postedF == ExceptionSides(s.pairs);
    } else {
      assert s.droppedF == ExceptionSides(s.pairs) && s.droppedF[p] == ForException(p);
    }
  }
}
