/** The order in which the reads of a memory buffer are served. */
module MemBufferOrder {
  import opened Prelude
  import opened PipeOps
  import opened MemBuffer
  import opened MemBufferRuns

  ghost predicate Increasing(rs: seq<nat>, bound: nat) {
    && (forall i, j :: 0 <= i < j < |rs| ==> rs[i] < rs[j])
    && (forall i :: 0 <= i < |rs| ==> rs[i] < bound)
  }

  /** The reads without a result, oldest first: those waiting, then those still on the strand. */
  ghost function Unserved<M>(s: Mem<M>): seq<nat> {
    s.core.waiting + s.queued
  }

  /** Reads are numbered as they are issued. */
  ghost predicate InIssueOrder<M>(s: Mem<M>) {
    Increasing(Unserved(s), s.next)
  }

  lemma {:induction false} MinusIsWithout(rs: seq<nat>, r: nat) returns (k: nat)
    requires r in rs
    ensures k < |rs| && rs[k] == r && Minus(rs, r) == Without(rs, k)
  {
    if rs[0] == r {
      k := 0;
    } else {
      k := MinusIsWithout(rs[1..], r);
      k := k + 1;
    }
  }

  lemma WithoutKeeps(rs: seq<nat>, k: nat, bound: nat)
    requires Increasing(rs, bound) && k < |rs|
    ensures Increasing(Without(rs, k), bound)
  {
    assert forall i :: 0 <= i < |rs| - 1 ==> Without(rs, k)[i] == rs[if i < k then i else i + 1];
  }

  /** `before` stands for nothing, or for the reads served so far. */
  lemma OrderKeeps<M>(s: Mem<M>, e: Event<M>, before: seq<nat>)
    requires Enabled(s, e) && Increasing(before + Unserved(s), s.next)
    requires Next(s, e).core.takers == s.core.takers
    ensures Increasing(before + Unserved(Next(s, e)), Next(s, e).next)
  {
    match e
    case ReadAsync =>
      assert before + Unserved(Next(s, e)) == (before + Unserved(s)) + [s.next];
    case ReadRun => ReadRunOrder(s, before);
    case TimerFired(r) => TimerOrder(s, r, before);
    case Invalidate(_) => DropWaiting(s, before);
    case _ =>
  }

  lemma ReadRunOrder<M>(s: Mem<M>, before: seq<nat>)
    requires s.queued != [] && Increasing(before + Unserved(s), s.next)
    requires Next(s, ReadRun).core.takers == s.core.takers
    ensures Increasing(before + Unserved(Next(s, ReadRun)), s.next)
  {
    if s.core.valid {
      assert s.core.waiting + [s.queued[0]] + s.queued[1..] == Unserved(s);
    } else {
      DropQueued(s, before);
    }
  }

  lemma WithoutMiddle(a: seq<nat>, b: seq<nat>, c: seq<nat>, k: nat)
    requires k < |b|
    ensures a + (Without(b, k) + c) == Without(a + (b + c), |a| + k)
  {
  }

  lemma TimerOrder<M>(s: Mem<M>, r: nat, before: seq<nat>)
    requires Increasing(before + Unserved(s), s.next)
    ensures Increasing(before + Unserved(Next(s, TimerFired(r))), s.next)
  {
    if r in s.core.waiting {
      var all := before + Unserved(s);
      var k := MinusIsWithout(s.core.waiting, r);
      WithoutKeeps(all, |before| + k, s.next);
      WithoutMiddle(before, s.core.waiting, s.queued, k);
    }
  }

  lemma DropQueued<M>(s: Mem<M>, before: seq<nat>)
    requires s.queued != [] && Increasing(before + Unserved(s), s.next)
    ensures Increasing(before + (s.core.waiting + s.queued[1..]), s.next)
  {
    var all, k := before + Unserved(s), |before| + |s.core.waiting|;
    WithoutKeeps(all, k, s.next);
    assert before + (s.core.waiting + s.queued[1..]) == Without(all, k);
  }

  lemma DropWaiting<M>(s: Mem<M>, before: seq<nat>)
    requires Increasing(before + Unserved(s), s.next)
    ensures Increasing(before + ([] + s.queued), s.next)
  {
    var all, n := before + Unserved(s), |s.core.waiting|;
    assert forall i :: 0 <= i < |before + ([] + s.queued)| ==>
        (before + ([] + s.queued))[i] == all[if i < |before| then i else i + n];
  }

  /** A read that is served leaves the others in order. */
  lemma ServingKeepsOrder<M>(s: Mem<M>, e: Event<M>)
    requires Enabled(s, e) && InIssueOrder(s) && Next(s, e).core.takers != s.core.takers
    ensures InIssueOrder(Next(s, e))
  {
    if e.ResolveRun? {
      WithoutKeeps(Unserved(s), 0, s.next);
      assert Unserved(Next(s, e)) == Without(Unserved(s), 0);
    } else {
      DropQueued(s, []);
      assert [] + Unserved(s) == Unserved(s);
      assert [] + Unserved(Next(s, e)) == Unserved(Next(s, e));
    }
  }

  lemma {:induction false} IssueOrderAlways<M(!new)>(tr: seq<Mem<M>>, i: nat)
    requires IsRun(tr) && i < |tr|
    ensures InIssueOrder(tr[i])
  {
    if i > 0 {
      IssueOrderAlways(tr, i - 1);
      var s, s' := tr[i - 1], tr[i];
      assert Step(s, s');
      var e :| Enabled(s, e) && s' == Next(s, e);
      if s'.core.takers == s.core.takers {
        assert [] + Unserved(s) == Unserved(s) && [] + Unserved(s') == Unserved(s');
        OrderKeeps(s, e, []);
      } else {
        ServingKeepsOrder(s, e);
      }
    }
  }

  /** Read r was issued before every other read that has no result in s. */
  ghost predicate Oldest<M>(s: Mem<M>, r: nat) {
    forall x :: x in Unserved(s) && x != r ==> r < x
  }

  /** The step from s to s' hands the oldest message to read r. */
  ghost predicate Serves<M>(s: Mem<M>, s': Mem<M>, r: nat) {
    && s.core.buf != [] && r in Unserved(s)
    && s'.core.takers == s.core.takers + [r] && s'.core.taken == s.core.taken + [s.core.buf[0]]
  }

  lemma ResolveServesOldest<M>(s: Mem<M>)
    requires InIssueOrder(s) && s.due && s.core.waiting != [] && s.core.buf != []
    ensures Serves(s, Next(s, ResolveRun), s.core.waiting[0]) && Oldest(s, s.core.waiting[0])
  {
    assert Unserved(s)[0] == s.core.waiting[0];
  }

  lemma ReadServesItself<M>(s: Mem<M>)
    requires InIssueOrder(s) && s.queued != [] && s.core.valid && s.core.buf != []
    ensures Serves(s, Next(s, ReadRun), s.queued[0])
    ensures Oldest(s, s.queued[0]) <==> s.core.waiting == []
  {
    var all := Unserved(s);
    assert all[|s.core.waiting|] == s.queued[0];
    if s.core.waiting != [] {
      assert all[0] in all && all[0] < s.queued[0];
    }
  }

  /**
   Who gets a message, at every step of every run that hands one out. A resolve step always serves
   the oldest read there is. A read that finds a message queued is served at once, and is the
   oldest if and only if no read is waiting.
   */
  lemma WhoIsServed<M(!new)>(tr: seq<Mem<M>>, i: nat, e: Event<M>) returns (taker: nat)
    requires IsRun(tr) && i < |tr| && Enabled(tr[i], e) && Next(tr[i], e).core.takers != tr[i].core.takers
    ensures Serves(tr[i], Next(tr[i], e), taker)
    ensures e.ResolveRun? || (e.ReadRun? && tr[i].core.valid)
    ensures e.ResolveRun? ==> Oldest(tr[i], taker)
    ensures e.ReadRun? ==> (Oldest(tr[i], taker) <==> tr[i].core.waiting == [])
  {
    IssueOrderAlways(tr, i);
    if e.ResolveRun? {
      taker := tr[i].core.waiting[0];
      ResolveServesOldest(tr[i]);
    } else {
      taker := tr[i].queued[0];
      ReadServesItself(tr[i]);
    }
  }

  /** The step from s to s' serves a read that starts while an older one waits. */
  ghost predicate Overtakes<M>(s: Mem<M>, s': Mem<M>) {
    s.queued != [] && s.core.valid && s.core.buf != [] && s.core.waiting != [] && s' == Next(s, ReadRun)
  }

  ghost predicate ServedInOrder<M>(s: Mem<M>) {
    Increasing(s.core.takers + Unserved(s), s.next)
  }

  lemma InOrderKeeps<M>(s: Mem<M>, e: Event<M>)
    requires ServedInOrder(s) && Enabled(s, e) && !Overtakes(s, Next(s, e))
    ensures ServedInOrder(Next(s, e))
  {
    var s' := Next(s, e);
    if s'.core.takers == s.core.takers {
      OrderKeeps(s, e, s.core.takers);
    } else {
      assert s'.core.takers + Unserved(s') == s.core.takers + Unserved(s);
    }
  }

  lemma {:induction false} InOrderAlways<M(!new)>(tr: seq<Mem<M>>, i: nat)
    requires IsRun(tr) && i < |tr| && forall k :: 0 <= k < i ==> !Overtakes(tr[k], tr[k + 1])
    ensures ServedInOrder(tr[i])
  {
    if i > 0 {
      InOrderAlways(tr, i - 1);
      assert Step(tr[i - 1], tr[i]);
      var e :| Enabled(tr[i - 1], e) && tr[i] == Next(tr[i - 1], e);
      InOrderKeeps(tr[i - 1], e);
    }
  }

  /**
   As long as no read has started beside a queued message and a waiting read, the reads served were
   served in the order issued, and before all that are not served yet.
   */
  lemma ServedInIssueOrder<M(!new)>(tr: seq<Mem<M>>, i: nat)
    requires IsRun(tr) && i < |tr| && forall k :: 0 <= k < i ==> !Overtakes(tr[k], tr[k + 1])
    ensures var takers := tr[i].core.takers;
            && (forall j, k :: 0 <= j < k < |takers| ==> takers[j] < takers[k])
            && (forall t, x :: t in takers && x in Unserved(tr[i]) ==> t < x)
  {
    InOrderAlways(tr, i);
    var takers, rest := tr[i].core.takers, Unserved(tr[i]);
    assert forall k :: 0 <= k < |takers| ==> (takers + rest)[k] == takers[k];
    assert forall k :: 0 <= k < |rest| ==> (takers + rest)[|takers| + k] == rest[k];
  }

  lemma IsStep(s: Mem<int>, e: Event<int>)
    requires Enabled(s, e)
    ensures Step(s, Next(s, e))
  {
  }

  ghost predicate IsPath(tr: seq<Mem<int>>, from: Mem<int>) {
    |tr| > 0 && tr[0] == from && forall i :: 0 <= i < |tr| - 1 ==> Step(tr[i], tr[i + 1])
  }

  lemma FirstReadWaits() returns (tr: seq<Mem<int>>)
    ensures |tr| == 3 && IsRun(tr)
    ensures var s := tr[2];
            s.core.valid && s.core.waiting == [0] && s.core.buf == [] && s.core.takers == []
            && s.queued == [] && s.writes == [] && !s.due && s.next == 1
  {
    var s0: Mem<int> := Mem(Core(true, Failed, [], [], map[], [], [], [], []), [], [], [], false, [], {}, 0);
    var s1 := Next(s0, ReadAsync);
    var s2 := Next(s1, ReadRun);
    IsStep(s0, ReadAsync);
    IsStep(s1, ReadRun);
    tr := [s0, s1, s2];
  }

  /** A message is written; read 1 starts before it is handed over, and takes it. */
  lemma SecondReadServed(s: Mem<int>) returns (tr: seq<Mem<int>>)
    requires s.core.valid && s.core.waiting == [0] && s.core.buf == [] && s.core.takers == []
    requires s.queued == [] && s.writes == [] && !s.due && s.next == 1
    ensures |tr| == 5 && IsPath(tr, s) && Overtakes(tr[3], tr[4])
    ensures var s := tr[4];
            s.core.takers == [1] && s.core.valid && s.core.waiting == [0] && s.core.buf == [] && s.due && s.writes == []
  {
    var s1 := Next(s, ReadAsync);
    var s2 := Next(s1, WriteAsync(7));
    var s3 := Next(s2, WriteRun(false));
    assert s3.core.waiting == [0] && s3.queued == [1] && s3.core.buf == [7] && s3.core.valid && s3.due;
    var s4 := Next(s3, ReadRun);
    IsStep(s, ReadAsync);
    IsStep(s1, WriteAsync(7));
    IsStep(s2, WriteRun(false));
    IsStep(s3, ReadRun);
    tr := [s, s1, s2, s3, s4];
  }

  /** Another message reaches the read that waits. */
  lemma FirstReadServed(s: Mem<int>) returns (tr: seq<Mem<int>>)
    requires s.core.takers == [1] && s.core.valid && s.core.waiting == [0] && s.core.buf == []
    requires s.due && s.writes == []
    ensures |tr| == 5 && IsPath(tr, s)
    ensures tr[4].core.takers == [1, 0]
  {
    var s1 := Next(s, ResolveRun);
    var s2 := Next(s1, WriteAsync(8));
    assert s2.writes == [8] && !s2.due;
    var s3 := Next(s2, WriteRun(false));
    assert s3.core.buf == [8] && s3.core.waiting == [0] && s3.due;
    var s4 := Next(s3, ResolveRun);
    IsStep(s, ResolveRun);
    IsStep(s1, WriteAsync(8));
    IsStep(s2, WriteRun(false));
    IsStep(s3, ResolveRun);
    tr := [s, s1, s2, s3, s4];
  }

  /** Reads are not always served in the order issued: in this run read 1 gets its message before read 0. */
  lemma ReadsCanOvertake() returns (tr: seq<Mem<int>>)
    ensures IsRun(tr) && tr[|tr| - 1].core.takers == [1, 0]
    ensures exists k :: 0 <= k < |tr| - 1 && Overtakes(tr[k], tr[k + 1])
  {
    var a := FirstReadWaits();
    var b := SecondReadServed(a[2]);
    var c := FirstReadServed(b[4]);
    tr := a + b[1..] + c[1..];
    forall i | 0 <= i < |tr| - 1
      ensures Step(tr[i], tr[i + 1])
    {
      if i < 2 {
        assert tr[i] == a[i] && tr[i + 1] == a[i + 1];
      } else if i < 6 {
        assert tr[i] == b[i - 2] && tr[i + 1] == b[i - 1];
      } else {
        assert tr[i] == c[i - 6] && tr[i + 1] == c[i - 5];
      }
    }
    assert tr[5] == b[3] && tr[6] == b[4] && Overtakes(tr[5], tr[6]);
  }
}
