/** Every interleaving of the two strands, the timers, the callers and invalidation. */
module MemBufferRuns {
  import opened Prelude
  import opened PipeOps
  import opened Ledger
  import opened MemBuffer

  /**
   `asked` are the writes accepted so far, `ran` those that have run, with their results, and
   `writes` those still on the write strand. `queued` are the reads on the read strand, and `started` holds
   the reads issued while the buffer was valid. `due`: the write strand owes a resolve step.
   */
  datatype Mem<M> = Mem(
    core: Core<M>, asked: seq<M>, ran: seq<(M, PipeRes)>, writes: seq<M>, due: bool,
    queued: seq<nat>, started: set<nat>, next: nat)

  ghost predicate Initial<M>(s: Mem<M>) {
    s == Mem(Core(true, Failed, [], [], map[], [], [], [], []), [], [], [], false, [], {}, 0)
  }

  datatype Event<M> =
    | WriteAsync(data: M) | WriteRun(expired: bool) | ResolveRun
    | ReadAsync | ReadRun
    | TimerFired(r: nat) | Invalidate(cancelRead: bool)

  predicate Enabled<M>(s: Mem<M>, e: Event<M>) {
    match e
    case WriteRun(_) => s.writes != [] && !s.due
    case ResolveRun => s.due
    case ReadRun => s.queued != []
    case _ => true
  }

  /** A write to an invalid buffer fails at once and leaves no trace. */
  function Next<M>(s: Mem<M>, e: Event<M>): Mem<M>
    requires Enabled(s, e)
  {
    match e
    case WriteAsync(data) =>
      if s.core.valid then s.(asked := s.asked + [data], writes := s.writes + [data]) else s
    case WriteRun(expired) =>
      s.(core := Written(s.core, s.writes[0], expired), writes := s.writes[1..], due := true,
         ran := s.ran + [(s.writes[0], WriteRes(s.core, expired))])
    case ResolveRun => s.(core := Resolved(s.core), due := false)
    case ReadAsync =>
      s.(queued := s.queued + [s.next], next := s.next + 1,
         started := if s.core.valid then s.started + {s.next} else s.started,
         core := s.core.(got := s.core.got[s.next := []]))
    case ReadRun => s.(core := Read(s.core, s.queued[0], s.queued[0] in s.started), queued := s.queued[1..])
    case TimerFired(r) => s.(core := TimedOut(s.core, r))
    case Invalidate(cancelRead) => s.(core := Invalidated(s.core, cancelRead))
  }

  ghost predicate Step<M(!new)>(s: Mem<M>, s': Mem<M>) {
    exists e :: Enabled(s, e) && s' == Next(s, e)
  }

  ghost predicate IsRun<M(!new)>(tr: seq<Mem<M>>) {
    |tr| > 0 && Initial(tr[0]) && forall i :: 0 <= i < |tr| - 1 ==> Step(tr[i], tr[i + 1])
  }

  // ----- the invariant -----

  function Successes<M>(ran: seq<(M, PipeRes)>): seq<M> {
    if ran == [] then []
    else
      var rest, last := Successes(ran[..|ran| - 1]), ran[|ran| - 1];
      if last.1.Success? then rest + [last.0] else rest
  }

  function Datas<M>(ran: seq<(M, PipeRes)>): seq<M> {
    seq(|ran|, i requires 0 <= i < |ran| => ran[i].0)
  }

  ghost predicate WritesOk<M>(s: Mem<M>) {
    s.asked == Datas(s.ran) + s.writes && s.core.written == Successes(s.ran)
  }

  ghost predicate QueuesOk<M>(c: Core<M>) {
    && c.written == c.taken + c.buf + c.dropped
    && (c.valid ==> c.dropped == [])
    && (!c.valid ==> c.buf == [] && c.waiting == [] && c.invRes in {Canceled, Failed})
    && |c.takers| == |c.taken|
  }

  function Min(a: nat, b: nat): nat {
    if a < b then a else b
  }

  ghost predicate DueOk<M>(s: Mem<M>) {
    Min(|s.core.buf|, |s.core.waiting|) <= if s.due then 1 else 0
  }

  /** Read r is on the strand, waiting, or has been given its result. */
  ghost predicate ReadPlaced<M>(s: Mem<M>, r: nat) {
    r in s.core.got && multiset(s.queued)[r] + multiset(s.core.waiting)[r] + |s.core.got[r]| == 1
  }

  ghost predicate ReadsOk<M>(s: Mem<M>) {
    && (forall r: nat :: r in s.core.got <==> r < s.next)
    && (forall r :: r in s.queued ==> r in s.core.got)
    && (forall r :: r in s.core.waiting ==> r in s.core.got)
    && (forall r :: r in s.core.got ==> ReadPlaced(s, r))
  }

  ghost predicate DoneOk<M>(c: Core<M>, started: set<nat>, r: nat, x: ReadDone<M>) {
    match x.res
    case Success => exists k :: 0 <= k < |c.takers| && k < |c.taken| && c.takers[k] == r && x.msg == Some(c.taken[k])
    case Canceled => !c.valid && c.invRes == Canceled && r in started
    case Failed => !c.valid && (r in started ==> c.invRes == Failed)
    case Timeout => true
  }

  ghost predicate TruthOk<M>(s: Mem<M>) {
    forall r, x :: r in s.core.got && x in s.core.got[r] ==> DoneOk(s.core, s.started, r, x)
  }

  ghost predicate TakersOk<M>(c: Core<M>) {
    forall k :: 0 <= k < |c.takers| && k < |c.taken| ==>
      c.takers[k] in c.got && ReadDone(Success, Some(c.taken[k])) in c.got[c.takers[k]]
  }

  ghost predicate WaitersStarted<M>(s: Mem<M>) {
    && (forall r :: r in s.core.waiting ==> r in s.started)
    && (s.core.valid ==> forall r :: r in s.queued ==> r in s.started)
  }

  ghost predicate Inv<M>(s: Mem<M>) {
    && WritesOk(s) && QueuesOk(s.core) && DueOk(s) && ReadsOk(s)
    && TruthOk(s) && TakersOk(s.core) && WaitersStarted(s)
  }

  // ----- each event keeps it -----

  lemma {:induction false} MinusIs(s: seq<nat>, r: nat)
    requires r in s
    ensures multiset(Minus(s, r)) == multiset(s) - multiset{r}
    ensures |Minus(s, r)| == |s| - 1
    ensures forall x :: x in Minus(s, r) ==> x in s
  {
    assert s == [s[0]] + s[1..];
    if s[0] != r {
      MinusIs(s[1..], r);
    }
    forall x | x in Minus(s, r)
      ensures x in s
    {
      assert x in multiset(Minus(s, r));
    }
  }

  lemma HeadCount(s: seq<nat>, r: nat)
    requires s != []
    ensures multiset(s[1..])[r] == multiset(s)[r] - (if s[0] == r then 1 else 0)
  {
    assert s == [s[0]] + s[1..];
  }

  lemma WritesKeep<M>(s: Mem<M>, e: Event<M>)
    requires WritesOk(s) && Enabled(s, e)
    ensures WritesOk(Next(s, e))
  {
    var s' := Next(s, e);
    if e.WriteRun? {
      assert s'.ran[..|s.ran|] == s.ran;
      assert Datas(s'.ran) == Datas(s.ran) + [s.writes[0]];
      assert s.writes == [s.writes[0]] + s.writes[1..];
    }
  }

  lemma TakeQueues<M>(c: Core<M>, r: nat)
    requires QueuesOk(c) && c.buf != []
    ensures QueuesOk(Take(c, r))
  {
    assert c.buf == [c.buf[0]] + c.buf[1..];
    assert c.taken + c.buf + c.dropped == (c.taken + [c.buf[0]]) + c.buf[1..] + c.dropped;
  }

  lemma QueuesKeep<M>(s: Mem<M>, e: Event<M>)
    requires QueuesOk(s.core) && DueOk(s) && Enabled(s, e)
    ensures QueuesOk(Next(s, e).core) && DueOk(Next(s, e))
  {
    var c := s.core;
    match e
    case WriteRun(expired) =>
      assert (c.taken + c.buf) + [s.writes[0]] == c.taken + (c.buf + [s.writes[0]]);
    case ResolveRun =>
      if c.waiting != [] && c.buf != [] {
        TakeQueues(c, c.waiting[0]);
      }
    case ReadRun =>
      if c.buf != [] {
        TakeQueues(c, s.queued[0]);
      }
    case TimerFired(r) =>
      if r in c.waiting {
        MinusIs(c.waiting, r);
      }
    case _ =>
  }

  lemma ResolvePlaces<M>(s: Mem<M>, r: nat)
    requires ReadsOk(s) && s.due && r in s.core.got
    ensures ReadPlaced(Next(s, ResolveRun), r)
  {
    assert ReadPlaced(s, r);
    if s.core.waiting != [] {
      HeadCount(s.core.waiting, r);
    }
  }

  lemma ReadRunPlaces<M>(s: Mem<M>, r: nat)
    requires ReadsOk(s) && s.queued != [] && r in s.core.got
    ensures ReadPlaced(Next(s, ReadRun), r)
  {
    assert ReadPlaced(s, r);
    HeadCount(s.queued, r);
  }

  lemma TimerPlaces<M>(s: Mem<M>, q: nat, r: nat)
    requires ReadsOk(s) && r in s.core.got
    ensures ReadPlaced(Next(s, TimerFired(q)), r)
  {
    assert ReadPlaced(s, r);
    if q in s.core.waiting {
      MinusIs(s.core.waiting, q);
    }
  }

  lemma ReadPlaces<M>(s: Mem<M>, e: Event<M>, r: nat)
    requires ReadsOk(s) && Enabled(s, e) && r in s.core.got
    requires !e.Invalidate? && !e.ReadAsync?
    ensures ReadPlaced(Next(s, e), r)
  {
    match e
    case ResolveRun => ResolvePlaces(s, r);
    case ReadRun => ReadRunPlaces(s, r);
    case TimerFired(q) => TimerPlaces(s, q, r);
    case WriteAsync(_) => assert ReadPlaced(s, r);
    case WriteRun(_) => assert ReadPlaced(s, r);
  }

  lemma IssuePlaces<M>(s: Mem<M>)
    requires ReadsOk(s)
    ensures ReadsOk(Next(s, ReadAsync))
  {
    var s' := Next(s, ReadAsync);
    assert s.next !in s.core.got && s.next !in s.queued && s.next !in s.core.waiting;
    forall r | r in s'.core.got
      ensures ReadPlaced(s', r)
    {
      assert r != s.next ==> ReadPlaced(s, r);
    }
  }

  lemma InvalidationPlaces<M>(s: Mem<M>, cancelRead: bool)
    requires ReadsOk(s)
    ensures ReadsOk(Next(s, Invalidate(cancelRead)))
  {
    var s' := Next(s, Invalidate(cancelRead));
    var x: ReadDone<M> := ReadDone(InvalidationRes(cancelRead), None);
    GiveAllIs(s.core.got, s.core.waiting, x, 0);
    forall r | r in s'.core.got
      ensures ReadPlaced(s', r)
    {
      GiveAllIs(s.core.got, s.core.waiting, x, r);
      assert ReadPlaced(s, r);
    }
  }

  lemma ReadsKeep<M>(s: Mem<M>, e: Event<M>)
    requires ReadsOk(s) && Enabled(s, e)
    ensures ReadsOk(Next(s, e))
  {
    var s' := Next(s, e);
    if e.ReadAsync? {
      IssuePlaces(s);
    } else if e.Invalidate? {
      InvalidationPlaces(s, e.cancelRead);
    } else {
      KnownReads(s, e);
      forall r | r in s'.core.got
        ensures ReadPlaced(s', r)
      {
        ReadPlaces(s, e, r);
      }
    }
  }

  lemma KnownReads<M>(s: Mem<M>, e: Event<M>)
    requires ReadsOk(s) && Enabled(s, e) && !e.Invalidate? && !e.ReadAsync?
    ensures Next(s, e).core.got.Keys == s.core.got.Keys
    ensures forall r :: r in Next(s, e).queued ==> r in s.core.got
    ensures forall r :: r in Next(s, e).core.waiting ==> r in s.core.got
  {
    match e
    case ResolveRun => KnownAtResolve(s);
    case ReadRun => KnownAtRead(s);
    case TimerFired(r) =>
      if r in s.core.waiting {
        MinusIs(s.core.waiting, r);
      }
    case _ =>
  }

  lemma KnownAtResolve<M>(s: Mem<M>)
    requires ReadsOk(s) && s.due
    ensures Resolved(s.core).got.Keys == s.core.got.Keys
    ensures forall r :: r in Resolved(s.core).waiting ==> r in s.core.got
  {
    if s.core.waiting != [] {
      assert s.core.waiting[0] in s.core.waiting;
    }
  }

  lemma KnownAtRead<M>(s: Mem<M>)
    requires ReadsOk(s) && s.queued != []
    ensures Next(s, ReadRun).core.got.Keys == s.core.got.Keys
    ensures forall r :: r in Next(s, ReadRun).core.waiting ==> r in s.core.got
  {
    assert s.queued[0] in s.queued;
  }

  /** Handing the oldest message to a read keeps the books of who took what. */
  lemma TakeKeeps<M>(c: Core<M>, started: set<nat>, q: nat)
    requires c.buf != [] && |c.takers| == |c.taken| && q in c.got && TakersOk(c)
    requires forall r, x :: r in c.got && x in c.got[r] ==> DoneOk(c, started, r, x)
    ensures TakersOk(Take(c, q))
    ensures forall r, x :: r in Take(c, q).got && x in Take(c, q).got[r] ==> DoneOk(Take(c, q), started, r, x)
  {
    var c' := Take(c, q);
    forall r, x | r in c'.got && x in c'.got[r]
      ensures DoneOk(c', started, r, x)
    {
      if x in c.got[r] {
        assert DoneOk(c, started, r, x);
        if x.res.Success? {
          var k :| 0 <= k < |c.takers| && c.takers[k] == r && x.msg == Some(c.taken[k]);
          assert c'.takers[k] == r && c'.taken[k] == c.taken[k];
        }
      } else {
        assert c'.takers[|c.takers|] == r && c'.taken[|c.taken|] == c.buf[0];
      }
    }
  }

  /** Giving a read something else than a message. */
  lemma GiveKeeps<M>(s: Mem<M>, s': Mem<M>, q: nat, y: ReadDone<M>)
    requires TruthOk(s) && TakersOk(s.core) && q in s.core.got
    requires s' == s.(core := s.core.(waiting := s'.core.waiting, got := Give(s.core.got, q, y)), queued := s'.queued)
    requires !y.res.Success? && DoneOk(s.core, s.started, q, y)
    ensures TruthOk(s') && TakersOk(s'.core)
  {
    forall r, x | r in s'.core.got && x in s'.core.got[r]
      ensures DoneOk(s'.core, s'.started, r, x)
    {
      if x in s.core.got[r] {
        assert DoneOk(s.core, s.started, r, x);
      }
    }
  }

  lemma InvalidationKeeps<M>(s: Mem<M>, cancelRead: bool)
    requires Inv(s) && s.core.valid
    ensures TruthOk(Next(s, Invalidate(cancelRead))) && TakersOk(Next(s, Invalidate(cancelRead)).core)
  {
    var c, c' := s.core, Next(s, Invalidate(cancelRead)).core;
    var y: ReadDone<M> := ReadDone(InvalidationRes(cancelRead), None);
    assert c'.got == GiveAll(c.got, c.waiting, y);
    GiveAllIs(c.got, c.waiting, y, 0);
    forall r, x | r in c'.got && x in c'.got[r]
      ensures DoneOk(c', s.started, r, x)
    {
      GiveAllHas(c.got, c.waiting, y, r, x);
      if x in c.got[r] {
        assert DoneOk(c, s.started, r, x);
        assert x.res.Success? || x.res.Timeout?;
      }
    }
    forall k | 0 <= k < |c.takers|
      ensures c.takers[k] in c'.got && ReadDone(Success, Some(c.taken[k])) in c'.got[c.takers[k]]
    {
      assert c.takers[k] in c.got;
      GiveAllHas(c.got, c.waiting, y, c.takers[k], ReadDone(Success, Some(c.taken[k])));
    }
  }

  lemma IssueKeeps<M>(s: Mem<M>)
    requires Inv(s)
    ensures TruthOk(Next(s, ReadAsync)) && TakersOk(Next(s, ReadAsync).core)
  {
    var s' := Next(s, ReadAsync);
    forall r, x | r in s'.core.got && x in s'.core.got[r]
      ensures DoneOk(s'.core, s'.started, r, x)
    {
      assert r != s.next && x in s.core.got[r];
      assert DoneOk(s.core, s.started, r, x);
    }
  }

  lemma TruthKeeps<M>(s: Mem<M>, e: Event<M>)
    requires Inv(s) && Enabled(s, e)
    ensures TruthOk(Next(s, e)) && TakersOk(Next(s, e).core)
  {
    var s' := Next(s, e);
    match e
    case WriteAsync(_) =>
    case WriteRun(expired) =>
      forall r, x | r in s.core.got && x in s.core.got[r]
        ensures DoneOk(s'.core, s'.started, r, x)
      {
        assert DoneOk(s.core, s.started, r, x);
      }
    case ResolveRun =>
      if s.core.waiting != [] && s.core.buf != [] {
        assert s.core.waiting[0] in s.core.waiting;
        TakeKeeps(s.core, s.started, s.core.waiting[0]);
        TruthOnlyNeeds(s', Take(s.core, s.core.waiting[0]));
      }
    case ReadAsync => IssueKeeps(s);
    case ReadRun => ReadTruth(s);
    case TimerFired(r) =>
      if r in s.core.waiting {
        GiveKeeps(s, s', r, ReadDone(Timeout, None));
      }
    case Invalidate(cancelRead) =>
      if s.core.valid {
        InvalidationKeeps(s, cancelRead);
      }
  }

  lemma ReadTruth<M>(s: Mem<M>)
    requires Inv(s) && s.queued != []
    ensures TruthOk(Next(s, ReadRun)) && TakersOk(Next(s, ReadRun).core)
  {
    var s', q := Next(s, ReadRun), s.queued[0];
    assert q in s.queued;
    if !s.core.valid {
      GiveKeeps(s, s', q, ReadDone(if q in s.started then s.core.invRes else Failed, None));
    } else if s.core.buf != [] {
      TakeKeeps(s.core, s.started, q);
      TruthOnlyNeeds(s', Take(s.core, q));
    } else {
      TruthOnlyNeeds(s', s.core);
    }
  }

  /** Who waits does not matter for who was told what. */
  lemma TruthOnlyNeeds<M>(s': Mem<M>, c: Core<M>)
    requires s'.core == c.(waiting := s'.core.waiting) && TakersOk(c)
    requires forall r, x :: r in c.got && x in c.got[r] ==> DoneOk(c, s'.started, r, x)
    ensures TruthOk(s') && TakersOk(s'.core)
  {
    forall r, x | r in s'.core.got && x in s'.core.got[r]
      ensures DoneOk(s'.core, s'.started, r, x)
    {
      assert DoneOk(c, s'.started, r, x);
    }
  }

  lemma StartedKeeps<M>(s: Mem<M>, e: Event<M>)
    requires Inv(s) && Enabled(s, e)
    ensures WaitersStarted(Next(s, e))
  {
    if e.TimerFired? && e.r in s.core.waiting {
      MinusIs(s.core.waiting, e.r);
    }
  }

  lemma {:induction false} Always<M(!new)>(tr: seq<Mem<M>>, i: nat)
    requires IsRun(tr) && i < |tr|
    ensures Inv(tr[i])
  {
    if i > 0 {
      Always(tr, i - 1);
      var s := tr[i - 1];
      assert Step(s, tr[i]);
      var e :| Enabled(s, e) && tr[i] == Next(s, e);
      WritesKeep(s, e);
      QueuesKeep(s, e);
      ReadsKeep(s, e);
      TruthKeeps(s, e);
      StartedKeeps(s, e);
    }
  }

  // ----- the promises -----

  /**
   Nothing is lost, duplicated or reordered: the messages reads have taken, then those still
   queued, then those dropped by an invalidation, are the successful writes in the order they
   were asked for. Only an invalidation drops messages.
   */
  lemma MessagesAreConserved<M(!new)>(tr: seq<Mem<M>>, i: nat)
    requires IsRun(tr) && i < |tr|
    ensures var s := tr[i];
            && Successes(s.ran) == s.core.taken + s.core.buf + s.core.dropped
            && s.asked == Datas(s.ran) + s.writes
            && (s.core.valid ==> s.core.dropped == [])
  {
    Always(tr, i);
  }

  /**
   A read waits beside a queued message only while the write strand owes a resolve step, and one
   step settles it; after an invalidation no read waits and no message is queued.
   */
  lemma NoReadStarves<M(!new)>(tr: seq<Mem<M>>, i: nat)
    requires IsRun(tr) && i < |tr|
    ensures var c := tr[i].core;
            && Min(|c.buf|, |c.waiting|) <= (if tr[i].due then 1 else 0)
            && (!tr[i].due ==> c.buf == [] || c.waiting == [])
            && (!c.valid ==> c.buf == [] && c.waiting == [])
  {
    Always(tr, i);
  }

  /**
   Every read issued gets exactly one result: it is on the strand, waiting or done. What it gets
   is true: success comes with a message that only this read took, canceled and failed come only
   from the invalidation, or from reading a buffer already invalid.
   */
  lemma ReadsEndOnceAndTruly<M(!new)>(tr: seq<Mem<M>>, i: nat, r: nat)
    requires IsRun(tr) && i < |tr| && r < tr[i].next
    ensures r in tr[i].core.got && ReadPlaced(tr[i], r)
    ensures r in tr[i].queued || r in tr[i].core.waiting || |tr[i].core.got[r]| == 1
    ensures forall x :: x in tr[i].core.got[r] ==> DoneOk(tr[i].core, tr[i].started, r, x)
    ensures forall k :: 0 <= k < |tr[i].core.takers| && tr[i].core.takers[k] == r ==>
              |tr[i].core.takers| == |tr[i].core.taken|
              && tr[i].core.got[r] == [ReadDone(Success, Some(tr[i].core.taken[k]))]
  {
    Always(tr, i);
    assert ReadPlaced(tr[i], r);
  }
}
