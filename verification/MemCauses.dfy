/** Why the reads and writes of a memory buffer end as they do, in every run. */
module MemCauses {
  import opened Prelude
  import opened PipeOps
  import opened Ledger
  import opened MemBuffer
  import opened MemBufferRuns

  ghost predicate Happens<M>(s: Mem<M>, e: Event<M>, s': Mem<M>) {
    Enabled(s, e) && s' == Next(s, e)
  }

  // ----- invalidation -----

  /** At step m the buffer is invalidated for the first time, in that mode. */
  ghost predicate InvalidatedAt<M>(tr: seq<Mem<M>>, m: nat, cancelRead: bool)
    requires m + 1 < |tr|
  {
    tr[m].core.valid && Happens(tr[m], Invalidate(cancelRead), tr[m + 1])
  }

  /** The buffer is invalid and keeps this result for the reads it ends. */
  ghost predicate InvalidWith<M>(s: Mem<M>, r: PipeRes) {
    !s.core.valid && s.core.invRes == r
  }

  lemma InvalidStep<M(!new)>(tr: seq<Mem<M>>, m: nat, cancelRead: bool)
    requires IsRun(tr) && m + 1 < |tr|
    ensures InvalidWith(tr[m + 1], if cancelRead then Canceled else Failed) <==>
              InvalidWith(tr[m], if cancelRead then Canceled else Failed) || InvalidatedAt(tr, m, cancelRead)
  {
    assert Step(tr[m], tr[m + 1]);
    var e :| Enabled(tr[m], e) && tr[m + 1] == Next(tr[m], e);
    assert Happens(tr[m], e, tr[m + 1]);
  }

  /**
   A buffer is invalid exactly when it has been invalidated, and ends reads as canceled or as failed
   according to the first invalidation.
   */
  lemma FirstInvalidationStands<M(!new)>(tr: seq<Mem<M>>, i: nat, cancelRead: bool)
    requires IsRun(tr) && i < |tr|
    ensures InvalidWith(tr[i], if cancelRead then Canceled else Failed) <==>
              exists m: nat :: m < i && InvalidatedAt(tr, m, cancelRead)
    ensures tr[i].core.valid <==> !InvalidWith(tr[i], Canceled) && !InvalidWith(tr[i], Failed)
  {
    Always(tr, i);
    var holds := seq(|tr|, k requires 0 <= k < |tr| => InvalidWith(tr[k], if cancelRead then Canceled else Failed));
    var brings := seq(|tr| - 1, k requires 0 <= k < |tr| - 1 => InvalidatedAt(tr, k, cancelRead));
    forall k | 0 <= k < |brings|
      ensures holds[k + 1] <==> holds[k] || brings[k]
    {
      InvalidStep(tr, k, cancelRead);
    }
    BroughtAbout(holds, brings, i);
    assert forall m: nat :: m < i ==> (brings[m] <==> InvalidatedAt(tr, m, cancelRead));
  }

  // ----- writes -----

  /** The oldest write on the strand runs: canceled by an invalid buffer, expired, or done and queued. */
  ghost predicate WriteEnds<M>(s: Mem<M>, expired: bool, s': Mem<M>) {
    && s.writes != [] && s'.writes == s.writes[1..]
    && if !s.core.valid then s'.ran == s.ran + [(s.writes[0], Canceled)] && s'.core == s.core
       else if expired then s'.ran == s.ran + [(s.writes[0], Timeout)] && s'.core == s.core
       else
         && s'.ran == s.ran + [(s.writes[0], Success)]
         && s'.core.buf == s.core.buf + [s.writes[0]] && s'.core.waiting == s.core.waiting
         && s'.core.got == s.core.got
  }

  lemma EachWriteEndsTruly<M(!new)>(tr: seq<Mem<M>>, i: nat, expired: bool)
    requires IsRun(tr) && i < |tr| && Enabled(tr[i], WriteRun(expired))
    ensures WriteEnds(tr[i], expired, Next(tr[i], WriteRun(expired)))
  {
  }

  /** Only the run of a write tells a writer anything; a write is accepted exactly by a valid buffer. */
  lemma OtherwiseNoWriteEnds<M(!new)>(tr: seq<Mem<M>>, i: nat, e: Event<M>)
    requires IsRun(tr) && i < |tr| && Enabled(tr[i], e) && !e.WriteRun?
    ensures Next(tr[i], e).ran == tr[i].ran
    ensures Next(tr[i], e).writes
         == if e.WriteAsync? && tr[i].core.valid then tr[i].writes + [e.data] else tr[i].writes
  {
  }

  // ----- reads -----

  ghost predicate HasGot<M>(s: Mem<M>, r: nat, x: ReadDone<M>) {
    r in s.core.got && s.core.got[r] == [x]
  }

  /**
   The event gives read r its result: its timer fires while it waits; a message reaches it, because
   it has waited longest or because it starts and finds one; the buffer is invalidated while it
   waits; or it starts on an invalid buffer.
   */
  ghost predicate GivesRead<M>(s: Mem<M>, e: Event<M>, r: nat, x: ReadDone<M>) {
    match e
    case TimerFired(q) => q == r && r in s.core.waiting && x == ReadDone(Timeout, None)
    case ResolveRun =>
      && s.core.waiting != [] && s.core.buf != [] && s.core.waiting[0] == r
      && x == ReadDone(Success, Some(s.core.buf[0]))
    case ReadRun =>
      && s.queued != [] && s.queued[0] == r
      && (if s.core.valid then s.core.buf != [] && x == ReadDone(Success, Some(s.core.buf[0]))
          else x == ReadDone(if r in s.started then s.core.invRes else Failed, None))
    case Invalidate(cancelRead) =>
      s.core.valid && r in s.core.waiting && x == ReadDone(if cancelRead then Canceled else Failed, None)
    case WriteAsync(_) => false
    case WriteRun(_) => false
    case ReadAsync => false
  }

  /** Giving one read its first result. */
  lemma GiveOne<M>(got: map<nat, seq<ReadDone<M>>>, q: nat, y: ReadDone<M>, r: nat, x: ReadDone<M>)
    requires q in got && got[q] == []
    ensures (r in Give(got, q, y) && Give(got, q, y)[r] == [x]) <==> (r in got && got[r] == [x]) || (r == q && x == y)
  {
    assert [] + [y] == [y];
    assert [x] == [y] ==> x == y;
  }

  lemma Unserved<M>(s: Mem<M>, r: nat)
    requires ReadsOk(s) && (r in s.queued || r in s.core.waiting)
    ensures r in s.core.got && s.core.got[r] == []
  {
    assert ReadPlaced(s, r);
  }

  lemma InvalidationGives<M>(s: Mem<M>, cancelRead: bool, r: nat, x: ReadDone<M>)
    requires ReadsOk(s) && s.core.valid
    ensures HasGot(Next(s, Invalidate(cancelRead)), r, x) <==>
              HasGot(s, r, x) || GivesRead(s, Invalidate(cancelRead), r, x)
  {
    var y: ReadDone<M> := ReadDone(if cancelRead then Canceled else Failed, None);
    GiveAllIs(s.core.got, s.core.waiting, y, r);
    if r in s.core.got {
      assert ReadPlaced(s, r);
      if r in s.core.waiting {
        GivenOnce(s.core.got, s.core.waiting, y, r);
        assert [x] == [y] ==> x == y;
      }
    }
  }

  /** A read has a result after an event exactly when it had it before or the event gives it. */
  lemma StepGives<M>(s: Mem<M>, e: Event<M>, r: nat, x: ReadDone<M>)
    requires ReadsOk(s) && Enabled(s, e)
    ensures HasGot(Next(s, e), r, x) <==> HasGot(s, r, x) || GivesRead(s, e, r, x)
  {
    var got := s.core.got;
    match e
    case TimerFired(q) =>
      if q in s.core.waiting {
        Unserved(s, q);
        GiveOne(got, q, ReadDone(Timeout, None), r, x);
      }
    case ResolveRun =>
      if s.core.waiting != [] && s.core.buf != [] {
        Unserved(s, s.core.waiting[0]);
        GiveOne(got, s.core.waiting[0], ReadDone(Success, Some(s.core.buf[0])), r, x);
      }
    case ReadRun => StartGives(s, r, x);
    case Invalidate(cancelRead) =>
      if s.core.valid {
        InvalidationGives(s, cancelRead, r, x);
      }
    case WriteAsync(_) =>
    case WriteRun(_) =>
    case ReadAsync =>
  }

  lemma StartGives<M>(s: Mem<M>, r: nat, x: ReadDone<M>)
    requires ReadsOk(s) && s.queued != []
    ensures HasGot(Next(s, ReadRun), r, x) <==> HasGot(s, r, x) || GivesRead(s, ReadRun, r, x)
  {
    var q := s.queued[0];
    Unserved(s, q);
    if !s.core.valid {
      GiveOne(s.core.got, q, ReadDone(if q in s.started then s.core.invRes else Failed, None), r, x);
    } else if s.core.buf != [] {
      GiveOne(s.core.got, q, ReadDone(Success, Some(s.core.buf[0])), r, x);
    }
  }

  ghost predicate GivenAt<M(!new)>(tr: seq<Mem<M>>, m: nat, r: nat, x: ReadDone<M>)
    requires m + 1 < |tr|
  {
    exists e :: Happens(tr[m], e, tr[m + 1]) && GivesRead(tr[m], e, r, x)
  }

  lemma RunStepGives<M(!new)>(tr: seq<Mem<M>>, m: nat, r: nat, x: ReadDone<M>)
    requires IsRun(tr) && m + 1 < |tr|
    ensures HasGot(tr[m + 1], r, x) <==> HasGot(tr[m], r, x) || GivenAt(tr, m, r, x)
  {
    Always(tr, m);
    assert Step(tr[m], tr[m + 1]);
    var e :| Enabled(tr[m], e) && tr[m + 1] == Next(tr[m], e);
    assert Happens(tr[m], e, tr[m + 1]);
    StepGives(tr[m], e, r, x);
    if GivenAt(tr, m, r, x) {
      var other :| Happens(tr[m], other, tr[m + 1]) && GivesRead(tr[m], other, r, x);
      StepGives(tr[m], other, r, x);
    }
  }

  /** In every run a read has a result exactly when an earlier event gave it that result. */
  lemma EachReadHasItsCause<M(!new)>(tr: seq<Mem<M>>, i: nat, r: nat, x: ReadDone<M>)
    requires IsRun(tr) && i < |tr|
    ensures HasGot(tr[i], r, x) <==> exists m: nat :: m < i && GivenAt(tr, m, r, x)
  {
    var holds := seq(|tr|, k requires 0 <= k < |tr| => HasGot(tr[k], r, x));
    var brings := seq(|tr| - 1, k requires 0 <= k < |tr| - 1 => GivenAt(tr, k, r, x));
    forall k | 0 <= k < |brings|
      ensures holds[k + 1] <==> holds[k] || brings[k]
    {
      RunStepGives(tr, k, r, x);
    }
    BroughtAbout(holds, brings, i);
    assert forall m: nat :: m < i ==> (brings[m] <==> GivenAt(tr, m, r, x));
  }

  /** A read is issued onto the strand, and counts as started exactly if the buffer was valid then. */
  lemma ReadsAreIssued<M(!new)>(tr: seq<Mem<M>>, i: nat, e: Event<M>, r: nat)
    requires IsRun(tr) && i < |tr| && Enabled(tr[i], e)
    ensures r in Next(tr[i], e).started <==>
              r in tr[i].started || (e.ReadAsync? && r == tr[i].next && tr[i].core.valid)
    ensures e.ReadAsync? ==> Next(tr[i], e).queued == tr[i].queued + [tr[i].next]
  {
  }
}
