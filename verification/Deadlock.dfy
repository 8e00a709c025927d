/** Any number of threads, each with at most one ordered lock, never deadlock. */
module Deadlock {
  import opened Prelude
  import opened TupleSort
  import opened OrderedLock

  /**
   A thread: the mutexes it holds, in the order it took them, those its lock still has to take,
   how many it held when that lock began, and, while it releases, how many it will keep.
   */
  datatype Thread = Thread(held: seq<Mutex>, todo: seq<Mutex>, base: nat, dropping: Option<nat>)

  type Threads = map<nat, Thread>

  const NEW_THREAD: Thread := Thread([], [], 0, None)

  predicate Idle(th: Thread) {
    th.todo == [] && th.dropping.None?
  }

  ghost predicate Free(s: Threads, m: Mutex) {
    forall t :: t in s ==> m !in s[t].held
  }

  function OrderOf(): Mutex -> int {
    (m: Mutex) => m.order
  }

  datatype Event =
    | Spawn(t: nat)
    | BeginLock(t: nat, ms: seq<Mutex>)
    | BeginPushBack(t: nat, ms: seq<Mutex>)
    | Take(t: nat)
    | Throw(t: nat)
    | BeginUnlock(t: nat)
    | Drop(t: nat)

  /**
   A lock is over mutexes whose order numbers pass the compile-time test for repetitions; adding to
   a lock also needs the test of the last held against the first added. A mutex is taken when no
   thread holds it.
   */
  ghost predicate Enabled(s: Threads, e: Event) {
    match e
    case Spawn(t) => t !in s
    case BeginLock(t, ms) =>
      t in s && Idle(s[t]) && s[t].held == [] && !IsThereRepeatingOrder(ms, OrderOf())
    case BeginPushBack(t, ms) =>
      && t in s && Idle(s[t]) && s[t].held != [] && ms != []
      && !IsThereRepeatingOrder(ms, OrderOf()) && LastBelowFirst(s[t].held, ms, OrderOf())
    case Take(t) => t in s && s[t].todo != [] && Free(s, s[t].todo[0])
    case Throw(t) => t in s && s[t].todo != []
    case BeginUnlock(t) => t in s && Idle(s[t]) && s[t].held != []
    case Drop(t) => t in s && s[t].dropping.Some? && s[t].held != []
  }

  function Dropped(th: Thread): Thread
    requires th.held != [] && th.dropping.Some?
  {
    var n := |th.held| - 1;
    th.(held := th.held[..n], dropping := if n <= th.dropping.value then None else th.dropping)
  }

  ghost function Next(s: Threads, e: Event): Threads
    requires Enabled(s, e)
  {
    match e
    case Spawn(t) => s[t := NEW_THREAD]
    case BeginLock(t, ms) => s[t := s[t].(todo := InLockOrder(ms), base := 0)]
    case BeginPushBack(t, ms) => s[t := s[t].(todo := InLockOrder(ms), base := |s[t].held|)]
    case Take(t) => s[t := s[t].(held := s[t].held + [s[t].todo[0]], todo := s[t].todo[1..])]
    case Throw(t) =>
      s[t := s[t].(todo := [], dropping := if |s[t].held| <= s[t].base then None else Some(s[t].base))]
    case BeginUnlock(t) => s[t := s[t].(dropping := Some(0))]
    case Drop(t) => s[t := Dropped(s[t])]
  }

  ghost predicate Step(s: Threads, s': Threads) {
    exists e :: Enabled(s, e) && s' == Next(s, e)
  }

  ghost predicate IsRun(tr: seq<Threads>) {
    |tr| > 0 && tr[0] == map[] && forall i :: 0 <= i < |tr| - 1 ==> Step(tr[i], tr[i + 1])
  }

  // ----- the invariant -----

  /** What a thread holds, followed by what it will take, is in strictly increasing order. */
  ghost predicate ThreadOk(th: Thread) {
    && Ascending(th.held + th.todo)
    && (th.dropping.Some? ==> th.todo == [] && th.dropping.value < |th.held|)
    && (th.todo != [] ==> th.base <= |th.held|)
  }

  ghost predicate Exclusive(s: Threads) {
    forall t, u, m :: t in s && u in s && m in s[t].held && m in s[u].held ==> t == u
  }

  ghost predicate Inv(s: Threads) {
    Exclusive(s) && forall t :: t in s ==> ThreadOk(s[t])
  }

  lemma NoRepetitionMeans(ms: seq<Mutex>)
    requires !IsThereRepeatingOrder(ms, OrderOf())
    ensures NoRepeats(ms)
  {
    NeighbourTestIsExact(ms, OrderOf());
    forall i, j | 0 <= i < j < |ms|
      ensures ms[i].order != ms[j].order
    {
      assert OrderOf()(ms[i]) != OrderOf()(ms[j]);
    }
  }

  lemma PushBackKeepsOrder(held: seq<Mutex>, ms: seq<Mutex>)
    requires Ascending(held) && held != [] && ms != []
    requires !IsThereRepeatingOrder(ms, OrderOf()) && LastBelowFirst(held, ms, OrderOf())
    ensures Ascending(held + InLockOrder(ms))
  {
    NoRepetitionMeans(ms);
    TakenInOrder(ms);
    LastFirstTestIsExact(held, ms, OrderOf());
    var todo := InLockOrder(ms);
    forall i, j | 0 <= i < j < |held + todo|
      ensures (held + todo)[i].order < (held + todo)[j].order
    {
      if i < |held| <= j {
        assert held[i] in held && todo[j - |held|] in todo;
        assert OrderOf()(held[i]) < OrderOf()(todo[j - |held|]);
      }
    }
  }

  lemma LockKeepsThread(th: Thread, ms: seq<Mutex>)
    requires Idle(th) && th.held == [] && !IsThereRepeatingOrder(ms, OrderOf())
    ensures ThreadOk(th.(todo := InLockOrder(ms), base := 0))
  {
    NoRepetitionMeans(ms);
    TakenInOrder(ms);
    assert [] + InLockOrder(ms) == InLockOrder(ms);
  }

  lemma TakeKeepsThread(th: Thread)
    requires ThreadOk(th) && th.todo != []
    ensures ThreadOk(th.(held := th.held + [th.todo[0]], todo := th.todo[1..]))
  {
    assert th.held + [th.todo[0]] + th.todo[1..] == th.held + th.todo;
  }

  lemma FewerKeepThread(th: Thread, n: nat, dropping: Option<nat>)
    requires ThreadOk(th) && n <= |th.held| && (dropping.Some? ==> dropping.value < n)
    ensures ThreadOk(th.(held := th.held[..n], todo := [], dropping := dropping))
  {
    assert th.held[..n] + [] == (th.held + th.todo)[..n];
  }

  /** What a thread holds changes only by taking a free mutex or by releasing. */
  lemma EventKeepsThread(s: Threads, e: Event)
    requires Inv(s) && Enabled(s, e) && !e.Spawn?
    ensures e.t in s && ThreadOk(Next(s, e)[e.t])
  {
    var th := s[e.t];
    assert ThreadOk(th) && th.held[..|th.held|] == th.held;
    match e
    case BeginLock(_, ms) => LockKeepsThread(th, ms);
    case BeginPushBack(_, ms) =>
      assert th.held + [] == th.held;
      PushBackKeepsOrder(th.held, ms);
    case Take(_) => TakeKeepsThread(th);
    case Throw(_) => FewerKeepThread(th, |th.held|, Next(s, e)[e.t].dropping);
    case BeginUnlock(_) =>
    case Drop(_) => FewerKeepThread(th, |th.held| - 1, Dropped(th).dropping);
  }

  lemma EventKeepsExclusive(s: Threads, e: Event)
    requires Inv(s) && Enabled(s, e)
    ensures Exclusive(Next(s, e))
  {
    var s' := Next(s, e);
    forall t, u, m | t in s' && u in s' && m in s'[t].held && m in s'[u].held
      ensures t == u
    {
      assert forall v :: v in s' && m in s'[v].held ==>
          (v in s && m in s[v].held) || (e == Take(v) && m == s[v].todo[0]);
    }
  }

  lemma EventKeeps(s: Threads, e: Event)
    requires Inv(s) && Enabled(s, e)
    ensures Inv(Next(s, e))
  {
    EventKeepsExclusive(s, e);
    if !e.Spawn? {
      EventKeepsThread(s, e);
    }
  }

  lemma {:induction false} Always(tr: seq<Threads>, i: nat)
    requires IsRun(tr) && i < |tr|
    ensures Inv(tr[i])
  {
    if i > 0 {
      Always(tr, i - 1);
      assert Step(tr[i - 1], tr[i]);
      var e :| Enabled(tr[i - 1], e) && tr[i] == Next(tr[i - 1], e);
      EventKeeps(tr[i - 1], e);
    }
  }

  // ----- waiting -----

  ghost predicate Wants(s: Threads, t: nat) {
    t in s && s[t].todo != []
  }

  /** Thread t waits for thread u: the mutex it needs next is held by u. */
  ghost predicate WaitsFor(s: Threads, t: nat, u: nat) {
    Wants(s, t) && u in s && s[t].todo[0] in s[u].held
  }

  /** If the one waited for waits too, it needs a mutex of a higher order. */
  lemma WaitingClimbs(s: Threads, t: nat, u: nat)
    requires Inv(s) && WaitsFor(s, t, u) && Wants(s, u)
    ensures s[t].todo[0].order < s[u].todo[0].order
  {
    var th, m := s[u], s[t].todo[0];
    assert ThreadOk(th);
    var i :| 0 <= i < |th.held| && th.held[i] == m;
    assert (th.held + th.todo)[i] == m && (th.held + th.todo)[|th.held|] == th.todo[0];
  }

  ghost predicate WaitPath(s: Threads, p: seq<nat>) {
    forall i :: 0 <= i < |p| - 1 ==> WaitsFor(s, p[i], p[i + 1])
  }

  lemma {:induction false} PathClimbs(s: Threads, p: seq<nat>, k: nat)
    requires Inv(s) && WaitPath(s, p) && 0 < k < |p| && Wants(s, p[k])
    ensures Wants(s, p[0]) && s[p[0]].todo[0].order < s[p[k]].todo[0].order
  {
    assert WaitsFor(s, p[k - 1], p[k]);
    WaitingClimbs(s, p[k - 1], p[k]);
    if k > 1 {
      PathClimbs(s, p, k - 1);
    }
  }

  /** In no reachable state do threads wait for one another in a circle. */
  lemma NoCircularWait(tr: seq<Threads>, i: nat, p: seq<nat>)
    requires IsRun(tr) && i < |tr| && |p| > 1 && WaitPath(tr[i], p)
    ensures p[0] != p[|p| - 1]
  {
    Always(tr, i);
    assert WaitsFor(tr[i], p[0], p[1]);
    if p[0] == p[|p| - 1] {
      PathClimbs(tr[i], p, |p| - 1);
    }
  }

  ghost function WantsAbove(s: Threads, order: int): set<nat> {
    set t | t in s && s[t].todo != [] && s[t].todo[0].order > order
  }

  /** A step that needs nobody else: taking a free mutex, releasing, or unlocking. */
  ghost predicate Moves(s: Threads, u: nat, e: Event) {
    Enabled(s, e) && (e == Take(u) || e == Drop(u) || e == BeginUnlock(u))
  }

  /** From a thread that wants a mutex, the threads waited for lead to one that can move. */
  lemma {:induction false} SomeoneAheadMoves(s: Threads, t: nat) returns (p: seq<nat>, e: Event)
    requires Inv(s) && Wants(s, t)
    ensures |p| > 0 && p[0] == t && WaitPath(s, p) && Moves(s, p[|p| - 1], e)
    decreases WantsAbove(s, s[t].todo[0].order)
  {
    p := [t];
    if Free(s, s[t].todo[0]) {
      e := Take(t);
    } else {
      var u :| u in s && s[t].todo[0] in s[u].held;
      assert ThreadOk(s[u]);
      if Wants(s, u) {
        WaitingClimbs(s, t, u);
        Smaller(s, t, u);
        var q;
        q, e := SomeoneAheadMoves(s, u);
        p := [t] + q;
        assert forall i :: 0 < i < |p| - 1 ==> p[i] == q[i - 1] && p[i + 1] == q[i];
      } else {
        p := [t, u];
        e := if s[u].dropping.Some? then Drop(u) else BeginUnlock(u);
      }
    }
  }

  lemma Smaller(s: Threads, t: nat, u: nat)
    requires Wants(s, t) && Wants(s, u) && s[t].todo[0].order < s[u].todo[0].order
    ensures WantsAbove(s, s[u].todo[0].order) < WantsAbove(s, s[t].todo[0].order)
  {
    assert u in WantsAbove(s, s[t].todo[0].order) && u !in WantsAbove(s, s[u].todo[0].order);
  }

  /**
   In every reachable state, as long as some thread holds or wants a mutex, some thread can move;
   and whoever waits, waits in the end for such a thread.
   */
  lemma SomeThreadCanStep(tr: seq<Threads>, i: nat, t: nat) returns (u: nat, e: Event)
    requires IsRun(tr) && i < |tr| && t in tr[i] && (tr[i][t].held != [] || tr[i][t].todo != [])
    ensures Moves(tr[i], u, e)
    ensures Wants(tr[i], t) ==> exists p :: |p| > 0 && p[0] == t && p[|p| - 1] == u && WaitPath(tr[i], p)
  {
    Always(tr, i);
    if Wants(tr[i], t) {
      var p;
      p, e := SomeoneAheadMoves(tr[i], t);
      u := p[|p| - 1];
    } else {
      u := t;
      e := if tr[i][t].dropping.Some? then Drop(t) else BeginUnlock(t);
    }
  }

  /** Every thread takes its mutexes in strictly increasing order, and none is held by two threads. */
  lemma TakenInIncreasingOrder(tr: seq<Threads>, i: nat, t: nat)
    requires IsRun(tr) && i < |tr| && t in tr[i]
    ensures Ascending(tr[i][t].held + tr[i][t].todo)
    ensures forall u, m :: u in tr[i] && u != t && m in tr[i][t].held ==> m !in tr[i][u].held
  {
    Always(tr, i);
    assert ThreadOk(tr[i][t]);
  }

  // ----- a lock that throws -----

  /** The step from s to s' begins a lock of ms by thread t. */
  ghost predicate Begins(s: Threads, s': Threads, t: nat, ms: seq<Mutex>) {
    || (Enabled(s, BeginLock(t, ms)) && s' == Next(s, BeginLock(t, ms)))
    || (Enabled(s, BeginPushBack(t, ms)) && s' == Next(s, BeginPushBack(t, ms)))
  }

  /** A thread takes ms, as Lock.LockAll does: what it has taken and what it has still to take are their lock order. */
  ghost predicate IsTaking(th: Thread, before: seq<Mutex>, ms: seq<Mutex>) {
    && th.base <= |th.held| && th.held[..th.base] == before
    && th.held[th.base..] + th.todo == InLockOrder(ms)
  }

  /** Taking a mutex keeps what was held when the lock began, and the lock order. */
  lemma TakingGoesOn(s: Threads, e: Event, t: nat, before: seq<Mutex>, ms: seq<Mutex>)
    requires Enabled(s, e) && t in s && t in Next(s, e) && s[t].todo != [] && Next(s, e)[t].todo != []
    requires ThreadOk(s[t]) && IsTaking(s[t], before, ms)
    ensures IsTaking(Next(s, e)[t], before, ms)
  {
    var th, th' := s[t], Next(s, e)[t];
    if th' != th {
      assert th'.held[..th.base] == th.held[..th.base];
      assert th'.held[th.base..] + th'.todo == th.held[th.base..] + th.todo;
    }
  }

  lemma ThreadAlways(tr: seq<Threads>, i: nat, t: nat)
    requires IsRun(tr) && i < |tr| && t in tr[i]
    ensures ThreadOk(tr[i][t])
  {
    Always(tr, i);
  }

  lemma OnlyBeginningsBegin(s: Threads, e: Event, t: nat) returns (ms: seq<Mutex>)
    requires Enabled(s, e) && t in Next(s, e) && Next(s, e)[t].todo != [] && (t !in s || s[t].todo == [])
    ensures t in s && Begins(s, Next(s, e), t, ms) && IsTaking(Next(s, e)[t], s[t].held, ms)
  {
    ms := e.ms;
    assert Next(s, e)[t].held[|s[t].held|..] + InLockOrder(ms) == InLockOrder(ms);
  }

  /** Where in the run the lock a thread is taking began, over which mutexes, and how far it has come. */
  lemma WhereItBegan(tr: seq<Threads>, i: nat, t: nat) returns (k: nat, ms: seq<Mutex>)
    requires IsRun(tr) && i < |tr| && Wants(tr[i], t)
    ensures k < i && t in tr[k] && Begins(tr[k], tr[k + 1], t, ms)
    ensures forall j :: k < j <= i ==> Wants(tr[j], t)
    ensures IsTaking(tr[i][t], tr[k][t].held, ms)
  {
    var wants := seq(|tr|, j requires 0 <= j < |tr| => Wants(tr[j], t));
    k := LastBeginning(wants, i);
    assert !wants[k] && wants[k + 1];
    ms := BeginningAt(tr, k, t);
    forall j | k < j <= i
      ensures Wants(tr[j], t)
    {
      assert wants[j];
    }
    TakingPersists(tr, k + 1, i, t, tr[k][t].held, ms);
  }

  lemma BeginningAt(tr: seq<Threads>, k: nat, t: nat) returns (ms: seq<Mutex>)
    requires IsRun(tr) && k + 1 < |tr| && !Wants(tr[k], t) && Wants(tr[k + 1], t)
    ensures t in tr[k] && Begins(tr[k], tr[k + 1], t, ms) && IsTaking(tr[k + 1][t], tr[k][t].held, ms)
  {
    assert Step(tr[k], tr[k + 1]);
    ms := BeginningStep(tr[k], tr[k + 1], t);
  }

  lemma TakingAt(tr: seq<Threads>, j: nat, t: nat, before: seq<Mutex>, ms: seq<Mutex>)
    requires IsRun(tr) && j + 1 < |tr| && Wants(tr[j], t) && Wants(tr[j + 1], t) && IsTaking(tr[j][t], before, ms)
    ensures IsTaking(tr[j + 1][t], before, ms)
  {
    ThreadAlways(tr, j, t);
    assert Step(tr[j], tr[j + 1]);
    TakingStep(tr[j], tr[j + 1], t, before, ms);
  }

  lemma TakingPersists(tr: seq<Threads>, k: nat, i: nat, t: nat, before: seq<Mutex>, ms: seq<Mutex>)
    requires IsRun(tr) && k <= i < |tr| && (forall j :: k <= j <= i ==> Wants(tr[j], t))
    requires Wants(tr[k], t) && IsTaking(tr[k][t], before, ms)
    ensures Wants(tr[i], t) && IsTaking(tr[i][t], before, ms)
  {
    var holds := seq(i + 1, j requires 0 <= j <= i => Wants(tr[j], t) && IsTaking(tr[j][t], before, ms));
    forall j | k <= j < i && holds[j]
      ensures holds[j + 1]
    {
      TakingAt(tr, j, t, before, ms);
    }
    Persists(holds, k, i);
  }

  lemma TakingStep(s: Threads, s': Threads, t: nat, before: seq<Mutex>, ms: seq<Mutex>)
    requires Step(s, s') && Wants(s, t) && Wants(s', t) && ThreadOk(s[t]) && IsTaking(s[t], before, ms)
    ensures IsTaking(s'[t], before, ms)
  {
    var e :| Enabled(s, e) && s' == Next(s, e);
    TakingGoesOn(s, e, t, before, ms);
  }

  lemma BeginningStep(s: Threads, s': Threads, t: nat) returns (ms: seq<Mutex>)
    requires Step(s, s') && !Wants(s, t) && Wants(s', t)
    ensures t in s && Begins(s, s', t, ms) && IsTaking(s'[t], s[t].held, ms)
  {
    var e :| Enabled(s, e) && s' == Next(s, e);
    ms := OnlyBeginningsBegin(s, e, t);
  }

  ghost predicate DropRun(tr: seq<Threads>, t: nat) {
    forall i :: 0 <= i < |tr| - 1 ==> Enabled(tr[i], Drop(t)) && tr[i + 1] == Next(tr[i], Drop(t))
  }

  /** A thread that releases can go on, latest first, until it holds what it means to keep. */
  lemma {:induction false} ReleasesDownTo(s: Threads, t: nat) returns (tr: seq<Threads>)
    requires Inv(s) && t in s && s[t].dropping.Some?
    ensures |tr| > 1 && tr[0] == s && DropRun(tr, t) && t in tr[|tr| - 1] && Idle(tr[|tr| - 1][t])
    ensures s[t].dropping.value <= |s[t].held| && tr[|tr| - 1][t].held == s[t].held[..s[t].dropping.value]
    decreases |s[t].held|
  {
    assert ThreadOk(s[t]);
    var s' := Next(s, Drop(t));
    EventKeeps(s, Drop(t));
    if s'[t].dropping.Some? {
      var rest := ReleasesDownTo(s', t);
      tr := [s] + rest;
      assert forall i :: 0 < i < |tr| - 1 ==> tr[i] == rest[i - 1] && tr[i + 1] == rest[i];
      assert s'[t].held[..s[t].dropping.value] == s[t].held[..s[t].dropping.value];
    } else {
      tr := [s, s'];
    }
  }

  /** What a thread holds changes by exactly the mutex calls its steps stand for. */
  lemma HeldFollowsTheCalls(s: Threads, t: nat)
    requires t in s
    ensures Enabled(s, Take(t)) ==>
              Replay(s[t].held, [Acquire(s[t].todo[0])]) == Some(Next(s, Take(t))[t].held)
    ensures Enabled(s, Drop(t)) ==> ReleasesLast(s, Next(s, Drop(t)), t)
  {
  }

  /** The thread unlocks the mutex it locked last. */
  ghost predicate ReleasesLast(s: Threads, s': Threads, t: nat) {
    && t in s && t in s' && s[t].held != []
    && Replay(s[t].held, [Release(s[t].held[|s[t].held| - 1])]) == Some(s'[t].held)
  }

  lemma DropsAreReleases(tr: seq<Threads>, t: nat)
    requires DropRun(tr, t)
    ensures forall i :: 0 <= i < |tr| - 1 ==> ReleasesLast(tr[i], tr[i + 1], t)
  {
    forall i | 0 <= i < |tr| - 1
      ensures ReleasesLast(tr[i], tr[i + 1], t)
    {
      HeldFollowsTheCalls(tr[i], t);
    }
  }

  /**
   Whenever the lock of a mutex throws: it was begun at some step k over some mutexes, of which the
   thread has taken the first few in lock order; and the thread's own steps from there, none of
   which can block, release those latest first until it holds exactly what it held at step k.
   */
  lemma ThrowGoesBackToBase(tr: seq<Threads>, i: nat, t: nat)
    returns (k: nat, ms: seq<Mutex>, after: seq<Threads>)
    requires IsRun(tr) && i < |tr| && Enabled(tr[i], Throw(t))
    ensures k < i && t in tr[k] && Begins(tr[k], tr[k + 1], t, ms) && forall j :: k < j <= i ==> Wants(tr[j], t)
    ensures IsTaking(tr[i][t], tr[k][t].held, ms)
    ensures |after| > 0 && after[0] == Next(tr[i], Throw(t)) && DropRun(after, t)
    ensures forall j :: 0 <= j < |after| - 1 ==> ReleasesLast(after[j], after[j + 1], t)
    ensures t in after[|after| - 1] && Idle(after[|after| - 1][t]) && after[|after| - 1][t].held == tr[k][t].held
  {
    k, ms := WhereItBegan(tr, i, t);
    Always(tr, i);
    var s := Next(tr[i], Throw(t));
    EventKeeps(tr[i], Throw(t));
    if s[t].dropping.Some? {
      after := ReleasesDownTo(s, t);
    } else {
      after := [s];
      assert s[t].held[..|s[t].held|] == s[t].held;
    }
    DropsAreReleases(after, t);
  }

  // ----- a lock that does not throw, and an unlock -----

  /** A lock sets out to take exactly its mutexes, in their order, after those the thread holds. */
  lemma LockSetsOut(s: Threads, s': Threads, t: nat, ms: seq<Mutex>)
    requires Begins(s, s', t, ms)
    ensures t in s && t in s' && s'[t].held == s[t].held && IsTaking(s'[t], s[t].held, ms)
  {
    assert s'[t].held[|s[t].held|..] == [];
    assert s[t].held == [] ==> s'[t].held[0..] + InLockOrder(ms) == InLockOrder(ms);
  }

  lemma LastTake(th: Thread, before: seq<Mutex>, ms: seq<Mutex>)
    requires ThreadOk(th) && |th.todo| == 1 && IsTaking(th, before, ms)
    ensures th.held + [th.todo[0]] == before + InLockOrder(ms) && th.dropping.None?
  {
    assert th.held + [th.todo[0]] == th.held[..th.base] + (th.held[th.base..] + th.todo);
  }

  /**
   When a thread takes the last mutex its lock wants, it holds what it held at the step where that
   lock began and, after it, all the mutexes of the lock in their order.
   */
  lemma LockTakesAll(tr: seq<Threads>, i: nat, t: nat) returns (k: nat, ms: seq<Mutex>)
    requires IsRun(tr) && i < |tr| && Enabled(tr[i], Take(t)) && |tr[i][t].todo| == 1
    ensures k < i && t in tr[k] && Begins(tr[k], tr[k + 1], t, ms)
    ensures var th := Next(tr[i], Take(t))[t]; Idle(th) && th.held == tr[k][t].held + InLockOrder(ms)
  {
    k, ms := WhereItBegan(tr, i, t);
    ThreadAlways(tr, i, t);
    LastTake(tr[i][t], tr[k][t].held, ms);
  }

  /** An unlock releases all a thread holds, latest first, by steps none of which can block. */
  lemma UnlockReleasesAll(tr: seq<Threads>, i: nat, t: nat) returns (after: seq<Threads>)
    requires IsRun(tr) && i < |tr| && Enabled(tr[i], BeginUnlock(t))
    ensures |after| > 0 && after[0] == Next(tr[i], BeginUnlock(t)) && DropRun(after, t)
    ensures forall j :: 0 <= j < |after| - 1 ==> ReleasesLast(after[j], after[j + 1], t)
    ensures t in after[|after| - 1] && Idle(after[|after| - 1][t]) && after[|after| - 1][t].held == []
  {
    Always(tr, i);
    EventKeeps(tr[i], BeginUnlock(t));
    after := ReleasesDownTo(Next(tr[i], BeginUnlock(t)), t);
    DropsAreReleases(after, t);
  }
}
