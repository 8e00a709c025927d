/** The watcher that pings a quiet connection and deactivates one that does not respond. */
module Heartbeat {
  import opened Prelude

  datatype Watch = Watch(active: bool, start: Option<real>)

  const NEW_WATCH: Watch := Watch(true, None)

  predicate NotResponding(w: Watch, now: real, timeout: real) {
    w.start.Some? && now > w.start.value + timeout
  }

  /**
   What happens to a watcher: a message has been dispatched, or the watch timer ticks. A tick
   reads the clock once to judge the connection and, having sent a ping, once more.
   */
  datatype Event = Activity(at: real) | Tick(check: real, mark: real)

  predicate Deactivates(w: Watch, e: Event, timeout: real) {
    e.Tick? && NotResponding(w, e.check, timeout)
  }

  predicate Pings(w: Watch, e: Event, timeout: real) {
    e.Tick? && !NotResponding(w, e.check, timeout) && !w.active
  }

  function Next(w: Watch, e: Event, timeout: real): Watch {
    if e.Activity? then Watch(true, None)
    else if Deactivates(w, e, timeout) then w
    else if w.active then w.(active := false)
    else if w.start.Some? then w
    else w.(start := Some(e.mark))
  }

  class ConnectionWatcher {
    const pingPeriod: real
    var activityFlag: bool
    var startPingWaiting: Option<real>

    ghost function View(): Watch
      reads this
    {
      Watch(activityFlag, startPingWaiting)
    }

    constructor (pingPeriod: real)
      ensures View() == NEW_WATCH && this.pingPeriod == pingPeriod
    {
      this.pingPeriod := pingPeriod;
      activityFlag := true;
      startPingWaiting := None;
    }

    method CheckAndDropActivityFlag() returns (r: bool)
      modifies this`activityFlag
      ensures r == old(activityFlag) && !activityFlag
    {
      r := activityFlag;
      activityFlag := false;
    }

    method SetActivityFlag(at: real)
      modifies this
      ensures View() == Next(old(View()), Activity(at), pingPeriod)
    {
      activityFlag := true;
      startPingWaiting := None;
    }

    method SetPingWaiting(now: real)
      modifies this`startPingWaiting
      ensures startPingWaiting == if old(startPingWaiting).Some? then old(startPingWaiting) else Some(now)
    {
      if startPingWaiting.None? {
        startPingWaiting := Some(now);
      }
    }

    /** One tick of the connection's watch timer. */
    method ProcessWatchEvent(check: real, mark: real) returns (deactivate: bool, ping: bool)
      modifies this
      ensures deactivate == Deactivates(old(View()), Tick(check, mark), pingPeriod)
      ensures ping == Pings(old(View()), Tick(check, mark), pingPeriod)
      ensures View() == Next(old(View()), Tick(check, mark), pingPeriod)
    {
      deactivate, ping := false, false;
      if startPingWaiting.Some? && check > startPingWaiting.value + pingPeriod {
        deactivate := true;
      } else {
        var active := CheckAndDropActivityFlag();
        if !active {
          ping := true;
          SetPingWaiting(mark);
        }
      }
    }
  }

  // ----- runs -----

  /** The watcher before event i. */
  function Before(es: seq<Event>, timeout: real, i: nat): Watch
    requires i <= |es|
  {
    if i == 0 then NEW_WATCH else Next(Before(es, timeout, i - 1), es[i - 1], timeout)
  }

  function First(e: Event): real {
    if e.Activity? then e.at else e.check
  }

  function Last(e: Event): real {
    if e.Activity? then e.at else e.mark
  }

  /** The clock never runs backwards. */
  predicate Ordered(es: seq<Event>) {
    && (forall i :: 0 <= i < |es| ==> First(es[i]) <= Last(es[i]))
    && (forall i :: 0 <= i < |es| - 1 ==> Last(es[i]) <= First(es[i + 1]))
  }

  ghost predicate Silent(es: seq<Event>, from: nat, to: nat)
    requires to <= |es|
  {
    forall k :: from <= k < to ==> es[k].Tick?
  }

  /** Event j sent a ping, and no message has been dispatched since. */
  ghost predicate Unanswered(es: seq<Event>, timeout: real, j: nat, i: nat)
    requires j < i <= |es|
  {
    Pings(Before(es, timeout, j), es[j], timeout) && Silent(es, j, i)
  }

  lemma {:induction false} WaitingSinceAPing(es: seq<Event>, timeout: real, i: nat) returns (j: nat)
    requires i <= |es| && Before(es, timeout, i).start.Some?
    ensures j < i && Unanswered(es, timeout, j, i) && es[j].mark == Before(es, timeout, i).start.value
  {
    j := i - 1;
    if Before(es, timeout, i - 1).start.Some? {
      j := WaitingSinceAPing(es, timeout, i - 1);
    }
  }

  lemma {:induction false} StillWaiting(es: seq<Event>, timeout: real, j: nat, i: nat)
    requires j < i <= |es| && Ordered(es) && Unanswered(es, timeout, j, i)
    ensures Before(es, timeout, i).start.Some? && Before(es, timeout, i).start.value <= es[j].mark
    decreases i
  {
    if i == j + 1 {
      if Before(es, timeout, j).start.Some? {
        var p := WaitingSinceAPing(es, timeout, j);
        InOrder(es, p, j);
      }
    } else {
      StillWaiting(es, timeout, j, i - 1);
    }
  }

  lemma {:induction false} InOrder(es: seq<Event>, i: nat, j: nat)
    requires Ordered(es) && i < j < |es|
    ensures Last(es[i]) <= First(es[j])
    decreases j
  {
    if i + 1 < j {
      InOrder(es, i, j - 1);
    }
  }

  /**
   Exactly when the watcher gives a connection up: a ping was sent, nothing has been dispatched
   since, and more than the timeout has passed since it was sent.
   */
  lemma DeactivatesIff(es: seq<Event>, timeout: real, i: nat)
    requires Ordered(es) && i < |es| && es[i].Tick?
    ensures Deactivates(Before(es, timeout, i), es[i], timeout)
       <==> exists j :: 0 <= j < i && Unanswered(es, timeout, j, i) && es[i].check > es[j].mark + timeout
  {
    if Deactivates(Before(es, timeout, i), es[i], timeout) {
      var j := WaitingSinceAPing(es, timeout, i);
    }
    forall j | 0 <= j < i && Unanswered(es, timeout, j, i) && es[i].check > es[j].mark + timeout
      ensures Deactivates(Before(es, timeout, i), es[i], timeout)
    {
      StillWaiting(es, timeout, j, i);
    }
  }

  lemma {:induction false} WaitingMeansQuiet(es: seq<Event>, timeout: real, i: nat)
    requires i <= |es|
    ensures Before(es, timeout, i).start.Some? ==> !Before(es, timeout, i).active
  {
    if i > 0 {
      WaitingMeansQuiet(es, timeout, i - 1);
    }
  }

  /**
   A tick pings exactly when nothing has been dispatched since the tick before it, and it does not
   give the connection up: it pings again at every tick while no answer comes.
   */
  lemma PingsIff(es: seq<Event>, timeout: real, i: nat)
    requires i < |es| && es[i].Tick?
    ensures Pings(Before(es, timeout, i), es[i], timeout)
       <==> i > 0 && es[i - 1].Tick? && !Deactivates(Before(es, timeout, i), es[i], timeout)
  {
    if i > 0 {
      WaitingMeansQuiet(es, timeout, i - 1);
    }
  }

  /** Two ticks with nothing dispatched between them, and nothing since. */
  ghost predicate QuietSince(es: seq<Event>, j: nat, i: nat)
    requires j < i <= |es|
  {
    0 < j && es[j - 1].Tick? && es[j].Tick? && Silent(es, j, i)
  }

  /**
   The same from the events alone: a connection is given up exactly when, of two ticks with nothing
   dispatched between them and nothing since, the second was over more than the timeout ago.
   */
  lemma GivenUpIff(es: seq<Event>, timeout: real, i: nat)
    requires Ordered(es) && i < |es| && es[i].Tick?
    ensures Deactivates(Before(es, timeout, i), es[i], timeout)
       <==> exists j :: 0 <= j < i && QuietSince(es, j, i) && es[i].check > es[j].mark + timeout
  {
    DeactivatesIff(es, timeout, i);
    if Deactivates(Before(es, timeout, i), es[i], timeout) {
      var j :| 0 <= j < i && Unanswered(es, timeout, j, i) && es[i].check > es[j].mark + timeout;
      PingsIff(es, timeout, j);
      assert QuietSince(es, j, i);
    }
    forall j | 0 <= j < i && QuietSince(es, j, i) && es[i].check > es[j].mark + timeout
      ensures Deactivates(Before(es, timeout, i), es[i], timeout)
    {
      QuietIsGivenUp(es, timeout, j, i);
    }
  }

  lemma QuietIsGivenUp(es: seq<Event>, timeout: real, j: nat, i: nat)
    requires Ordered(es) && j < i < |es| && es[i].Tick? && QuietSince(es, j, i) && es[i].check > es[j].mark + timeout
    ensures Deactivates(Before(es, timeout, i), es[i], timeout)
  {
    PingsIff(es, timeout, j);
    if Deactivates(Before(es, timeout, j), es[j], timeout) {
      DeactivatesIff(es, timeout, j);
      var k :| 0 <= k < j && Unanswered(es, timeout, k, j) && es[j].check > es[k].mark + timeout;
      InOrder(es, j, i);
      assert Unanswered(es, timeout, k, i);
    } else {
      assert Unanswered(es, timeout, j, i);
    }
    DeactivatesIff(es, timeout, i);
  }

  // ----- how long it takes -----

  /** Every tick from s on is over within one period of the start of the one before (of a, the first). */
  ghost predicate TicksEvery(es: seq<Event>, period: real, s: nat, a: real) {
    && (s < |es| ==> Last(es[s]) <= a + period)
    && (forall k :: s <= k < |es| - 1 ==> Last(es[k + 1]) <= First(es[k]) + period)
  }

  lemma {:induction false} WaitingStays(es: seq<Event>, timeout: real, i: nat, k: nat)
    requires i <= k <= |es| && Silent(es, i, k) && Before(es, timeout, i).start.Some?
    ensures Before(es, timeout, k).start == Before(es, timeout, i).start
  {
    if i < k {
      WaitingStays(es, timeout, i, k - 1);
    }
  }

  /** The first tick later than a given time comes at most a period after it. */
  lemma {:induction false} FirstTickAfter(es: seq<Event>, period: real, s: nat, a: real, t: real, hi: nat)
    returns (k: nat)
    requires TicksEvery(es, period, s, a) && s < hi < |es| && First(es[s]) <= t < First(es[hi])
    ensures s < k <= hi && First(es[k]) > t && Last(es[k]) <= t + period
    decreases hi
  {
    if First(es[hi - 1]) <= t {
      k := hi;
    } else {
      k := FirstTickAfter(es, period, s, a, t, hi - 1);
    }
  }

  /** From the second silent tick on the watcher waits for a pong, unless it has given up by then. */
  lemma SecondTick(es: seq<Event>, timeout: real, s: nat)
    requires s + 2 <= |es| && Silent(es, s, s + 2) && Ordered(es)
    requires !Deactivates(Before(es, timeout, s + 1), es[s + 1], timeout)
    ensures Before(es, timeout, s + 2).start.Some? && Before(es, timeout, s + 2).start.value <= es[s + 1].mark
  {
    var w := Before(es, timeout, s + 1);
    assert w == Next(Before(es, timeout, s), es[s], timeout);
    if w.start.Some? {
      var p := WaitingSinceAPing(es, timeout, s + 1);
      InOrder(es, p, s + 1);
    }
  }

  /**
   A peer silent since time a (event s is the first after it) is given up by a + 3 periods + the
   timeout, if the watch goes on that long.
   */
  lemma SilentPeerIsGivenUp(es: seq<Event>, timeout: real, period: real, s: nat, a: real) returns (k: nat)
    requires Ordered(es) && timeout >= 0.0 && s < |es| && Silent(es, s, |es|)
    requires TicksEvery(es, period, s, a) && period >= 0.0
    requires es[|es| - 1].check > a + period + period + timeout
    ensures s <= k < |es| && Deactivates(Before(es, timeout, k), es[k], timeout)
    ensures es[k].mark <= a + period + period + period + timeout
  {
    k := s + 1;
    if !Deactivates(Before(es, timeout, s + 1), es[s + 1], timeout) {
      SecondTick(es, timeout, s);
      var t := Before(es, timeout, s + 2).start.value + timeout;
      k := FirstTickAfter(es, period, s + 1, es[s].check, t, |es| - 1);
      WaitingStays(es, timeout, s + 2, k);
    }
  }
}
