/**
 The producer side of a future: a move-only promise object that carries the right to settle one
 controller. Several threads may compete to settle it, the object may be moved or dropped.
 */
module Promise {
  import opened Prelude
  import opened FutureController

  /** What a producer can leave in a controller. */
  datatype Fault = Thrown(code: int) | BrokenPromise

  datatype Offer = Value(v: int) | Exception(e: Fault)

  /** What a call to set_value or set_exception reports to its caller. */
  datatype Verdict = Claimed | PromiseInvalid | AlreadySatisfied | NullException

  // ----- the code -----

  class PromiseObject<K> {
    var controller: Option<Controller<int, Fault, K>>
    var pending: bool

    constructor Empty()
      ensures controller == None && !pending
    {
      controller, pending := None, false;
    }

    constructor (pool: ThreadPool<K>)
      ensures controller.Some? && fresh(controller.value) && controller.value.pool == pool && pending
      ensures controller.value.View() == Ctl(None, None, [], [])
    {
      var c := new Controller(pool);
      controller, pending := Some(c), true;
    }

    /** Move construction. */
    constructor Move(other: PromiseObject<K>)
      modifies other
      ensures controller == old(other.controller) && pending == old(other.pending)
      ensures other.controller == None && !other.pending
    {
      controller, pending := other.controller, other.pending;
      new;
      other.controller, other.pending := None, false;
    }

    /** Move assignment: an unsettled promise that is overwritten breaks. */
    method Assign(other: PromiseObject<K>)
      modifies this, other
      modifies if controller.Some? then {controller.value, controller.value.pool} else {}
      ensures this == other ==> controller == old(controller) && pending == old(pending)
      ensures this != other ==>
                && controller == old(other.controller) && pending == old(other.pending)
                && other.controller == None && !other.pending
      ensures old(controller).Some? ==>
                old(controller).value.View()
                == if this != other && old(pending)
                   then old(controller.value.View()).WithException(BrokenPromise)
                   else old(controller.value.View())
    {
      if this != other {
        Abandon();
        controller := other.controller;
        var handed := other.pending;
        other.controller, other.pending := None, false;
        pending := handed;
      }
    }

    /** What the destructor does. */
    method Abandon()
      modifies this`pending
      modifies if controller.Some? then {controller.value, controller.value.pool} else {}
      ensures !pending
      ensures controller.Some? ==>
                controller.value.View()
                == if old(pending) then old(controller.value.View()).WithException(BrokenPromise)
                   else old(controller.value.View())
    {
      var had := pending;
      pending := false;
      if !had || controller.None? {
        return;
      }
      controller.value.SetException(BrokenPromise);
    }

    method ClaimCompletion() returns (verdict: Verdict)
      modifies this`pending
      ensures verdict == if controller.None? then PromiseInvalid
                         else if old(pending) then Claimed else AlreadySatisfied
      ensures pending == (old(pending) && controller.None?)
    {
      if controller.None? {
        return PromiseInvalid;
      }
      var had := pending;
      pending := false;
      return if had then Claimed else AlreadySatisfied;
    }

    /** `fault` is what copying the value throws, if it throws. */
    method SetValue(v: int, fault: Option<int>) returns (verdict: Verdict)
      requires controller.Some? && pending ==> controller.value.val.None?
      modifies this`pending
      modifies if controller.Some? then {controller.value, controller.value.pool} else {}
      ensures verdict == if controller.None? then PromiseInvalid
                         else if old(pending) then Claimed else AlreadySatisfied
      ensures pending == (old(pending) && controller.None?)
      ensures controller.Some? ==>
                controller.value.View()
                == if verdict.Claimed?
                   then (if fault.Some? then old(controller.value.View()).WithException(Thrown(fault.value))
                         else old(controller.value.View()).WithValue(v))
                   else old(controller.value.View())
    {
      verdict := ClaimCompletion();
      if verdict.Claimed? {
        if fault.Some? {
          controller.value.SetException(Thrown(fault.value));
        } else {
          controller.value.SetValueState(v);
        }
      }
    }

    method SetException(e: Option<Fault>) returns (verdict: Verdict)
      modifies this`pending
      modifies if controller.Some? then {controller.value, controller.value.pool} else {}
      ensures verdict == if e.None? then NullException
                         else if controller.None? then PromiseInvalid
                         else if old(pending) then Claimed else AlreadySatisfied
      ensures pending == (old(pending) && !verdict.Claimed?)
      ensures controller.Some? ==>
                controller.value.View()
                == if verdict.Claimed? then old(controller.value.View()).WithException(e.value)
                   else old(controller.value.View())
    {
      if e.None? {
        return NullException;
      }
      verdict := ClaimCompletion();
      if verdict.Claimed? {
        controller.value.SetException(e.value);
      }
    }
  }

  // ----- all promises of a program, and threads competing to settle them -----

  /** A promise object: which controller it holds, and whether settling it is still pending. */
  datatype Obj = Obj(ctl: Option<nat>, pending: bool)

  datatype Slot = Slot(val: Option<int>, exc: Option<Fault>)
  {
    predicate Settled() {
      val.Some? || exc.Some?
    }

    function Put(offer: Offer): Slot {
      match offer
      case Value(v) => this.(val := Some(v))
      case Exception(e) => this.(exc := Some(e))
    }
  }

  /** A thread that has claimed a controller and has not yet settled it. */
  datatype Claim = Claim(obj: nat, ctl: nat, offer: Offer)

  /** History: who is answerable for a controller. */
  datatype Duty = Owner(obj: nat) | Claimer(thread: nat) | Discharged

  /** `won` is history as well: the offer that claimed each controller, if one did. */
  datatype World = World(
    objs: map<nat, Obj>, slots: seq<Slot>, claims: map<nat, Claim>, duty: seq<Duty>, won: seq<Option<Offer>>)

  datatype Act =
    | Construct(obj: nat)
    | Default(obj: nat)
    | MoveConstruct(obj: nat, from: nat)
    | MoveAssign(obj: nat, from: nat)
    | Begin(thread: nat, obj: nat, offer: Offer)
    | Finish(thread: nat, fault: Option<int>)
    | Destroy(obj: nat)

  /** Moving or destroying an object that another thread is settling through is a data race. */
  ghost predicate Quiet(w: World, obj: nat) {
    forall t :: t in w.claims ==> w.claims[t].obj != obj
  }

  ghost predicate Enabled(w: World, a: Act) {
    match a
    case Construct(o) => o !in w.objs
    case Default(o) => o !in w.objs
    case MoveConstruct(o, f) => o !in w.objs && f in w.objs && Quiet(w, f)
    case MoveAssign(o, f) => o in w.objs && f in w.objs && Quiet(w, o) && Quiet(w, f)
    case Begin(t, o, _) => t !in w.claims && o in w.objs
    case Finish(t, fault) => t in w.claims
    case Destroy(o) => o in w.objs && Quiet(w, o)
  }

  const EMPTY: Obj := Obj(None, false)

  ghost predicate Live(w: World, o: nat) {
    o in w.objs && w.objs[o].pending && w.objs[o].ctl.Some? && w.objs[o].ctl.value < |w.slots|
  }

  ghost function Abandoned(w: World, o: nat): World
    requires o in w.objs && |w.duty| == |w.slots|
  {
    if Live(w, o) then
      var c := w.objs[o].ctl.value;
      w.(objs := w.objs[o := w.objs[o].(pending := false)],
         slots := w.slots[c := w.slots[c].Put(Exception(BrokenPromise))],
         duty := w.duty[c := Discharged])
    else w.(objs := w.objs[o := w.objs[o].(pending := false)])
  }

  ghost function Handed(w: World, o: nat, f: nat): World
    requires f in w.objs && |w.duty| == |w.slots|
  {
    w.(objs := w.objs[o := w.objs[f]][f := EMPTY],
       duty := if Live(w, f) then w.duty[w.objs[f].ctl.value := Owner(o)] else w.duty)
  }

  ghost function ClaimVerdict(w: World, o: nat): Verdict
    requires o in w.objs
  {
    if w.objs[o].ctl.None? then PromiseInvalid
    else if w.objs[o].pending then Claimed else AlreadySatisfied
  }

  ghost function Do(w: World, a: Act): World
    requires Enabled(w, a) && |w.duty| == |w.slots| == |w.won|
  {
    match a
    case Construct(o) =>
      w.(objs := w.objs[o := Obj(Some(|w.slots|), true)], slots := w.slots + [Slot(None, None)],
         duty := w.duty + [Owner(o)], won := w.won + [None])
    case Default(o) => w.(objs := w.objs[o := EMPTY])
    case MoveConstruct(o, f) => Handed(w, o, f)
    case MoveAssign(o, f) => if o == f then w else Handed(Abandoned(w, o), o, f)
    case Begin(t, o, offer) =>
      if ClaimVerdict(w, o).Claimed? && Live(w, o) then
        var c := w.objs[o].ctl.value;
        w.(objs := w.objs[o := w.objs[o].(pending := false)], claims := w.claims[t := Claim(o, c, offer)],
           duty := w.duty[c := Claimer(t)], won := w.won[c := Some(offer)])
      else w
    case Finish(t, fault) =>
      var k := w.claims[t];
      if k.ctl < |w.slots| then
        var put := if k.offer.Value? && fault.Some? then Exception(Thrown(fault.value)) else k.offer;
        w.(slots := w.slots[k.ctl := w.slots[k.ctl].Put(put)], claims := w.claims - {t},
           duty := w.duty[k.ctl := Discharged])
      else w
    case Destroy(o) =>
      var w' := Abandoned(w, o);
      w'.(objs := w'.objs - {o})
  }

  /** The duty towards a controller is where the history says it is, and nowhere else. */
  ghost predicate DutyOk(w: World, c: nat)
    requires c < |w.slots| == |w.duty| == |w.won|
  {
    match w.duty[c]
    case Owner(o) => o in w.objs && w.objs[o] == Obj(Some(c), true) && !w.slots[c].Settled() && w.won[c].None?
    case Claimer(t) =>
      t in w.claims && w.claims[t].ctl == c && !w.slots[c].Settled() && w.won[c] == Some(w.claims[t].offer)
    case Discharged =>
      && (w.slots[c].val.Some? <==> w.slots[c].exc.None?)
      && (w.won[c].None? ==> w.slots[c].exc == Some(BrokenPromise))
      && (w.won[c].Some? && w.slots[c].val.Some? ==> w.won[c].value == Value(w.slots[c].val.value))
      && (w.won[c].Some? && w.slots[c].exc.Some? ==>
            if w.won[c].value.Exception? then w.slots[c].exc == Some(w.won[c].value.e)
            else w.slots[c].exc.value.Thrown?)
  }

  ghost predicate Inv(w: World) {
    && |w.slots| == |w.duty| == |w.won|
    && (forall c :: 0 <= c < |w.slots| ==> DutyOk(w, c))
    && (forall o :: o in w.objs && w.objs[o].ctl.Some? ==>
          w.objs[o].ctl.value < |w.slots| && (w.objs[o].pending ==> w.duty[w.objs[o].ctl.value] == Owner(o)))
    && (forall o :: o in w.objs && w.objs[o].ctl.None? ==> !w.objs[o].pending)
    && (forall t :: t in w.claims ==>
          w.claims[t].ctl < |w.slots| && w.duty[w.claims[t].ctl] == Claimer(t))
  }

  ghost predicate Follows(w: World, w': World) {
    |w.slots| == |w.duty| == |w.won| && exists a :: Enabled(w, a) && w' == Do(w, a)
  }

  ghost predicate IsHistory(tr: seq<World>) {
    && |tr| > 0 && tr[0] == World(map[], [], map[], [], [])
    && forall i :: 0 <= i < |tr| - 1 ==> Follows(tr[i], tr[i + 1])
  }

  lemma DoKeepsInv(w: World, a: Act)
    requires Inv(w) && Enabled(w, a)
    ensures Inv(Do(w, a))
    ensures forall c :: 0 <= c < |w.slots| && w.slots[c].Settled() ==> Do(w, a).slots[c] == w.slots[c]
    ensures |w.slots| <= |Do(w, a).slots|
  {
    match a
    case MoveAssign(o, f) =>
      if o != f {
        AbandonKeepsInv(w, o);
        HandKeepsInv(Abandoned(w, o), o, f);
      }
    case MoveConstruct(o, f) => HandKeepsInv(w, o, f);
    case Destroy(o) => AbandonKeepsInv(w, o); RemoveKeepsInv(Abandoned(w, o), o);
    case Begin(t, o, offer) => BeginKeepsInv(w, t, o, offer);
    case Finish(t, fault) => FinishKeepsInv(w, t, fault);
    case Construct(o) => FreshKeepsInv(w, a);
    case Default(o) => FreshKeepsInv(w, a);
  }

  lemma FreshKeepsInv(w: World, a: Act)
    requires Inv(w) && Enabled(w, a) && (a.Construct? || a.Default?)
    ensures Inv(Do(w, a))
  {
    var w' := Do(w, a);
    forall c | 0 <= c < |w'.slots|
      ensures DutyOk(w', c)
    {
      if c < |w.slots| {
        assert DutyOk(w, c);
      }
    }
  }

  lemma AbandonKeepsInv(w: World, o: nat)
    requires Inv(w) && o in w.objs
    ensures Inv(Abandoned(w, o)) && !Abandoned(w, o).objs[o].pending
    ensures forall c :: 0 <= c < |w.slots| && w.slots[c].Settled() ==> Abandoned(w, o).slots[c] == w.slots[c]
  {
    var w' := Abandoned(w, o);
    if Live(w, o) {
      assert DutyOk(w, w.objs[o].ctl.value);
    }
    forall c | 0 <= c < |w'.slots|
      ensures DutyOk(w', c)
    {
      if c < |w.slots| {
        assert DutyOk(w, c);
      }
    }
  }

  lemma RemoveKeepsInv(w: World, o: nat)
    requires Inv(w) && o in w.objs && !w.objs[o].pending
    ensures Inv(w.(objs := w.objs - {o}))
  {
    var w' := w.(objs := w.objs - {o});
    forall c | 0 <= c < |w'.slots|
      ensures DutyOk(w', c)
    {
      assert DutyOk(w, c);
    }
  }

  lemma HandKeepsInv(w: World, o: nat, f: nat)
    requires Inv(w) && f in w.objs && o != f && (o in w.objs ==> !w.objs[o].pending)
    ensures Inv(Handed(w, o, f))
  {
    var w' := Handed(w, o, f);
    forall c | 0 <= c < |w'.slots|
      ensures DutyOk(w', c)
    {
      if c < |w.slots| {
        assert DutyOk(w, c);
      }
    }
  }

  lemma BeginKeepsInv(w: World, t: nat, o: nat, offer: Offer)
    requires Inv(w) && t !in w.claims && o in w.objs
    ensures Inv(Do(w, Begin(t, o, offer)))
  {
    var w' := Do(w, Begin(t, o, offer));
    forall c | 0 <= c < |w'.slots|
      ensures DutyOk(w', c)
    {
      if c < |w.slots| {
        assert DutyOk(w, c);
      }
    }
  }

  lemma FinishKeepsInv(w: World, t: nat, fault: Option<int>)
    requires Inv(w) && t in w.claims
    ensures Inv(Do(w, Finish(t, fault)))
    ensures forall c :: 0 <= c < |w.slots| && w.slots[c].Settled() ==> Do(w, Finish(t, fault)).slots[c] == w.slots[c]
  {
    var w' := Do(w, Finish(t, fault));
    assert DutyOk(w, w.claims[t].ctl);
    forall c | 0 <= c < |w'.slots|
      ensures DutyOk(w', c)
    {
      if c < |w.slots| {
        assert DutyOk(w, c);
      }
    }
  }

  lemma {:induction false} HistoryInv(tr: seq<World>, i: nat)
    requires IsHistory(tr) && i < |tr|
    ensures Inv(tr[i])
  {
    if i > 0 {
      HistoryInv(tr, i - 1);
      assert Follows(tr[i - 1], tr[i]);
      var a :| Enabled(tr[i - 1], a) && tr[i] == Do(tr[i - 1], a);
      DoKeepsInv(tr[i - 1], a);
    }
  }

  /**
   The duty to settle a controller is never lost and never doubled. Once no object holds it as
   pending and no thread is part-way through settling it, it has exactly one outcome; that outcome
   is broken_promise if nobody ever claimed it, and comes from the first claimer otherwise: the
   value or the exception it offered, or the exception that storing its value threw.
   */
  lemma DutyIsConserved(tr: seq<World>, i: nat, c: nat)
    requires IsHistory(tr) && i < |tr| && c < |tr[i].slots|
    ensures var w := tr[i];
            && !(w.slots[c].val.Some? && w.slots[c].exc.Some?)
            && |w.won| == |w.slots|
            && (forall o1, o2 ::
                  o1 in w.objs && o2 in w.objs && w.objs[o1] == Obj(Some(c), true) == w.objs[o2] ==> o1 == o2)
            && (forall t1, t2 ::
                  t1 in w.claims && t2 in w.claims && w.claims[t1].ctl == c == w.claims[t2].ctl ==> t1 == t2)
            && (w.slots[c].Settled() <==>
                  && (forall o :: o in w.objs ==> w.objs[o] != Obj(Some(c), true))
                  && (forall t :: t in w.claims ==> w.claims[t].ctl != c))
            && (w.slots[c].Settled() && w.won[c].None? ==> w.slots[c].exc == Some(BrokenPromise))
            && (w.slots[c].val.Some? ==> w.won[c] == Some(Value(w.slots[c].val.value)))
            && (w.slots[c].Settled() && w.won[c].Some? && w.won[c].value.Exception? ==>
                  w.slots[c].exc == Some(w.won[c].value.e))
            && (w.slots[c].exc.Some? && w.won[c].Some? && w.won[c].value.Value? ==> w.slots[c].exc.value.Thrown?)
            && (w.slots[c].exc == Some(BrokenPromise) ==> w.won[c] in {None, Some(Exception(BrokenPromise))})
  {
    HistoryInv(tr, i);
    var w := tr[i];
    assert DutyOk(w, c);
  }

  lemma StepStands(w: World, a: Act, c: nat)
    requires Inv(w) && Enabled(w, a) && c < |w.slots|
    ensures c < |Do(w, a).slots| == |Do(w, a).won|
    ensures w.slots[c].Settled() ==> Do(w, a).slots[c] == w.slots[c]
    ensures w.won[c].Some? ==> Do(w, a).won[c] == w.won[c]
  {
    DoKeepsInv(w, a);
    assert DutyOk(w, c);
  }

  /** The first outcome and the first claim stand for the rest of the history. */
  lemma {:induction false} FirstOutcomeStands(tr: seq<World>, i: nat, j: nat, c: nat)
    requires IsHistory(tr) && i <= j < |tr| && c < |tr[i].slots|
    ensures c < |tr[j].slots| && |tr[i].won| == |tr[i].slots| && |tr[j].won| == |tr[j].slots|
    ensures tr[i].slots[c].Settled() ==> tr[j].slots[c] == tr[i].slots[c]
    ensures tr[i].won[c].Some? ==> tr[j].won[c] == tr[i].won[c]
    decreases j
  {
    HistoryInv(tr, i);
    if i < j {
      FirstOutcomeStands(tr, i, j - 1, c);
      HistoryInv(tr, j - 1);
      assert Follows(tr[j - 1], tr[j]);
      var a :| Enabled(tr[j - 1], a) && tr[j] == Do(tr[j - 1], a);
      StepStands(tr[j - 1], a, c);
    }
  }
}
