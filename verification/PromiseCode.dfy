/**
 Promise objects and controllers in memory, shown by a state of the promise machine: each operation
 of the code takes them from one state to the state the matching act of the machine leads to.
 */
module PromiseCode {
  import opened Prelude
  import opened FutureController
  import opened Promise

  type Ctrl<K> = Controller<int, Fault, K>

  type Objects<K> = map<nat, PromiseObject<K>>

  /** An object holds the controller its picture names, and has the same duty. */
  ghost predicate ShowsObj<K>(x: Obj, p: PromiseObject<K>, ctls: seq<Ctrl<K>>)
    reads p
  {
    && x.pending == p.pending
    && match x.ctl
       case None => p.controller.None?
       case Some(c) => c < |ctls| && p.controller == Some(ctls[c])
  }

  ghost predicate ShowsSlot<K>(x: Slot, c: Ctrl<K>)
    reads c
  {
    x == Slot(c.val, c.exc)
  }

  /** Different numbers are different objects, and different controllers. */
  ghost predicate Apart<K>(objs: Objects<K>, ctls: seq<Ctrl<K>>) {
    && (forall o, q :: o in objs && q in objs && objs[o] == objs[q] ==> o == q)
    && (forall c, d :: 0 <= c < d < |ctls| ==> ctls[c] != ctls[d])
  }

  ghost predicate Shows<K>(w: World, objs: Objects<K>, ctls: seq<Ctrl<K>>)
    reads set o | o in objs :: objs[o]
    reads ctls
  {
    && Apart(objs, ctls)
    && objs.Keys == w.objs.Keys
    && |ctls| == |w.slots|
    && (forall o :: o in objs ==> ShowsObj(w.objs[o], objs[o], ctls))
    && (forall c :: 0 <= c < |ctls| ==> ShowsSlot(w.slots[c], ctls[c]))
  }

  // ----- what the code does to the memory -----

  /** `c` numbers the controller the object has the duty to settle, if it has any. */
  ghost predicate HasDuty<K>(p: PromiseObject<K>, ctls: seq<Ctrl<K>>, c: Option<nat>)
    reads p
  {
    && (p.controller.Some? ==> p.controller.value in ctls)
    && match c
       case None => !p.pending
       case Some(n) => p.pending && n < |ctls| && p.controller == Some(ctls[n])
  }

  twostate predicate OthersUnchanged<K>(objs: Objects<K>, o: nat, f: nat)
    reads set q | q in objs :: objs[q]
  {
    forall q :: q in objs && q != o && q != f ==> unchanged(objs[q])
  }

  /** `put` has been stored in controller c, if there is a c, and nothing in any other. */
  twostate predicate Stored<K>(ctls: seq<Ctrl<K>>, c: Option<nat>, put: Offer)
    reads ctls
  {
    forall n :: 0 <= n < |ctls| ==>
      Slot(ctls[n].val, ctls[n].exc)
      == if c == Some(n) then old(Slot(ctls[n].val, ctls[n].exc)).Put(put) else old(Slot(ctls[n].val, ctls[n].exc))
  }

  /** Object o has given up its duty towards controller c by storing `put` there. */
  twostate predicate Discharged<K>(objs: Objects<K>, ctls: seq<Ctrl<K>>, o: nat, c: Option<nat>, put: Offer)
    requires o in objs
    reads set q | q in objs :: objs[q]
    reads ctls
  {
    && OthersUnchanged(objs, o, o)
    && objs[o].controller == old(objs[o].controller) && !objs[o].pending
    && Stored(ctls, c, put)
  }

  method Abandon<K>(objs: Objects<K>, ctls: seq<Ctrl<K>>, o: nat, ghost c: Option<nat>)
    requires Apart(objs, ctls) && o in objs && HasDuty(objs[o], ctls, c)
    modifies objs[o], ctls, set c | c in ctls :: c.pool
    ensures Discharged(objs, ctls, o, c, Exception(BrokenPromise))
  {
    objs[o].Abandon();
  }

  method Assign<K>(objs: Objects<K>, ctls: seq<Ctrl<K>>, o: nat, f: nat, ghost c: Option<nat>)
    requires Apart(objs, ctls) && o in objs && f in objs && o != f && HasDuty(objs[o], ctls, c)
    modifies objs[o], objs[f], ctls, set c | c in ctls :: c.pool
    ensures OthersUnchanged(objs, o, f) && Stored(ctls, c, Exception(BrokenPromise))
    ensures objs[o].controller == old(objs[f].controller) && objs[o].pending == old(objs[f].pending)
    ensures objs[f].controller == None && !objs[f].pending
  {
    objs[o].Assign(objs[f]);
  }

  function Outcome(offer: Offer, fault: Option<int>): Offer {
    if offer.Value? && fault.Some? then Exception(Thrown(fault.value)) else offer
  }

  method SetValue<K>(objs: Objects<K>, ctls: seq<Ctrl<K>>, o: nat, v: int, fault: Option<int>, ghost c: Option<nat>)
    returns (verdict: Verdict)
    requires Apart(objs, ctls) && o in objs && HasDuty(objs[o], ctls, c)
    requires c.Some? ==> ctls[c.value].val.None?
    modifies objs[o], ctls, set c | c in ctls :: c.pool
    ensures verdict == if old(objs[o].controller).None? then PromiseInvalid
                       else if c.Some? then Claimed else AlreadySatisfied
    ensures Discharged(objs, ctls, o, c, Outcome(Value(v), fault))
  {
    verdict := objs[o].SetValue(v, fault);
  }

  method SetException<K>(objs: Objects<K>, ctls: seq<Ctrl<K>>, o: nat, e: Fault, ghost c: Option<nat>)
    returns (verdict: Verdict)
    requires Apart(objs, ctls) && o in objs && HasDuty(objs[o], ctls, c)
    modifies objs[o], ctls, set c | c in ctls :: c.pool
    ensures verdict == if old(objs[o].controller).None? then PromiseInvalid
                       else if c.Some? then Claimed else AlreadySatisfied
    ensures Discharged(objs, ctls, o, c, Exception(e))
  {
    verdict := objs[o].SetException(Some(e));
  }

  // ----- what the machine does -----

  /** The controller the machine says object o has the duty to settle. */
  ghost function DutyOf(w: World, o: nat): (c: Option<nat>)
    requires o in w.objs
    ensures c.Some? ==> c.value < |w.slots|
  {
    if Live(w, o) then w.objs[o].ctl else None
  }

  ghost predicate SlotPut(w: World, w': World, c: Option<nat>, put: Offer)
    requires c.Some? ==> c.value < |w.slots|
  {
    w'.slots == if c.Some? then w.slots[c.value := w.slots[c.value].Put(put)] else w.slots
  }

  ghost predicate Discharges(w: World, w': World, o: nat, put: Offer)
    requires o in w.objs
  {
    && (w.objs[o].pending ==> Live(w, o))
    && w'.objs == w.objs[o := w.objs[o].(pending := false)]
    && SlotPut(w, w', DutyOf(w, o), put)
  }

  lemma AbandonDischarges(w: World, o: nat)
    requires Inv(w) && o in w.objs
    ensures Discharges(w, Abandoned(w, o), o, Exception(BrokenPromise))
  {
  }

  /** Object o is discharged and takes over what object f held. */
  ghost predicate TakesOver(w: World, w': World, o: nat, f: nat)
    requires o in w.objs && f in w.objs
  {
    && (w.objs[o].pending ==> Live(w, o))
    && w'.objs == w.objs[o := w.objs[f]][f := EMPTY]
    && SlotPut(w, w', DutyOf(w, o), Exception(BrokenPromise))
  }

  lemma AssignTakesOver(w: World, o: nat, f: nat)
    requires Inv(w) && Enabled(w, MoveAssign(o, f)) && o != f
    ensures TakesOver(w, Do(w, MoveAssign(o, f)), o, f)
  {
    AbandonDischarges(w, o);
  }

  /** What an uninterrupted settling does: it claims, and if it may, finishes. */
  ghost function SettledBy(w: World, t: nat, o: nat, offer: Offer, fault: Option<int>): World
    requires Inv(w) && Enabled(w, Begin(t, o, offer))
  {
    BeginKeepsInv(w, t, o, offer);
    var w' := Do(w, Begin(t, o, offer));
    if t in w'.claims then Do(w', Finish(t, fault)) else w'
  }

  lemma SettleDischarges(w: World, t: nat, o: nat, offer: Offer, fault: Option<int>)
    requires Inv(w) && Enabled(w, Begin(t, o, offer))
    ensures Discharges(w, SettledBy(w, t, o, offer, fault), o, Outcome(offer, fault))
    ensures DutyOf(w, o).Some? ==> !w.slots[DutyOf(w, o).value].Settled()
  {
    if Live(w, o) {
      assert DutyOk(w, w.objs[o].ctl.value);
    }
  }

  // ----- the code takes the steps of the machine -----

  method PerformConstruct<K>(ghost w: World, objs: Objects<K>, ctls: seq<Ctrl<K>>, o: nat, pool: ThreadPool<K>)
    returns (objs': Objects<K>, ctls': seq<Ctrl<K>>)
    requires Inv(w) && Enabled(w, Construct(o)) && Shows(w, objs, ctls)
    ensures Shows(Do(w, Construct(o)), objs', ctls')
  {
    var p := new PromiseObject(pool);
    objs' := objs[o := p];
    ctls' := ctls + [p.controller.value];
  }

  method PerformDefault<K>(ghost w: World, objs: Objects<K>, ctls: seq<Ctrl<K>>, o: nat)
    returns (objs': Objects<K>)
    requires Inv(w) && Enabled(w, Default(o)) && Shows(w, objs, ctls)
    ensures Shows(Do(w, Default(o)), objs', ctls)
  {
    var p := new PromiseObject<K>.Empty();
    objs' := objs[o := p];
  }

  method PerformMoveConstruct<K>(ghost w: World, objs: Objects<K>, ctls: seq<Ctrl<K>>, o: nat, f: nat)
    returns (objs': Objects<K>)
    requires Inv(w) && Enabled(w, MoveConstruct(o, f)) && Shows(w, objs, ctls)
    modifies objs[f]
    ensures Shows(Do(w, MoveConstruct(o, f)), objs', ctls)
  {
    var p := new PromiseObject.Move(objs[f]);
    objs' := objs[o := p];
  }

  method AssignOther<K>(ghost w: World, ghost w': World, objs: Objects<K>, ctls: seq<Ctrl<K>>, o: nat, f: nat)
    requires Shows(w, objs, ctls) && o in objs && f in objs && o != f && TakesOver(w, w', o, f)
    modifies objs[o], objs[f], ctls, set c | c in ctls :: c.pool
    ensures Shows(w', objs, ctls)
  {
    Assign(objs, ctls, o, f, DutyOf(w, o));
  }

  method AssignSelf<K>(ghost w: World, objs: Objects<K>, ctls: seq<Ctrl<K>>, o: nat)
    requires Shows(w, objs, ctls) && o in objs
    modifies objs[o], ctls, set c | c in ctls :: c.pool
    ensures Shows(w, objs, ctls)
  {
    objs[o].Assign(objs[o]);
  }

  method PerformAssign<K>(ghost w: World, objs: Objects<K>, ctls: seq<Ctrl<K>>, o: nat, f: nat)
    requires Inv(w) && Enabled(w, MoveAssign(o, f)) && Shows(w, objs, ctls)
    modifies objs[o], objs[f], ctls, set c | c in ctls :: c.pool
    ensures Shows(Do(w, MoveAssign(o, f)), objs, ctls)
  {
    if o != f {
      AssignTakesOver(w, o, f);
      AssignOther(w, Do(w, MoveAssign(o, f)), objs, ctls, o, f);
    } else {
      AssignSelf(w, objs, ctls, o);
    }
  }

  method PerformDestroy<K>(ghost w: World, objs: Objects<K>, ctls: seq<Ctrl<K>>, o: nat)
    returns (objs': Objects<K>)
    requires Inv(w) && Enabled(w, Destroy(o)) && Shows(w, objs, ctls)
    modifies objs[o], ctls, set c | c in ctls :: c.pool
    ensures Shows(Do(w, Destroy(o)), objs', ctls)
  {
    AbandonDischarges(w, o);
    Abandon(objs, ctls, o, DutyOf(w, o));
    objs' := objs - {o};
  }

  /** The claim, which is where competing threads are told apart. */
  method PerformBegin<K>(ghost w: World, objs: Objects<K>, ctls: seq<Ctrl<K>>, ghost t: nat, o: nat,
                         ghost offer: Offer)
    returns (verdict: Verdict)
    requires Inv(w) && Enabled(w, Begin(t, o, offer)) && Shows(w, objs, ctls)
    modifies objs[o]
    ensures verdict == ClaimVerdict(w, o)
    ensures Shows(Do(w, Begin(t, o, offer)), objs, ctls)
  {
    verdict := objs[o].ClaimCompletion();
  }

  /** What follows a claim that succeeded. */
  method PerformFinish<K>(ghost w: World, objs: Objects<K>, ctls: seq<Ctrl<K>>, ghost t: nat, c: nat, offer: Offer,
                          fault: Option<int>)
    requires Inv(w) && Enabled(w, Finish(t, fault)) && Shows(w, objs, ctls)
    requires w.claims[t].ctl == c && w.claims[t].offer == offer
    modifies ctls, set c | c in ctls :: c.pool
    ensures Shows(Do(w, Finish(t, fault)), objs, ctls)
  {
    assert DutyOk(w, c);
    match offer
    case Value(v) =>
      if fault.Some? {
        ctls[c].SetException(Thrown(fault.value));
      } else {
        ctls[c].SetValueState(v);
      }
    case Exception(e) => ctls[c].SetException(e);
  }

  method SetValueShown<K>(ghost w: World, ghost w': World, objs: Objects<K>, ctls: seq<Ctrl<K>>, o: nat, v: int,
                          fault: Option<int>)
    returns (verdict: Verdict)
    requires Shows(w, objs, ctls) && o in objs && Discharges(w, w', o, Outcome(Value(v), fault))
    requires DutyOf(w, o).Some? ==> !w.slots[DutyOf(w, o).value].Settled()
    modifies objs[o], ctls, set c | c in ctls :: c.pool
    ensures verdict == ClaimVerdict(w, o) && Shows(w', objs, ctls)
  {
    verdict := SetValue(objs, ctls, o, v, fault, DutyOf(w, o));
  }

  method PerformSetValue<K>(ghost w: World, objs: Objects<K>, ctls: seq<Ctrl<K>>, ghost t: nat, o: nat, v: int,
                            fault: Option<int>)
    returns (verdict: Verdict)
    requires Inv(w) && Enabled(w, Begin(t, o, Value(v))) && Shows(w, objs, ctls)
    modifies objs[o], ctls, set c | c in ctls :: c.pool
    ensures verdict == ClaimVerdict(w, o)
    ensures Shows(SettledBy(w, t, o, Value(v), fault), objs, ctls)
  {
    SettleDischarges(w, t, o, Value(v), fault);
    verdict := SetValueShown(w, SettledBy(w, t, o, Value(v), fault), objs, ctls, o, v, fault);
  }

  method PerformSetException<K>(ghost w: World, objs: Objects<K>, ctls: seq<Ctrl<K>>, ghost t: nat, o: nat, e: Fault)
    returns (verdict: Verdict)
    requires Inv(w) && Enabled(w, Begin(t, o, Exception(e))) && Shows(w, objs, ctls)
    modifies objs[o], ctls, set c | c in ctls :: c.pool
    ensures verdict == ClaimVerdict(w, o)
    ensures Shows(SettledBy(w, t, o, Exception(e), None), objs, ctls)
  {
    SettleDischarges(w, t, o, Exception(e), None);
    verdict := SetException(objs, ctls, o, e, DutyOf(w, o));
  }

  /** A null exception is refused before anything is claimed. */
  method PerformSetNull<K>(ghost w: World, objs: Objects<K>, ctls: seq<Ctrl<K>>, o: nat)
    returns (verdict: Verdict)
    requires Shows(w, objs, ctls) && o in objs
    modifies objs[o], ctls, set c | c in ctls :: c.pool
    ensures verdict == NullException && Shows(w, objs, ctls)
  {
    verdict := objs[o].SetException(None);
  }
}
