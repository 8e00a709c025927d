/** A lock over several mutexes that takes them in the order of their order numbers. */
module OrderedLock {
  import opened Prelude
  import opened TupleSort

  datatype Mutex = Mutex(id: nat, order: int)

  /** A call on a mutex. */
  datatype Act = Acquire(m: Mutex) | Release(m: Mutex)

  function Acquires(ms: seq<Mutex>): (r: seq<Act>)
    ensures |r| == |ms|
  {
    seq(|ms|, i requires 0 <= i < |ms| => Acquire(ms[i]))
  }

  /** Releases in reverse order. */
  function Releases(ms: seq<Mutex>): (r: seq<Act>)
    ensures |r| == |ms|
  {
    seq(|ms|, i requires 0 <= i < |ms| => Release(ms[|ms| - 1 - i]))
  }

  /** Taking all of ms; Some(k): the lock of the k-th throws. */
  function LockActs(ms: seq<Mutex>, failAt: Option<nat>): seq<Act> {
    if failAt.Some? && failAt.value < |ms| then
      Acquires(ms[..failAt.value]) + Releases(ms[..failAt.value])
    else Acquires(ms)
  }

  /** What is held after some calls, latest last; None if something else than the latest is released. */
  function Replay(held: seq<Mutex>, acts: seq<Act>): Option<seq<Mutex>>
    decreases |acts|
  {
    if acts == [] then Some(held)
    else
      match acts[0]
      case Acquire(m) => Replay(held + [m], acts[1..])
      case Release(m) =>
        if held != [] && held[|held| - 1] == m then Replay(held[..|held| - 1], acts[1..]) else None
  }

  lemma {:induction false} ReplayAcquires(held: seq<Mutex>, ms: seq<Mutex>, more: seq<Act>)
    ensures Replay(held, Acquires(ms) + more) == Replay(held + ms, more)
    decreases |ms|
  {
    var acts := Acquires(ms) + more;
    if ms == [] {
      assert acts == more && held + ms == held;
    } else {
      assert acts[1..] == Acquires(ms[1..]) + more;
      ReplayAcquires(held + [ms[0]], ms[1..], more);
      assert held + [ms[0]] + ms[1..] == held + ms;
    }
  }

  lemma {:induction false} ReplayReleases(held: seq<Mutex>, ms: seq<Mutex>)
    ensures Replay(held + ms, Releases(ms)) == Some(held)
    decreases |ms|
  {
    if ms == [] {
      assert held + ms == held;
    } else {
      var n := |ms| - 1;
      assert Releases(ms)[1..] == Releases(ms[..n]);
      assert (held + ms)[..|held + ms| - 1] == held + ms[..n];
      ReplayReleases(held, ms[..n]);
    }
  }

  /**
   A lock that throws has released exactly what it took, latest first, and so leaves what was held
   before; one that does not adds its mutexes, and unlocking takes exactly them away again.
   */
  lemma ThrowingLockLeavesNothing(held: seq<Mutex>, ms: seq<Mutex>, failAt: Option<nat>)
    ensures Replay(held, LockActs(ms, failAt))
         == if failAt.Some? && failAt.value < |ms| then Some(held) else Some(held + ms)
    ensures Replay(held, Acquires(ms) + Releases(ms)) == Some(held)
  {
    if failAt.Some? && failAt.value < |ms| {
      var taken := ms[..failAt.value];
      ReplayAcquires(held, taken, Releases(taken));
      ReplayReleases(held, taken);
    } else {
      ReplayAcquires(held, ms, []);
      assert Acquires(ms) + [] == Acquires(ms);
    }
    ReplayAcquires(held, ms, Releases(ms));
    ReplayReleases(held, ms);
  }

  // ----- the code -----

  function Less(): (int, int) -> bool {
    (x: int, y: int) => x < y
  }

  /** The slots in lock order: where the sorted tuple of references points. */
  function LockOrder(orders: seq<int>): (p: seq<nat>)
    ensures |p| == |orders|
    ensures forall i :: 0 <= i < |p| ==> p[i] < |orders|
    ensures Distinct(p) && forall k: nat :: k < |orders| ==> k in p
  {
    IndicesPermute(orders, Less());
    SortedIndices(orders, Less())
  }

  /** Slots read through the sorted references. */
  function Through<T>(slots: seq<T>, p: seq<nat>): (r: seq<T>)
    requires forall i :: 0 <= i < |p| ==> p[i] < |slots|
    ensures |r| == |p|
  {
    seq(|p|, i requires 0 <= i < |p| => slots[p[i]])
  }

  lemma LockOrderAscends(orders: seq<int>)
    requires forall i, j :: 0 <= i < j < |orders| ==> orders[i] != orders[j]
    ensures var r := Through(orders, LockOrder(orders)); forall i, j :: 0 <= i < j < |r| ==> r[i] < r[j]
  {
    var p := LockOrder(orders);
    IndicesReadTheSort(orders, Less());
    SortSorts(orders, Less());
    forall i, j | 0 <= i < j < |p|
      ensures orders[p[i]] < orders[p[j]]
    {
      assert p[i] != p[j];
      assert orders[p[i]] != orders[p[j]];
    }
  }

  function Pointers(ms: seq<Mutex>): (r: seq<Option<Mutex>>)
    ensures |r| == |ms|
  {
    seq(|ms|, i requires 0 <= i < |ms| => Some(ms[i]))
  }

  function OrdersOf(ms: seq<Mutex>): (r: seq<int>)
    ensures |r| == |ms|
  {
    seq(|ms|, i requires 0 <= i < |ms| => ms[i].order)
  }

  /** The mutexes of a lock in the order they are taken. */
  function InLockOrder(ms: seq<Mutex>): (r: seq<Mutex>)
    ensures |r| == |ms|
  {
    Through(ms, LockOrder(OrdersOf(ms)))
  }

  ghost predicate Ascending(ms: seq<Mutex>) {
    forall i, j :: 0 <= i < j < |ms| ==> ms[i].order < ms[j].order
  }

  ghost predicate NoRepeats(ms: seq<Mutex>) {
    forall i, j :: 0 <= i < j < |ms| ==> ms[i].order != ms[j].order
  }

  lemma TakenInOrder(ms: seq<Mutex>)
    requires NoRepeats(ms)
    ensures Ascending(InLockOrder(ms))
    ensures forall m :: m in InLockOrder(ms) <==> m in ms
  {
    var p := LockOrder(OrdersOf(ms));
    LockOrderAscends(OrdersOf(ms));
    forall i, j | 0 <= i < j < |p|
      ensures ms[p[i]].order < ms[p[j]].order
    {
      assert Through(OrdersOf(ms), p)[i] < Through(OrdersOf(ms), p)[j];
    }
    forall m | m in ms
      ensures m in InLockOrder(ms)
    {
      var k: nat :| k < |ms| && ms[k] == m;
      assert k in p;
      var i :| 0 <= i < |p| && p[i] == k;
      assert InLockOrder(ms)[i] == m;
    }
  }

  lemma {:induction false} AscendingUnique(a: seq<Mutex>, b: seq<Mutex>)
    requires Ascending(a) && Ascending(b) && forall m :: m in a <==> m in b
    ensures a == b
  {
    assert b != [] ==> b[0] in b;
    if a != [] {
      assert a[0] in b && (b != [] ==> b[0] in a);
      assert a[0] == b[0];
      forall m
        ensures m in a[1..] <==> m in b[1..]
      {
        assert m in a[1..] <==> m in a && m != a[0];
        assert m in b[1..] <==> m in b && m != b[0];
      }
      AscendingUnique(a[1..], b[1..]);
      assert a == [a[0]] + a[1..] && b == [b[0]] + b[1..];
    }
  }

  /**
   Mutexes added with greater order numbers come after all the others in the grown lock's order. So
   unlocking it releases in exactly the reverse of the order in which they were taken.
   */
  lemma GrownLockOrder(ms: seq<Mutex>, add: seq<Mutex>)
    requires NoRepeats(ms) && NoRepeats(add) && forall m, a :: m in ms && a in add ==> m.order < a.order
    ensures NoRepeats(ms + add)
    ensures InLockOrder(ms + add) == InLockOrder(ms) + InLockOrder(add)
  {
    TakenInOrder(ms);
    TakenInOrder(add);
    assert NoRepeats(ms + add);
    TakenInOrder(ms + add);
    var both := InLockOrder(ms) + InLockOrder(add);
    forall i, j | 0 <= i < j < |both|
      ensures both[i].order < both[j].order
    {
      if i < |ms| <= j {
        assert InLockOrder(ms)[i] in ms && InLockOrder(add)[j - |ms|] in add;
      }
    }
    AscendingUnique(InLockOrder(ms + add), both);
  }

  function ValuesOf(slots: seq<Option<Mutex>>): (r: seq<Mutex>)
    requires forall i :: 0 <= i < |slots| ==> slots[i].Some?
    ensures |r| == |slots| && forall i :: 0 <= i < |r| ==> slots[i] == Some(r[i])
  {
    if slots == [] then [] else ValuesOf(slots[..|slots| - 1]) + [slots[|slots| - 1].value]
  }

  class Lock {
    const orders: seq<int>
    var slots: seq<Option<Mutex>>
    var isLocked: bool
    var calls: seq<Act>

    ghost predicate Valid()
      reads this
    {
      && |slots| == |orders|
      && (forall i, j :: 0 <= i < j < |orders| ==> orders[i] != orders[j])
      && (forall i :: 0 <= i < |slots| && slots[i].Some? ==> slots[i].value.order == orders[i])
    }

    ghost predicate Full()
      reads this
    {
      forall i :: 0 <= i < |slots| ==> slots[i].Some?
    }

    ghost function Values(): (r: seq<Mutex>)
      requires Full()
      reads this
      ensures |r| == |slots| && forall i :: 0 <= i < |r| ==> slots[i] == Some(r[i])
    {
      ValuesOf(slots)
    }

    /** The mutexes in the order they are locked. */
    ghost function Mutexes(): (r: seq<Mutex>)
      requires Valid() && Full()
      reads this
    {
      InLockOrder(Values())
    }

    lemma OrdersAreTheirs()
      requires Valid() && Full()
      ensures OrdersOf(Values()) == orders
      ensures NoRepeats(Values()) && |Mutexes()| == |orders|
      ensures forall i :: 0 <= i < |orders| ==> slots[LockOrder(orders)[i]] == Some(Mutexes()[i])
    {
      assert OrdersOf(Values()) == orders;
    }

    constructor Empty(orders: seq<int>)
      requires forall i, j :: 0 <= i < j < |orders| ==> orders[i] != orders[j]
      ensures Valid() && !isLocked && calls == [] && this.orders == orders
      ensures slots == seq(|orders|, _ => None)
    {
      this.orders := orders;
      slots := seq(|orders|, _ => None);
      isLocked := false;
      calls := [];
    }

    constructor Defer(ms: seq<Mutex>)
      requires NoRepeats(ms)
      ensures Valid() && Full() && !isLocked && calls == []
      ensures orders == OrdersOf(ms) && Values() == ms
    {
      orders := OrdersOf(ms);
      slots := Pointers(ms);
      isLocked := false;
      calls := [];
      new;
      assert Values() == ms;
    }

    constructor Adopt(ms: seq<Mutex>)
      requires NoRepeats(ms)
      ensures Valid() && Full() && isLocked && calls == []
      ensures orders == OrdersOf(ms) && Values() == ms
    {
      orders := OrdersOf(ms);
      slots := Pointers(ms);
      isLocked := true;
      calls := [];
      new;
      assert Values() == ms;
    }

    /** Locks in order; if one throws, releases those taken, latest first, and rethrows. */
    method LockAll(failAt: Option<nat>) returns (threw: bool)
      requires Valid() && Full()
      modifies this`isLocked, this`calls
      ensures threw <==> failAt.Some? && failAt.value < |orders|
      ensures calls == old(calls) + LockActs(Mutexes(), failAt)
      ensures isLocked == if threw then old(isLocked) else true
    {
      OrdersAreTheirs();
      var p := LockOrder(orders);
      var locked: seq<Mutex> := [];
      ghost var ms := Mutexes();
      for i := 0 to |p|
        invariant locked == ms[..i] && calls == old(calls) + Acquires(ms[..i])
        invariant failAt.Some? ==> i <= failAt.value
        invariant isLocked == old(isLocked)
      {
        if failAt == Some(i) {
          Unwind(locked);
          assert calls == old(calls) + (Acquires(ms[..i]) + Releases(ms[..i]));
          return true;
        }
        calls := calls + [Acquire(slots[p[i]].value)];
        locked := locked + [slots[p[i]].value];
        assert ms[..i + 1] == ms[..i] + [ms[i]];
        assert Acquires(ms[..i + 1]) == Acquires(ms[..i]) + [Acquire(ms[i])];
      }
      assert ms[..|p|] == ms;
      isLocked := true;
      return false;
    }

    method Unwind(ms: seq<Mutex>)
      modifies this`calls
      ensures calls == old(calls) + Releases(ms)
    {
      var k := |ms|;
      while k > 0
        invariant 0 <= k <= |ms|
        invariant calls == old(calls) + Releases(ms)[..|ms| - k]
      {
        k := k - 1;
        calls := calls + [Release(ms[k])];
        assert Releases(ms)[..|ms| - k] == Releases(ms)[..|ms| - k - 1] + [Release(ms[k])];
      }
      assert Releases(ms)[..|ms|] == Releases(ms);
    }

    method Unlock()
      requires Valid() && Full()
      modifies this`isLocked, this`calls
      ensures !isLocked && calls == old(calls) + Releases(Mutexes())
    {
      OrdersAreTheirs();
      var p := LockOrder(orders);
      var ms: seq<Mutex> := [];
      for i := 0 to |p|
        invariant ms == Mutexes()[..i]
      {
        ms := ms + [slots[p[i]].value];
      }
      assert ms == Mutexes();
      Unwind(ms);
      isLocked := false;
    }

    method Clear()
      modifies this`slots, this`isLocked
      ensures !isLocked && slots == seq(|old(slots)|, _ => None)
    {
      slots := seq(|slots|, _ => None);
      isLocked := false;
    }

    /** Move assignment from a lock over the same types, in whatever order they were given. */
    method MoveFrom(other: Lock)
      requires Valid() && other.Valid() && (isLocked ==> Full())
      requires Through(orders, LockOrder(orders)) == Through(other.orders, LockOrder(other.orders))
      modifies this, other`slots, other`isLocked
      ensures Valid() && other.Valid()
      ensures this == other ==> slots == old(slots) && isLocked == old(isLocked) && calls == old(calls)
      ensures this != other ==>
                && Through(slots, LockOrder(orders)) == Through(old(other.slots), LockOrder(other.orders))
                && isLocked == old(other.isLocked)
                && !other.isLocked && (forall i :: 0 <= i < |other.slots| ==> other.slots[i].None?)
                && calls == if old(isLocked) then old(calls) + Releases(old(Mutexes())) else old(calls)
    {
      if this == other {
        return;
      }
      if isLocked {
        Unlock();
      }
      TakePointers(other);
      other.Clear();
    }

    /** Assigns through the sorted references. */
    method TakePointers(other: Lock)
      requires Valid() && other.Valid() && this != other
      requires Through(orders, LockOrder(orders)) == Through(other.orders, LockOrder(other.orders))
      modifies this`slots, this`isLocked
      ensures Valid() && isLocked == other.isLocked
      ensures Through(slots, LockOrder(orders)) == Through(other.slots, LockOrder(other.orders))
    {
      isLocked := other.isLocked;
      var p, q := LockOrder(orders), LockOrder(other.orders);
      assert |p| == |q|;
      for i := 0 to |p|
        invariant Valid() && isLocked == other.isLocked
        invariant forall j :: 0 <= j < i ==> slots[p[j]] == other.slots[q[j]]
      {
        assert orders[p[i]] == Through(orders, p)[i] == Through(other.orders, q)[i] == other.orders[q[i]];
        slots := slots[p[i] := other.slots[q[i]]];
      }
      assert Through(slots, p) == Through(other.slots, q);
    }

    /**
     Grows a lock by mutexes with greater order numbers. If this lock is locked they are locked
     too; if that throws, this lock is as before. Otherwise the result takes over. `made` are the
     calls made on the added mutexes.
     */
    method PushBack(add: seq<Mutex>, failAt: Option<nat>) returns (threw: bool, ans: Lock?, made: seq<Act>)
      requires Valid() && Full() && add != [] && NoRepeats(add)
      requires forall m, a :: m in Values() && a in add ==> m.order < a.order
      modifies this`slots, this`isLocked
      ensures threw <==> old(isLocked) && failAt.Some? && failAt.value < |add|
      ensures made == if old(isLocked) then LockActs(InLockOrder(add), failAt) else []
      ensures threw ==> ans == null && slots == old(slots) && isLocked
      ensures !threw ==>
                && !isLocked && (forall i :: 0 <= i < |slots| ==> slots[i].None?)
                && ans != null && fresh(ans) && ans.Valid() && ans.Full()
                && ans.isLocked == old(isLocked) && ans.Values() == old(Values()) + add
                && ans.Mutexes() == old(Mutexes()) + InLockOrder(add)
    {
      OrdersAreTheirs();
      GrownLockOrder(Values(), add);
      made, ans, threw := [], null, false;
      var all := ValuesOf(slots) + add;
      if isLocked {
        threw, made := LockAdded(add, failAt);
        if threw {
          return;
        }
        ans := new Lock.Adopt(all);
      } else {
        ans := new Lock.Defer(all);
      }
      Clear();
    }
  }

  /** The lock over the added mutexes alone, which gives them up without unlocking if it succeeds. */
  method LockAdded(add: seq<Mutex>, failAt: Option<nat>) returns (threw: bool, made: seq<Act>)
    requires NoRepeats(add)
    ensures threw <==> failAt.Some? && failAt.value < |add|
    ensures made == LockActs(InLockOrder(add), failAt)
  {
    var addLock := new Lock.Defer(add);
    threw := addLock.LockAll(failAt);
    made := addLock.calls;
    if !threw {
      addLock.Clear();
    }
  }
}
