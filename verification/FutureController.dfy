/**
 The settlement state shared by a future and its continuations: one value slot, one exception
 slot and two queues of callbacks, drained by tasks posted to the thread pool.

 The functions give the effect of one mutex-protected block each; the class below is the code
 that carries them out.
 */
module FutureController {
  import opened Prelude

  datatype Ctl<V, E, K> = Ctl(val: Option<V>, exc: Option<E>, onSuccess: seq<K>, onFail: seq<K>)
  {
    predicate Settled() {
      val.Some? || exc.Some?
    }

    function WithPair(s: K, f: K): Ctl<V, E, K> {
      this.(onSuccess := onSuccess + [s], onFail := onFail + [f])
    }

    function WithValue(v: V): Ctl<V, E, K> {
      this.(val := Some(v))
    }

    function WithException(e: E): Ctl<V, E, K> {
      this.(exc := Some(e))
    }

    /** What a success drain leaves behind, and the callbacks it posts. */
    function SuccessDrained(): Ctl<V, E, K> {
      if Settled() then this.(onSuccess := []) else this
    }

    function SuccessPosted(): seq<K> {
      if val.Some? then onSuccess else []
    }

    function FailDrained(): Ctl<V, E, K> {
      if Settled() then this.(onFail := []) else this
    }

    function FailPosted(): seq<K> {
      if exc.Some? then onFail else []
    }
  }

  /** A task the controller posts to its pool. */
  datatype PoolTask<K> = DrainSuccess | DrainFail | CallSuccess(k: K) | CallFail(k: K)

  function Calls<K>(success: bool, ks: seq<K>): (r: seq<PoolTask<K>>)
    ensures |r| == |ks|
  {
    seq(|ks|, i requires 0 <= i < |ks| => if success then CallSuccess(ks[i]) else CallFail(ks[i]))
  }

  lemma OneMoreCall<K>(success: bool, all: seq<K>, n: nat)
    requires n < |all|
    ensures all[n..][0] == all[n] && all[n..][1..] == all[n + 1..]
    ensures Calls(success, all[..n + 1])
         == Calls(success, all[..n]) + [if success then CallSuccess(all[n]) else CallFail(all[n])]
  {
    assert all[..n + 1] == all[..n] + [all[n]];
  }

  class ThreadPool<K> {
    var tasks: seq<PoolTask<K>>

    constructor ()
      ensures tasks == []
    {
      tasks := [];
    }

    method Post(t: PoolTask<K>)
      modifies this
      ensures tasks == old(tasks) + [t]
    {
      tasks := tasks + [t];
    }
  }

  class Controller<V, E, K> {
    var val: Option<V>
    var exc: Option<E>
    var onSuccess: seq<K>
    var onFail: seq<K>
    const pool: ThreadPool<K>

    ghost function View(): Ctl<V, E, K>
      reads this
    {
      Ctl(val, exc, onSuccess, onFail)
    }

    constructor (pool: ThreadPool<K>)
      ensures View() == Ctl(None, None, [], [])
      ensures this.pool == pool
    {
      this.pool := pool;
      val, exc, onSuccess, onFail := None, None, [], [];
    }

    method SetOnSuccessAndFail(success: K, fail: K)
      modifies this, pool
      ensures View() == old(View()).WithPair(success, fail)
      ensures pool.tasks == old(pool.tasks) + [DrainSuccess, DrainFail]
    {
      onSuccess := onSuccess + [success];
      pool.Post(DrainSuccess);
      onFail := onFail + [fail];
      pool.Post(DrainFail);
    }

    method SetValueState(v: V)
      requires val.None?
      modifies this, pool
      ensures View() == old(View()).WithValue(v)
      ensures pool.tasks == old(pool.tasks) + [DrainSuccess, DrainFail]
    {
      val := Some(v);
      pool.Post(DrainSuccess);
      pool.Post(DrainFail);
    }

    method SetException(e: E)
      modifies this, pool
      ensures View() == old(View()).WithException(e)
      ensures pool.tasks == old(pool.tasks) + [DrainSuccess, DrainFail]
    {
      exc := Some(e);
      pool.Post(DrainSuccess);
      pool.Post(DrainFail);
    }

    method ProcessOnSuccess()
      requires !(val.Some? && exc.Some?)
      modifies this, pool
      ensures View() == old(View()).SuccessDrained()
      ensures pool.tasks == old(pool.tasks) + Calls(true, old(View()).SuccessPosted())
    {
      var temp: seq<K> := [];
      if val.Some? {
        temp, onSuccess := onSuccess, temp;
      } else if exc.Some? {
        onSuccess := [];
        return;
      } else {
        return;
      }
      ghost var all := temp;
      while temp != []
        invariant |temp| <= |all| && temp == all[|all| - |temp|..]
        invariant View() == old(View()).SuccessDrained()
        invariant pool.tasks == old(pool.tasks) + Calls(true, all[..|all| - |temp|])
        decreases |temp|
      {
        OneMoreCall(true, all, |all| - |temp|);
        var f := temp[0];
        temp := temp[1..];
        pool.Post(CallSuccess(f));
      }
      assert all[..|all|] == all;
    }

    method ProcessOnFail()
      requires !(val.Some? && exc.Some?)
      modifies this, pool
      ensures View() == old(View()).FailDrained()
      ensures pool.tasks == old(pool.tasks) + Calls(false, old(View()).FailPosted())
    {
      var temp: seq<K> := [];
      if exc.Some? {
        temp, onFail := onFail, temp;
      } else if val.Some? {
        onFail := [];
        return;
      } else {
        return;
      }
      ghost var all := temp;
      while temp != []
        invariant |temp| <= |all| && temp == all[|all| - |temp|..]
        invariant View() == old(View()).FailDrained()
        invariant pool.tasks == old(pool.tasks) + Calls(false, all[..|all| - |temp|])
        decreases |temp|
      {
        OneMoreCall(false, all, |all| - |temp|);
        var f := temp[0];
        temp := temp[1..];
        pool.Post(CallFail(f));
      }
      assert all[..|all|] == all;
    }
  }
}
