/**
 One direction of the in-memory pipe: a queue of messages and a queue of waiting reads. Writes run
 on one strand and reads on another, so a message may be queued while a read is waiting; the write
 strand then still owes a resolve step.
 */
module MemBuffer {
  import opened Prelude
  import opened PipeOps
  import opened Ledger

  datatype ReadDone<M> = ReadDone(res: PipeRes, msg: Option<M>)

  /**
   `waiting` are the reads with no message yet, oldest first. `got` is, for every read ever
   issued, everything its promise has been given. The rest is history: the messages written
   successfully, those taken (and by which reads), and those dropped by invalidation.
   */
  datatype Core<M> = Core(
    valid: bool, invRes: PipeRes, buf: seq<M>, waiting: seq<nat>, got: map<nat, seq<ReadDone<M>>>,
    written: seq<M>, taken: seq<M>, takers: seq<nat>, dropped: seq<M>)

  /** s without the first r in it. */
  function Minus(s: seq<nat>, r: nat): seq<nat> {
    if s == [] then [] else if s[0] == r then s[1..] else [s[0]] + Minus(s[1..], r)
  }

  // ----- the blocks -----

  function WriteRes<M>(c: Core<M>, expired: bool): PipeRes {
    if !c.valid then Canceled else if expired then Timeout else Success
  }

  function Written<M>(c: Core<M>, data: M, expired: bool): Core<M> {
    if WriteRes(c, expired).Success? then c.(buf := c.buf + [data], written := c.written + [data]) else c
  }

  /** Hands the oldest message to read r. */
  function Take<M>(c: Core<M>, r: nat): Core<M>
    requires c.buf != []
  {
    c.(buf := c.buf[1..], taken := c.taken + [c.buf[0]], takers := c.takers + [r],
       got := Give(c.got, r, ReadDone(Success, Some(c.buf[0]))))
  }

  function Resolved<M>(c: Core<M>): Core<M> {
    if c.waiting == [] || c.buf == [] then c else Take(c, c.waiting[0]).(waiting := c.waiting[1..])
  }

  function Read<M>(c: Core<M>, r: nat, startedWhileValid: bool): Core<M> {
    if !c.valid then
      c.(got := Give(c.got, r, ReadDone(if startedWhileValid then c.invRes else Failed, None)))
    else if c.buf != [] then Take(c, r)
    else c.(waiting := c.waiting + [r])
  }

  function TimedOut<M>(c: Core<M>, r: nat): Core<M> {
    if r in c.waiting then
      c.(waiting := Minus(c.waiting, r), got := Give(c.got, r, ReadDone(Timeout, None)))
    else c
  }

  function InvalidationRes(cancelRead: bool): PipeRes {
    if cancelRead then Canceled else Failed
  }

  function Invalidated<M>(c: Core<M>, cancelRead: bool): Core<M> {
    if !c.valid then c
    else
      c.(valid := false, invRes := InvalidationRes(cancelRead), buf := [], dropped := c.buf, waiting := [],
         got := GiveAll(c.got, c.waiting, ReadDone(InvalidationRes(cancelRead), None)))
  }

  // ----- the code -----

  class Buffer<M> {
    var isValid: bool
    var readInvalidationResult: PipeRes
    var buffer: seq<M>
    var readPromises: seq<nat>
    var got: map<nat, seq<ReadDone<M>>>
    ghost var written: seq<M>
    ghost var taken: seq<M>
    ghost var takers: seq<nat>
    ghost var dropped: seq<M>

    ghost function View(): Core<M>
      reads this
    {
      Core(isValid, readInvalidationResult, buffer, readPromises, got, written, taken, takers, dropped)
    }

    constructor ()
      ensures View() == Core(true, Failed, [], [], map[], [], [], [], [])
    {
      isValid, readInvalidationResult, buffer, readPromises, got := true, Failed, [], [], map[];
      written, taken, takers, dropped := [], [], [], [];
    }

    method WriteImpl(data: M, expired: bool) returns (res: PipeRes)
      modifies this
      ensures res == WriteRes(old(View()), expired)
      ensures View() == Written(old(View()), data, expired)
    {
      if !isValid {
        return Canceled;
      }
      if expired {
        return Timeout;
      }
      buffer := buffer + [data];
      written := written + [data];
      return Success;
    }

    method Pop(r: nat) returns (data: M)
      requires buffer != []
      modifies this`buffer, this`taken, this`takers
      ensures data == old(buffer[0]) && buffer == old(buffer[1..])
      ensures taken == old(taken) + [data] && takers == old(takers) + [r]
    {
      data := buffer[0];
      buffer := buffer[1..];
      taken := taken + [data];
      takers := takers + [r];
    }

    method ResolveReadPromise()
      modifies this
      ensures View() == Resolved(old(View()))
    {
      if readPromises == [] || buffer == [] {
        return;
      }
      var promise := readPromises[0];
      var data := Pop(promise);
      readPromises := readPromises[1..];
      got := Give(got, promise, ReadDone(Success, Some(data)));
    }

    method ReadImpl(r: nat, startedWhileValid: bool)
      modifies this
      ensures View() == Read(old(View()), r, startedWhileValid)
    {
      if !isValid {
        got := Give(got, r, ReadDone(if startedWhileValid then readInvalidationResult else Failed, None));
      } else if buffer != [] {
        var data := Pop(r);
        got := Give(got, r, ReadDone(Success, Some(data)));
      } else {
        readPromises := readPromises + [r];
      }
    }

    method RemoveByTimeout(r: nat)
      modifies this
      ensures View() == TimedOut(old(View()), r)
    {
      if r in readPromises {
        readPromises := Minus(readPromises, r);
        got := Give(got, r, ReadDone(Timeout, None));
      }
    }

    method Invalidate(cancelRead: bool)
      modifies this
      ensures View() == Invalidated(old(View()), cancelRead)
    {
      if !isValid {
        return;
      }
      var pending := readPromises;
      isValid := false;
      readInvalidationResult := if cancelRead then Canceled else Failed;
      dropped := buffer;
      buffer := [];
      readPromises := [];
      got := SetAll(got, pending, ReadDone(if cancelRead then Canceled else Failed, None));
    }
  }
}
