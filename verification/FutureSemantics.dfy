/**
 Client programs that build future graphs, and the meaning a sequential evaluator gives them.

 A program is a list of definitions; definition number i introduces future number i, and may use
 any future defined before it, any number of times (branching). A callback is a table from the
 value or exception it receives to what it does; a callback that returns a future runs a program
 of its own, which sees the futures that existed where the callback was written.
 */
module FutureSemantics {

  /** Stored exceptions. The last three are raised by the library itself or by a missing table entry. */
  datatype Exn = User(code: int) | ReturnedFutureInvalid | FutureInvalid | NoEntry

  datatype Outcome = Ok(v: int) | Err(e: Exn)

  /** The value of a void future. */
  const UNIT: int := 0

  /** What a callback with a plain (or void) result does. */
  datatype Body = Ret(v: int) | Throw(e: Exn)

  /** What a callback whose result type is a future does. */
  datatype FutureBody = FThrow(e: Exn) | FReturn(p: Prog)

  datatype Node =
    | Promised(o: Outcome)
    | Then(src: nat, plain: imap<int, Body>)
    | ThenFuture(src: nat, nested: imap<int, FutureBody>)
    | Catched(src: nat, recover: imap<Exn, Body>, discard: bool)
    | CatchedFuture(src: nat, nestedRecover: imap<Exn, FutureBody>)
    | Finally(src: nat, cleanup: Body)
    | FinallyFuture(src: nat, nestedCleanup: FutureBody)

  /** `Done(r)` returns future number r, or an invalid future when there is none with that number. */
  datatype Prog = Done(result: nat) | Let(node: Node, rest: Prog)

  /** What a controller ends up holding: a value, an exception, a future or an invalid future. */
  datatype Held = Plain(v: int) | Failed(e: Exn) | Nested(o: Outcome) | Invalid

  ghost function Hold(o: Outcome): Held {
    match o case Ok(v) => Plain(v) case Err(e) => Failed(e)
  }

  /** Flattening: the outcome of a future that holds a future. */
  ghost function Join(h: Held): Outcome {
    match h
    case Plain(v) => Ok(v)
    case Failed(e) => Err(e)
    case Nested(o) => o
    case Invalid => Err(ReturnedFutureInvalid)
  }

  /** The outcome after cleanup: unchanged unless the cleanup itself failed. */
  ghost function AfterCleanup(before: Outcome, cleanup: Outcome): Outcome {
    if cleanup.Err? then cleanup else before
  }

  ghost predicate InScope(env: seq<Outcome>, n: Node) {
    n.Promised? || n.src < |env|
  }

  ghost function EvalBody(env: seq<Outcome>, b: FutureBody): Held
    decreases b
  {
    match b
    case FThrow(e) => Failed(e)
    case FReturn(p) => Eval(env, p)
  }

  ghost function EvalNode(env: seq<Outcome>, n: Node): Outcome
    requires InScope(env, n)
    decreases n
  {
    match n
    case Promised(o) => o
    case Then(s, t) =>
      if env[s].Err? then env[s]
      else if env[s].v !in t then Err(NoEntry)
      else (match t[env[s].v] case Ret(u) => Ok(u) case Throw(e) => Err(e))
    case ThenFuture(s, t) =>
      (match env[s] case Ok(v) => Join(if v in t then EvalBody(env, t[v]) else Failed(NoEntry)) case Err(e) => Err(e))
    case Catched(s, t, discard) =>
      if env[s].Ok? then (if discard then Ok(UNIT) else env[s])
      else if env[s].e !in t then Err(NoEntry)
      else (match t[env[s].e] case Ret(u) => Ok(if discard then UNIT else u) case Throw(e) => Err(e))
    case CatchedFuture(s, t) =>
      (match env[s] case Ok(v) => Ok(v) case Err(e) => Join(if e in t then EvalBody(env, t[e]) else Failed(NoEntry)))
    case Finally(s, b) => (match b case Ret(_) => env[s] case Throw(e) => Err(e))
    case FinallyFuture(s, b) => AfterCleanup(env[s], Join(EvalBody(env, b)))
  }

  /** What the program returns; using a future that does not exist throws. */
  ghost function Eval(env: seq<Outcome>, p: Prog): Held
    decreases p
  {
    match p
    case Done(r) => if r < |env| then Nested(env[r]) else Invalid
    case Let(n, rest) =>
      if InScope(env, n) then Eval(env + [EvalNode(env, n)], rest) else Failed(FutureInvalid)
  }
}
