/** Deterministic business code, and what a journal means to it. */
module Program {
  import opened Model

  /** Which Execute it is: the function that the business code hands over. */
  type Step = string

  /** What one finished primitive told the business code. */
  datatype Obs =
    | Ran(v: Value)       // Execute returned a value
    | Erred(e: Fault)     // Execute gave up; nothing was recorded
    | Slept
    | Got(p: Payload)     // Await consumed a signal
    | TimedOut            // Await timed out

  datatype Retry =
    | NoRetry
    | Fixed(delay: Time, max: int)
    | Backoff(initial: Time, factor: real, cap: Time, max: int)

  /** True when the policy allows another call of fn after `failures` failed ones. */
  predicate MayRetry(r: Retry, failures: nat) {
    match r
    case NoRetry => false
    case Fixed(_, max) => failures < max
    case Backoff(_, _, _, max) => failures < max
  }

  /** What the business code does next. */
  datatype Op =
    | Exec(step: Step, retry: Retry)
    | Sleep(d: Time)
    | Await(sig: Signal, timeout: Time)
    | Return
    | Done                // return nil
    | Raise(e: Fault)     // return an error, or panic

  /** A workflow function: the next primitive depends on nothing but the earlier results. */
  type Code = seq<Obs> -> Op

  predicate Ends(op: Op) {
    op.Done? || op.Raise?
  }

  /** All that positional matching can tell about a primitive: the kinds it writes. */
  datatype Shape = ExecShape | SleepShape | TimedAwaitShape | PlainAwaitShape | ReturnShape | EndShape

  function ShapeOf(op: Op): Shape {
    match op
    case Exec(_, _) => ExecShape
    case Sleep(_) => SleepShape
    case Await(_, timeout) => if timeout > 0 then TimedAwaitShape else PlainAwaitShape
    case Return => ReturnShape
    case Done => EndShape
    case Raise(_) => EndShape
  }

  predicate Answers(op: Op, o: Obs) {
    match o
    case Ran(_) => op.Exec?
    case Erred(_) => op.Exec?
    case Slept => op.Sleep?
    case Got(_) => op.Await?
    case TimedOut => op.Await? && op.timeout > 0
  }

  /** `obs` is a history the code can see. */
  predicate Feasible(code: Code, obs: seq<Obs>) {
    forall i | 0 <= i < |obs| :: Answers(code(obs[..i]), obs[i])
  }

  predicate HasErr(obs: seq<Obs>) {
    exists i | 0 <= i < |obs| :: obs[i].Erred?
  }

  /** The history as the journal remembers it: failed Executes leave no entry. */
  function Erase(obs: seq<Obs>): seq<Obs> {
    if obs == [] then []
    else
      var rest := Erase(obs[..|obs| - 1]);
      if obs[|obs| - 1].Erred? then rest else rest + [obs[|obs| - 1]]
  }

  /**
   * The business code may look at the error of a failed Execute, but what it does after one is either to end
   * or to call a primitive that writes the same kinds as the one it would have called without the failure.
   */
  ghost predicate ErrorBlind(code: Code) {
    forall obs :: Feasible(code, obs) ==> Ends(code(obs)) || ShapeOf(code(obs)) == ShapeOf(code(Erase(obs)))
  }

  /** What makes a call the call it is. The retry policy only says how often fn is tried. */
  function CallOf(op: Op): Op {
    if op.Exec? then Exec(op.step, NoRetry) else op
  }

  /**
   * After a failed Execute the business code either ends or makes exactly the call it would have made without
   * the failure, which is the very same Execute once more.
   */
  ghost predicate ErrorNeutral(code: Code) {
    forall obs :: Feasible(code, obs) ==> Ends(code(obs)) || CallOf(code(obs)) == CallOf(code(Erase(obs)))
  }

  /** The stricter habit that the engine documents: a failed Execute ends the attempt. */
  ghost predicate ErrorsEnd(code: Code) {
    forall obs, e :: Feasible(code, obs + [Erred(e)]) ==> Ends(code(obs + [Erred(e)]))
  }

  // ---- what was recorded: a relation between results and entries ----

  /** Journal `j` holds, in order and with nothing left over, the entries of the primitives that gave `obs`. */
  predicate Recorded(code: Code, obs: seq<Obs>, j: seq<Entry>)
    decreases |obs|, 0
  {
    if obs == [] then j == []
    else
      var before, o := obs[..|obs| - 1], obs[|obs| - 1];
      var op := code(before);
      && Answers(op, o)
      && match o
         case Erred(_) => Recorded(code, before, j)
         case Ran(v) =>
           && j != [] && Recorded(code, before, j[..|j| - 1])
           && j[|j| - 1].kind == KindExec && Decode(j[|j| - 1].payload) == Some(v)
         case Slept =>
           && j != [] && Recorded(code, before, j[..|j| - 1])
           && j[|j| - 1].kind == KindSleep && DecodeTime(j[|j| - 1].payload).Some?
         case Got(p) =>
           && j != [] && j[|j| - 1].kind == KindAwait && j[|j| - 1].payload == p
           && RecordedDeadline(code, before, j[..|j| - 1])
         case TimedOut =>
           && j != [] && j[|j| - 1].kind == KindAwaitTimeout
           && RecordedDeadline(code, before, j[..|j| - 1])
  }

  /** `j` records `obs` and, if the Await that follows has a timeout, its deadline as well. */
  predicate RecordedDeadline(code: Code, obs: seq<Obs>, j: seq<Entry>)
    decreases |obs|, 1
  {
    if code(obs).Await? && code(obs).timeout > 0 then
      && j != [] && Recorded(code, obs, j[..|j| - 1])
      && j[|j| - 1].kind == KindAwaitDeadline && DecodeTime(j[|j| - 1].payload).Some?
    else
      Recorded(code, obs, j)
  }

  // ---- what a journal says: a function ----

  /** Where a journal leaves the business code. */
  datatype Where =
    | Ready(obs: seq<Obs>)                     // about to call its next primitive
    | Deadlined(obs: seq<Obs>, dl: Time)       // inside an Await whose deadline is recorded
    | Closed(obs: seq<Obs>, out: Payload)      // Return is recorded
    | Lost                                     // the code could not have written this

  function Advance(code: Code, w: Where, e: Entry): Where {
    match w
    case Ready(obs) => (
      match code(obs)
      case Exec(_, _) =>
        if e.kind == KindExec && Decode(e.payload).Some? then Ready(obs + [Ran(Decode(e.payload).value)]) else Lost
      case Sleep(_) =>
        if e.kind == KindSleep && DecodeTime(e.payload).Some? then Ready(obs + [Slept]) else Lost
      case Await(_, timeout) =>
        if timeout > 0 then
          if e.kind == KindAwaitDeadline && DecodeTime(e.payload).Some? then Deadlined(obs, DecodeTime(e.payload).value)
          else Lost
        else if e.kind == KindAwait then Ready(obs + [Got(e.payload)])
        else Lost
      case Return =>
        if e.kind == KindReturn then Closed(obs, e.payload) else Lost
      case _ => Lost)
    case Deadlined(obs, _) =>
      if e.kind == KindAwait then Ready(obs + [Got(e.payload)])
      else if e.kind == KindAwaitTimeout then Ready(obs + [TimedOut])
      else Lost
    case _ => Lost
  }

  function Walk(code: Code, j: seq<Entry>): Where {
    if j == [] then Ready([]) else Advance(code, Walk(code, j[..|j| - 1]), j[|j| - 1])
  }
}
