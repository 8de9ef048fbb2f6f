/**
 * The replay kernel as a step function: one attempt of a run, one interaction with the outside world
 * (or one consumed entry) at a time. An attempt that crashes is a run of fewer steps.
 */
module Kernel {
  import opened Model
  import opened Program

  /** What the outside world says during one step; each step looks at the part it needs. */
  datatype Answer = Answer(
    now: Time,                // engine clock
    fn: FnResult,             // one call of an Execute function
    arg: Option<Value>,       // the encoded argument of Return, None when it cannot be encoded
    tag: string,              // the label option of the primitive
    stored: bool,             // does Append succeed?
    fetched: bool,            // does Fetch reach the mailbox?
    acked: bool,              // does Ack succeed?
    cancelled: bool,          // is the engine context cancelled?
    slot: Option<Payload>)    // what the mailbox holds for the signal asked for

  datatype FnResult =
    | FnOk(v: Value)
    | FnFail(e: Fault)
    | FnUnencodable(e: Fault)   // fn succeeded, its result could not be encoded

  datatype Outcome =
    | Finished
    | Returned
    | Sleeping
    | Suspended
    | Mismatch
    | StoreFault
    | Broke(e: Fault)

  datatype Phase =
    | Call                        // the business code runs up to its next primitive
    | Calling(failures: nat)      // Execute is about to call fn
    | Appending(e: Entry)         // commit is about to append
    | Napping(t: Time)            // Sleep is about to compare its deadline with the clock
    | Deciding                    // Await is past its deadline and about to look for a decision
    | Fetching                    // Await is about to ask the mailbox
    | Timing                      // Await found no signal and is about to read the clock
    | Acking(p: Payload)          // Await has committed its decision and is about to Ack
    | Ended(o: Outcome)

  /** WorkflowContext, with the history its business code has seen and the point it has reached. */
  datatype Kernel = Kernel(
    obs: seq<Obs>,
    journal: seq<Entry>,
    cursor: nat,
    sleepDl: Deadline,
    awaitDl: Deadline,
    ret: Payload,
    phase: Phase)

  const CODEC: Fault := "codec"
  const CANCELLED: Fault := "context canceled"

  function Fresh(j: seq<Entry>): Kernel {
    Kernel([], j, 0, NoDeadline, NoDeadline, Empty, Call)
  }

  function See(k: Kernel, o: Obs): Kernel {
    k.(obs := k.obs + [o], phase := Call)
  }

  function End(k: Kernel, o: Outcome): Kernel {
    k.(phase := Ended(o))
  }

  /** The next entry when its kind is wanted. */
  predicate Hit(k: Kernel, want: set<Kind>) {
    k.cursor < |k.journal| && k.journal[k.cursor].kind in want
  }

  function CallStep(code: Code, k: Kernel, a: Answer): Kernel {
    match code(k.obs)
    case Done => End(k, Finished)
    case Raise(e) => End(k, Broke(e))
    case Exec(_, _) =>
      if k.cursor >= |k.journal| then k.(phase := Calling(0))
      else if !Hit(k, {KindExec}) then End(k, Mismatch)
      else
        var k' := k.(cursor := k.cursor + 1);
        (match Decode(k.journal[k.cursor].payload)
         case None => End(k', Broke(CODEC))
         case Some(v) => See(k', Ran(v)))
    case Sleep(d) =>
      if k.cursor >= |k.journal| then k.(phase := Appending(Entry(KindSleep, a.tag, EncodeTime(a.now + d))))
      else if !Hit(k, {KindSleep}) then End(k, Mismatch)
      else
        var k' := k.(cursor := k.cursor + 1);
        (match DecodeTime(k.journal[k.cursor].payload)
         case None => End(k', Broke(CODEC))
         case Some(t) => k'.(sleepDl := At(t), phase := Napping(t)))
    case Await(_, timeout) =>
      if timeout <= 0 then k.(awaitDl := NoDeadline, phase := Deciding)
      else if k.cursor >= |k.journal| then
        k.(phase := Appending(Entry(KindAwaitDeadline, a.tag, EncodeTime(a.now + timeout))))
      else if !Hit(k, {KindAwaitDeadline}) then End(k, Mismatch)
      else
        var k' := k.(cursor := k.cursor + 1);
        (match DecodeTime(k.journal[k.cursor].payload)
         case None => End(k', Broke(CODEC))
         case Some(t) => k'.(awaitDl := At(t), phase := Deciding))
    case Return =>
      if k.cursor >= |k.journal| then
        (match a.arg
         case None => End(k, Broke(CODEC))
         case Some(v) => k.(phase := Appending(Entry(KindReturn, a.tag, Encode(v)))))
      else if !Hit(k, {KindReturn}) then End(k, Mismatch)
      else End(k.(cursor := k.cursor + 1, ret := k.journal[k.cursor].payload), Returned)
  }

  function CallingStep(code: Code, k: Kernel, a: Answer): Kernel
    requires k.phase.Calling?
  {
    if a.cancelled then See(k, Erred(CANCELLED))
    else
      match a.fn
      case FnOk(v) => k.(phase := Appending(Entry(KindExec, a.tag, Encode(v))))
      case FnUnencodable(e) => See(k, Erred(e))
      case FnFail(e) =>
        var failures := k.phase.failures + 1;
        if code(k.obs).Exec? && MayRetry(code(k.obs).retry, failures) then k.(phase := Calling(failures))
        else See(k, Erred(e))
  }

  /** commit: what follows a successful Append of `e`. */
  function Committed(k: Kernel, e: Entry): Kernel {
    var k' := k.(journal := k.journal + [e], cursor := |k.journal| + 1);
    match e.kind
    case KindExec => See(k', Ran(if e.payload.Data? then e.payload.v else ""))
    case KindSleep => var t := if e.payload.Instant? then e.payload.t else 0; k'.(sleepDl := At(t), phase := Napping(t))
    case KindAwaitDeadline => k'.(awaitDl := At(if e.payload.Instant? then e.payload.t else 0), phase := Deciding)
    case KindAwait => k'.(phase := Acking(e.payload))
    case KindAwaitTimeout => See(k', TimedOut)
    case KindReturn => End(k'.(ret := e.payload), Returned)
    case KindCancel => k'
  }

  function DecidingStep(code: Code, k: Kernel): Kernel {
    var timed := code(k.obs).Await? && code(k.obs).timeout > 0;
    if k.cursor >= |k.journal| then k.(phase := Fetching)
    else if !Hit(k, if timed then {KindAwait, KindAwaitTimeout} else {KindAwait}) then End(k, Mismatch)
    else
      var e := k.journal[k.cursor];
      See(k.(cursor := k.cursor + 1), if e.kind == KindAwaitTimeout then TimedOut else Got(e.payload))
  }

  function FetchingStep(k: Kernel, a: Answer): Kernel {
    if !a.fetched then End(k, StoreFault)
    else
      match a.slot
      case Some(p) => k.(phase := Appending(Entry(KindAwait, a.tag, p)))
      case None => k.(phase := Timing)
  }

  function TimingStep(code: Code, k: Kernel, a: Answer): Kernel {
    if code(k.obs).Await? && code(k.obs).timeout > 0 && k.awaitDl.At? && a.now >= k.awaitDl.t then
      k.(phase := Appending(Entry(KindAwaitTimeout, a.tag, Empty)))
    else End(k, Suspended)
  }

  function KStep(code: Code, k: Kernel, a: Answer): Kernel {
    match k.phase
    case Call => CallStep(code, k, a)
    case Calling(_) => CallingStep(code, k, a)
    case Appending(e) => if a.stored then Committed(k, e) else End(k, StoreFault)
    case Napping(t) => if t - a.now <= 0 then See(k, Slept) else End(k, Sleeping)
    case Deciding => DecidingStep(code, k)
    case Fetching => FetchingStep(k, a)
    case Timing => TimingStep(code, k, a)
    case Acking(p) => See(k, Got(p))
    case Ended(_) => k
  }

  /** The steps of one attempt, up to its end or to a crash after any of them. */
  function KRun(code: Code, k: Kernel, script: seq<Answer>): Kernel {
    if script == [] then k
    else KStep(code, KRun(code, k, script[..|script| - 1]), script[|script| - 1])
  }

  // ---- the invariant of an attempt, over any code and any starting journal ----

  /** The Await in progress has its deadline just behind the cursor, or has none. */
  predicate AwaitOpen(code: Code, k: Kernel) {
    && code(k.obs).Await?
    && k.cursor <= |k.journal|
    && RecordedDeadline(code, k.obs, k.journal[..k.cursor])
    && k.awaitDl == (if code(k.obs).timeout > 0 then At(DecodeTime(k.journal[k.cursor - 1].payload).value)
      else NoDeadline)
  }

  function AwaitWhere(k: Kernel): Where {
    if k.awaitDl.At? then Deadlined(k.obs, k.awaitDl.t) else Ready(k.obs)
  }

  /** `e` is what the primitive in progress has to write. */
  predicate Fits(code: Code, k: Kernel, e: Entry) {
    match e.kind
    case KindExec => code(k.obs).Exec? && Decode(e.payload).Some?
    case KindSleep => code(k.obs).Sleep? && DecodeTime(e.payload).Some?
    case KindAwaitDeadline => code(k.obs).Await? && code(k.obs).timeout > 0 && DecodeTime(e.payload).Some?
    case KindAwait => AwaitOpen(code, k)
    case KindAwaitTimeout => AwaitOpen(code, k) && code(k.obs).timeout > 0 && e.payload == Empty
    case KindReturn => code(k.obs).Return? && Decode(e.payload).Some?
    case KindCancel => false
  }

  /** The sleep deadline the engine will use is the one recorded just behind the cursor. */
  predicate NapOpen(code: Code, k: Kernel, t: Time) {
    && code(k.obs).Sleep?
    && 0 < k.cursor <= |k.journal|
    && Recorded(code, k.obs + [Slept], k.journal[..k.cursor])
    && k.sleepDl == At(t)
    && k.journal[k.cursor - 1].kind == KindSleep && k.journal[k.cursor - 1].payload == Instant(t)
  }

  ghost predicate EndOk(code: Code, k: Kernel, o: Outcome)
    requires k.cursor <= |k.journal|
  {
    match o
    case Finished => code(k.obs) == Done && Recorded(code, k.obs, k.journal[..k.cursor])
    case Returned =>
      && code(k.obs).Return? && 0 < k.cursor
      && Recorded(code, k.obs, k.journal[..k.cursor - 1])
      && k.journal[k.cursor - 1].kind == KindReturn && k.journal[k.cursor - 1].payload == k.ret
    case Sleeping => k.sleepDl.At? && NapOpen(code, k, k.sleepDl.t)
    case Suspended => k.cursor == |k.journal| && AwaitOpen(code, k)
    case Mismatch =>
      && k.cursor < |k.journal|
      && ((Recorded(code, k.obs, k.journal[..k.cursor]) && Advance(code, Ready(k.obs), k.journal[k.cursor]) == Lost)
          || (AwaitOpen(code, k) && Advance(code, AwaitWhere(k), k.journal[k.cursor]) == Lost))
    case StoreFault =>
      && k.cursor == |k.journal|
      && (Recorded(code, k.obs, k.journal) || AwaitOpen(code, k))
    case Broke(e) =>
      || (code(k.obs) == Raise(e) && Recorded(code, k.obs, k.journal[..k.cursor]))
      || (code(k.obs).Return? && k.cursor == |k.journal| && Recorded(code, k.obs, k.journal))
      || (0 < k.cursor && Recorded(code, k.obs, k.journal[..k.cursor - 1])
          && Advance(code, Ready(k.obs), k.journal[k.cursor - 1]) == Lost)
  }

  ghost predicate Faithful(code: Code, k: Kernel) {
    && k.cursor <= |k.journal|
    && (HasErr(k.obs) ==> k.cursor == |k.journal|)
    && match k.phase
       case Call => Recorded(code, k.obs, k.journal[..k.cursor])
       case Calling(_) => k.cursor == |k.journal| && code(k.obs).Exec? && Recorded(code, k.obs, k.journal)
       case Appending(e) =>
         && k.cursor == |k.journal| && Fits(code, k, e)
         && (e.kind == KindAwait || e.kind == KindAwaitTimeout || Recorded(code, k.obs, k.journal))
       case Napping(t) => NapOpen(code, k, t)
       case Deciding => AwaitOpen(code, k)
       case Fetching => AwaitOpen(code, k) && k.cursor == |k.journal|
       case Timing => AwaitOpen(code, k) && k.cursor == |k.journal|
       case Acking(p) => k.cursor == |k.journal| && code(k.obs).Await? && Recorded(code, k.obs + [Got(p)], k.journal)
       case Ended(o) => EndOk(code, k, o)
  }

  lemma FreshFaithful(code: Code, j: seq<Entry>)
    ensures Faithful(code, Fresh(j))
  {
  }

  /** Extending a recorded history by one result and its entry. */
  lemma RecordedSnoc(code: Code, obs: seq<Obs>, o: Obs, j: seq<Entry>)
    requires Answers(code(obs), o)
    requires match o
             case Erred(_) => Recorded(code, obs, j)
             case Ran(v) =>
               && j != [] && Recorded(code, obs, j[..|j| - 1])
               && j[|j| - 1].kind == KindExec && j[|j| - 1].payload == Data(v)
             case Slept =>
               && j != [] && Recorded(code, obs, j[..|j| - 1])
               && j[|j| - 1].kind == KindSleep && j[|j| - 1].payload.Instant?
             case Got(p) =>
               && j != [] && RecordedDeadline(code, obs, j[..|j| - 1])
               && j[|j| - 1].kind == KindAwait && j[|j| - 1].payload == p
             case TimedOut =>
               && j != [] && RecordedDeadline(code, obs, j[..|j| - 1])
               && j[|j| - 1].kind == KindAwaitTimeout
    ensures Recorded(code, obs + [o], j)
  {
    var all := obs + [o];
    assert all[..|all| - 1] == obs && all[|all| - 1] == o;
  }

  lemma HasErrSnoc(obs: seq<Obs>, o: Obs)
    ensures HasErr(obs + [o]) <==> HasErr(obs) || o.Erred?
  {
    var all := obs + [o];
    assert all[|obs|] == o;
    assert forall i | 0 <= i < |obs| :: all[i] == obs[i];
  }

  lemma StepFaithful(code: Code, k: Kernel, a: Answer)
    requires Faithful(code, k)
    ensures Faithful(code, KStep(code, k, a))
  {
    match k.phase
    case Call => CallFaithful(code, k, a);
    case Calling(_) => CallingFaithful(code, k, a);
    case Appending(_) => CommitFaithful(code, k, a);
    case Napping(_) => NappingFaithful(code, k, a);
    case Deciding => DecidingFaithful(code, k);
    case Fetching => WaitingFaithful(code, k, a);
    case Timing => WaitingFaithful(code, k, a);
    case Acking(_) => AckingFaithful(code, k, a);
    case Ended(_) =>
  }

  lemma CallFaithful(code: Code, k: Kernel, a: Answer)
    requires Faithful(code, k) && k.phase.Call?
    ensures Faithful(code, CallStep(code, k, a))
  {
    assert k.journal[..|k.journal|] == k.journal;
    match code(k.obs)
    case Exec(_, _) => CallExecFaithful(code, k, a);
    case Sleep(_) => CallSleepFaithful(code, k, a);
    case Await(_, _) => CallAwaitFaithful(code, k, a);
    case Return => CallReturnFaithful(code, k, a);
    case _ =>
  }

  lemma CallExecFaithful(code: Code, k: Kernel, a: Answer)
    requires Faithful(code, k) && k.phase.Call? && code(k.obs).Exec?
    ensures Faithful(code, CallStep(code, k, a))
  {
    if k.cursor >= |k.journal| {
      assert k.journal[..k.cursor] == k.journal;
    } else {
      var e := k.journal[k.cursor];
      var j' := k.journal[..k.cursor + 1];
      assert j'[..|j'| - 1] == k.journal[..k.cursor] && j'[|j'| - 1] == e;
      if e.kind == KindExec && e.payload.Data? {
        RecordedSnoc(code, k.obs, Ran(e.payload.v), j');
        HasErrSnoc(k.obs, Ran(e.payload.v));
      }
    }
  }

  lemma CallSleepFaithful(code: Code, k: Kernel, a: Answer)
    requires Faithful(code, k) && k.phase.Call? && code(k.obs).Sleep?
    ensures Faithful(code, CallStep(code, k, a))
  {
    if k.cursor >= |k.journal| {
      assert k.journal[..k.cursor] == k.journal;
    } else {
      var e := k.journal[k.cursor];
      var j' := k.journal[..k.cursor + 1];
      assert j'[..|j'| - 1] == k.journal[..k.cursor] && j'[|j'| - 1] == e;
      if e.kind == KindSleep && e.payload.Instant? {
        RecordedSnoc(code, k.obs, Slept, j');
      }
    }
  }

  lemma CallAwaitFaithful(code: Code, k: Kernel, a: Answer)
    requires Faithful(code, k) && k.phase.Call? && code(k.obs).Await?
    ensures Faithful(code, CallStep(code, k, a))
  {
    if code(k.obs).timeout <= 0 {
    } else if k.cursor >= |k.journal| {
      assert k.journal[..k.cursor] == k.journal;
    } else {
      var j' := k.journal[..k.cursor + 1];
      assert j'[..|j'| - 1] == k.journal[..k.cursor] && j'[|j'| - 1] == k.journal[k.cursor];
    }
  }

  lemma CallReturnFaithful(code: Code, k: Kernel, a: Answer)
    requires Faithful(code, k) && k.phase.Call? && code(k.obs).Return?
    ensures Faithful(code, CallStep(code, k, a))
  {
    if k.cursor >= |k.journal| {
      assert k.journal[..k.cursor] == k.journal;
    } else {
      assert (k.cursor + 1) - 1 == k.cursor;
    }
  }

  lemma CallingFaithful(code: Code, k: Kernel, a: Answer)
    requires Faithful(code, k) && k.phase.Calling?
    ensures Faithful(code, CallingStep(code, k, a))
  {
    assert k.journal[..k.cursor] == k.journal;
    var e := if a.cancelled || a.fn.FnOk? then CANCELLED else a.fn.e;
    HasErrSnoc(k.obs, Erred(e));
    RecordedSnoc(code, k.obs, Erred(e), k.journal);
  }

  lemma NappingFaithful(code: Code, k: Kernel, a: Answer)
    requires Faithful(code, k) && k.phase.Napping?
    ensures Faithful(code, KStep(code, k, a))
  {
    HasErrSnoc(k.obs, Slept);
  }

  lemma WaitingFaithful(code: Code, k: Kernel, a: Answer)
    requires Faithful(code, k) && (k.phase.Fetching? || k.phase.Timing?)
    ensures Faithful(code, KStep(code, k, a))
  {
  }

  lemma AckingFaithful(code: Code, k: Kernel, a: Answer)
    requires Faithful(code, k) && k.phase.Acking?
    ensures Faithful(code, KStep(code, k, a))
  {
    HasErrSnoc(k.obs, Got(k.phase.p));
    assert k.journal[..k.cursor] == k.journal;
  }

  lemma CommitFaithful(code: Code, k: Kernel, a: Answer)
    requires Faithful(code, k) && k.phase.Appending?
    ensures Faithful(code, KStep(code, k, a))
  {
    var e := k.phase.e;
    assert k.journal[..k.cursor] == k.journal;
    if a.stored {
      var j' := k.journal + [e];
      assert j'[..|j'| - 1] == k.journal && j'[|j'| - 1] == e;
      assert j'[..|k.journal| + 1] == j';
      match e.kind
      case KindExec =>
        RecordedSnoc(code, k.obs, Ran(e.payload.v), j');
        HasErrSnoc(k.obs, Ran(e.payload.v));
      case KindSleep => RecordedSnoc(code, k.obs, Slept, j');
      case KindAwait => RecordedSnoc(code, k.obs, Got(e.payload), j');
      case KindAwaitTimeout =>
        RecordedSnoc(code, k.obs, TimedOut, j');
        HasErrSnoc(k.obs, TimedOut);
      case _ =>
    }
  }

  lemma DecidingFaithful(code: Code, k: Kernel)
    requires Faithful(code, k) && k.phase.Deciding?
    ensures Faithful(code, DecidingStep(code, k))
  {
    if k.cursor < |k.journal| {
      var e := k.journal[k.cursor];
      var j' := k.journal[..k.cursor + 1];
      assert j'[..|j'| - 1] == k.journal[..k.cursor] && j'[|j'| - 1] == e;
      HasErrSnoc(k.obs, TimedOut);
      HasErrSnoc(k.obs, Got(e.payload));
      if e.kind == KindAwaitTimeout && code(k.obs).timeout > 0 {
        RecordedSnoc(code, k.obs, TimedOut, j');
      } else if e.kind == KindAwait {
        RecordedSnoc(code, k.obs, Got(e.payload), j');
      }
    }
  }

  lemma {:induction false} RunFaithful(code: Code, j: seq<Entry>, script: seq<Answer>)
    ensures Faithful(code, KRun(code, Fresh(j), script))
  {
    if script == [] {
      FreshFaithful(code, j);
    } else {
      RunFaithful(code, j, script[..|script| - 1]);
      StepFaithful(code, KRun(code, Fresh(j), script[..|script| - 1]), script[|script| - 1]);
    }
  }
}
