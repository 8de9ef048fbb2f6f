/**
 * What an attempt makes of its run: the exact law of the outcome switch over all interleavings, and why a run
 * becomes Failed. Both are stated on the last step of the business code, not on the verdict about it.
 */
module Outcomes {
  import opened Model
  import opened Program
  import opened Kernel
  import opened Replay
  import opened Attempt
  import opened Protocol
  import opened Safety

  // ---- why a step can be the last one of an attempt ----

  /** Append or Fetch fails. */
  predicate StoreFailed(k: Kernel, a: Answer) {
    (k.phase.Appending? && !a.stored) || (k.phase.Fetching? && !a.fetched)
  }

  /** The business code ends with an error of its own. */
  predicate Raises(code: Code, k: Kernel, err: Fault) {
    k.phase.Call? && code(k.obs) == Raise(err)
  }

  /** The business code ends without one. */
  predicate Completes(code: Code, k: Kernel, a: Answer) {
    || (k.phase.Call? && code(k.obs).Done?)
    || (k.phase.Call? && code(k.obs).Return? && k.cursor < |k.journal| && k.journal[k.cursor].kind == KindReturn)
    || (k.phase.Appending? && k.phase.e.kind == KindReturn && a.stored)
  }

  /** It ends before the journal does. */
  predicate LeavesUnread(code: Code, k: Kernel) {
    k.phase.Call? && k.cursor + (if code(k.obs).Done? then 0 else 1) < |k.journal|
  }

  /** What it leaves as the run's output. */
  function OutputOf(code: Code, k: Kernel): Payload {
    if k.phase.Appending? then k.phase.e.payload
    else if code(k.obs).Return? && k.cursor < |k.journal| then k.journal[k.cursor].payload
    else Empty
  }

  /** The kinds of entry that the primitive in progress can have at this position. */
  function Kinds(code: Code, k: Kernel): set<Kind> {
    var op := code(k.obs);
    if k.phase.Call? then
      match op
      case Exec(_, _) => {KindExec}
      case Sleep(_) => {KindSleep}
      case Await(_, _) => {KindAwaitDeadline}
      case Return => {KindReturn}
      case _ => {}
    else if op.Await? && op.timeout > 0 then {KindAwait, KindAwaitTimeout}
    else {KindAwait}
  }

  /** The primitive looks at a journal entry. */
  predicate Looks(code: Code, k: Kernel) {
    && k.cursor < |k.journal|
    && (k.phase.Deciding? || (k.phase.Call? && !Ends(code(k.obs)) && (code(k.obs).Await? ==> code(k.obs).timeout > 0)))
  }

  /** The next entry is none that the primitive writes. */
  predicate Strays(code: Code, k: Kernel) {
    Looks(code, k) && k.journal[k.cursor].kind !in Kinds(code, k)
  }

  /** The next entry is one that the primitive writes, but its payload cannot be decoded. */
  predicate Undecodable(code: Code, k: Kernel) {
    && Looks(code, k) && k.phase.Call? && k.journal[k.cursor].kind in Kinds(code, k)
    && (code(k.obs).Exec? ==> Decode(k.journal[k.cursor].payload).None?)
    && (code(k.obs).Sleep? || code(k.obs).Await? ==> DecodeTime(k.journal[k.cursor].payload).None?)
    && !code(k.obs).Return?
  }

  /** Return is called with an argument that cannot be encoded. */
  predicate Unencodable(code: Code, k: Kernel, a: Answer) {
    k.phase.Call? && code(k.obs).Return? && k.cursor >= |k.journal| && a.arg.None?
  }

  // ---- the law of the outcome switch ----

  /** A failure is written unless the engine is being stopped; then the run stays as it is. */
  function UnlessStopping(stopping: bool, err: Fault): Pc {
    if stopping then Releasing else Marking(MarkFailed(err))
  }

  /** What the actor goes on to do when the step with answer `a` from `k` was the last of its business code. */
  predicate Lawful(code: Code, k: Kernel, a: Answer, stopping: bool, pc: Pc) {
    && (StoreFailed(k, a) ==> pc == Releasing)
    && (k.phase.Call? && code(k.obs).Raise? ==> pc == UnlessStopping(stopping, code(k.obs).e))
    && (Strays(code, k) ==> pc == UnlessStopping(stopping, MISMATCH))
    && (Undecodable(code, k) || Unencodable(code, k, a) ==> pc == UnlessStopping(stopping, CODEC))
    && (Completes(code, k, a) ==>
          pc == if LeavesUnread(code, k) then Marking(MarkFailed(MISMATCH))
                else Marking(MarkSucceeded(OutputOf(code, k))))
    && (k.phase.Napping? ==> pc == Marking(MarkAwaiting(At(k.phase.t))))
    && (k.phase.Timing? ==> pc == Marking(MarkAwaiting(k.awaitDl)))
  }

  /** There is no other way for an attempt to end. */
  predicate Caused(code: Code, k: Kernel, a: Answer) {
    || StoreFailed(k, a) || (k.phase.Call? && code(k.obs).Raise?) || Strays(code, k) || Undecodable(code, k)
    || Unencodable(code, k, a) || Completes(code, k, a) || k.phase.Napping? || k.phase.Timing?
  }

  lemma EndIsLawful(code: Code, k: Kernel, a: Answer, stopping: bool)
    requires Faithful(code, k) && !k.phase.Ended? && KStep(code, k, a).phase.Ended?
    ensures Caused(code, k, a) && Lawful(code, k, a, stopping, AfterRun(Judge(KStep(code, k, a), stopping)))
  {
    match k.phase
    case Call => CallIsLawful(code, k, a, stopping);
    case Deciding =>
    case _ =>
  }

  lemma CallIsLawful(code: Code, k: Kernel, a: Answer, stopping: bool)
    requires Faithful(code, k) && k.phase.Call? && KStep(code, k, a).phase.Ended?
    ensures Caused(code, k, a) && Lawful(code, k, a, stopping, AfterRun(Judge(KStep(code, k, a), stopping)))
  {
    match code(k.obs)
    case Exec(_, _) =>
    case Sleep(_) =>
    case Await(_, _) =>
    case _ =>
  }

  // ---- over executions ----

  /** Step `u` of the execution is a step of the actor's business code, and the last one. */
  ghost predicate LastStep(code: Code, states: seq<Sys>, events: seq<Event>, u: nat, id: nat)
    requires |states| == |events| + 1
  {
    && u < |events| && StepOf(events[u], id)
    && id in states[u].actors && states[u].actors[id].pc.Active? && !states[u].actors[id].pc.k.phase.Ended?
    && id in states[u + 1].actors
    && states[u + 1].actors[id].pc == Active(KernelOn(code, states[u].disk, states[u].actors[id].pc.k, events[u].a.k))
    && states[u + 1].actors[id].pc.k.phase.Ended?
  }

  predicate StepOf(e: Event, id: nat) {
    e.Step? && e.id == id
  }

  /** What is asked of an actor's business code and what the world answers at step `u`. */
  function KernelAt(states: seq<Sys>, u: nat, id: nat): Kernel
    requires u < |states| && id in states[u].actors && states[u].actors[id].pc.Active?
  {
    states[u].actors[id].pc.k
  }

  function AnswerAt(code: Code, states: seq<Sys>, events: seq<Event>, u: nat, id: nat): Answer
    requires u < |states| && u < |events| && events[u].Step? && id in states[u].actors
    requires states[u].actors[id].pc.Active?
  {
    events[u].a.k.(slot := SlotFor(code, states[u].disk, KernelAt(states, u, id)))
  }

  /** Nothing but its own step or its end changes what an actor is about to do. */
  lemma Unmoved(code: Code, lease: Time, s: Sys, e: Event, id: nat)
    requires Enabled(s, e) && id in Next(code, lease, s, e).actors && !StepOf(e, id)
    ensures if id in s.actors then Next(code, lease, s, e).actors[id] == s.actors[id]
            else Next(code, lease, s, e).actors[id] == First(Next(code, lease, s, e).actors[id].job)
  {
    if e.Step? {
      OthersStay(code, lease, s, e.id, e.a, id);
    }
  }

  lemma OthersStay(code: Code, lease: Time, s: Sys, id: nat, a: Ans, other: nat)
    requires id in s.actors && other != id
    ensures var s' := StepActor(code, lease, s, id, a);
            (other in s'.actors <==> other in s.actors) && (other in s.actors ==> s'.actors[other] == s.actors[other])
  {
  }

  /** An attempt that has ended got there by a last step. */
  lemma {:induction false} EndedBy(
      code: Code, lease: Time, states: seq<Sys>, events: seq<Event>, n: nat, id: nat) returns (u: nat)
    requires Execution(code, lease, states, events) && n < |states| && id in states[n].actors
    requires states[n].actors[id].pc.Active? && states[n].actors[id].pc.k.phase.Ended?
    ensures u < n && LastStep(code, states, events, u, id)
    ensures states[u + 1].actors[id].pc == states[n].actors[id].pc
  {
    assert n > 0;
    var m := n - 1;
    assert Enabled(states[m], events[m]) && states[n] == Next(code, lease, states[m], events[m]);
    if StepOf(events[m], id) {
      ExecutionBase(code, lease, states, events, m);
      assert GroundedPc(code, states[m].disk, states[m].actors[id].pc);
      u := m;
    } else {
      Unmoved(code, lease, states[m], events[m], id);
      u := EndedBy(code, lease, states, events, m, id);
    }
  }

  /**
   * The exact law of the outcome switch, in any interleaving. When the engine looks at an attempt that has ended,
   * what it goes on to do follows from the last step of the business code, and `stopping` alone: after a failed
   * Append or Fetch it writes nothing; the code's own error, a stray entry, or a value that cannot be decoded or
   * encoded is written as a failure with that very text, unless the engine is being stopped; code that came to its
   * end succeeds, unless entries are left unread; a suspension is written as one.
   */
  lemma OutcomeLaw(code: Code, lease: Time, states: seq<Sys>, events: seq<Event>, n: nat, id: nat) returns (u: nat)
    requires Execution(code, lease, states, events) && n < |events| && StepOf(events[n], id)
    requires id in states[n].actors && states[n].actors[id].pc.Active? && states[n].actors[id].pc.k.phase.Ended?
    ensures u < n && LastStep(code, states, events, u, id)
    ensures var (k, a) := (KernelAt(states, u, id), AnswerAt(code, states, events, u, id));
            && Faithful(code, k) && k.journal == states[u].disk.log && Caused(code, k, a)
            && id in states[n + 1].actors
            && Lawful(code, k, a, events[n].a.k.cancelled, states[n + 1].actors[id].pc)
  {
    u := EndedBy(code, lease, states, events, n, id);
    ExecutionBase(code, lease, states, events, u);
    assert GroundedPc(code, states[u].disk, states[u].actors[id].pc);
    EndIsLawful(code, KernelAt(states, u, id), AnswerAt(code, states, events, u, id), events[n].a.k.cancelled);
    assert states[n + 1] == Next(code, lease, states[n], events[n]);
  }

  /** The verdict is then written, or the attempt gives up: metadata and text, and who is told next. */
  lemma OutcomeIsWritten(code: Code, lease: Time, states: seq<Sys>, events: seq<Event>, n: nat, id: nat)
    requires Execution(code, lease, states, events) && n < |events| && StepOf(events[n], id)
    requires id in states[n].actors && states[n].actors[id].pc.Marking?
    ensures id in states[n + 1].actors
    ensures var m := states[n].disk.meta;
            states[n + 1].disk.meta ==
            if !events[n].a.ok then m
            else
              match states[n].actors[id].pc.m
              case MarkFailed(err) => m.(status := Failed, err := err)
              case MarkSucceeded(out) =>
                m.(status := Succeeded, err := "", output := if out == Empty then m.output else out)
              case MarkAwaiting(_) => m.(status := Awaiting)
              case MarkCancelled(reason) =>
                m.(status := Status.Cancelled, err := if reason == "" then "cancelled" else reason)
              case MarkReset => m.(status := Running, err := "", output := Empty)
              case MarkRunning => m.(status := Running)
    ensures var (mark, pc) := (states[n].actors[id].pc.m, states[n + 1].actors[id].pc);
            && (!events[n].a.ok ==> pc == Releasing)
            && (events[n].a.ok && (mark.MarkFailed? || mark.MarkSucceeded?) ==> pc == Notifying)
            && (events[n].a.ok && mark.MarkAwaiting? ==> pc == Waking(mark.dl))
  {
    assert states[n + 1] == Next(code, lease, states[n], events[n]);
  }

  /** An attempt that a failing store has ended. */
  predicate Spent(pc: Pc) {
    pc == Releasing || (pc.Active? && pc.k.phase == Ended(StoreFault))
  }

  lemma SpentStep(code: Code, lease: Time, s: Sys, id: nat, a: Ans)
    requires id in s.actors && Spent(s.actors[id].pc)
    ensures var s' := StepActor(code, lease, s, id, a);
            && s'.disk.meta == s.disk.meta && s'.disk.log == s.disk.log && s'.disk.mail == s.disk.mail
            && (id in s'.actors ==> s'.actors[id].pc == Releasing)
  {
  }

  lemma Spends(code: Code, states: seq<Sys>, events: seq<Event>, u: nat, id: nat)
    requires |states| == |events| + 1 && LastStep(code, states, events, u, id)
    requires StoreFailed(KernelAt(states, u, id), events[u].a.k)
    ensures Spent(states[u + 1].actors[id].pc)
  {
  }

  /** After a failed Append or Fetch, that attempt writes nothing more: no metadata, no journal, no mailbox. */
  lemma {:induction false} StoreFaultWritesNothing(
      code: Code, lease: Time, states: seq<Sys>, events: seq<Event>, u: nat, n: nat, id: nat)
    requires Execution(code, lease, states, events) && u < n < |states| && LastStep(code, states, events, u, id)
    requires StoreFailed(KernelAt(states, u, id), events[u].a.k)
    requires forall w | u < w <= n :: id in states[w].actors
    ensures Spent(states[n].actors[id].pc)
    ensures n < |events| && StepOf(events[n], id) ==>
              && states[n + 1].disk.meta == states[n].disk.meta && states[n + 1].disk.log == states[n].disk.log
              && states[n + 1].disk.mail == states[n].disk.mail
    decreases n
  {
    var m := n - 1;
    if u == m {
      Spends(code, states, events, u, id);
    } else {
      assert states[n] == Next(code, lease, states[m], events[m]) && Enabled(states[m], events[m]);
      StoreFaultWritesNothing(code, lease, states, events, u, m, id);
      if StepOf(events[m], id) {
        SpentStep(code, lease, states[m], id, events[m].a);
      } else {
        Unmoved(code, lease, states[m], events[m], id);
      }
    }
    if n < |events| && StepOf(events[n], id) {
      assert states[n + 1] == Next(code, lease, states[n], events[n]);
      SpentStep(code, lease, states[n], id, events[n].a);
    }
  }

  // ---- why a run becomes Failed ----

  /** One entry further than where the code stands. */
  lemma NextEntry(code: Code, j: seq<Entry>, n: nat)
    requires n < |j|
    ensures Walk(code, j[..n + 1]) == Advance(code, Walk(code, j[..n]), j[n])
  {
    assert j[..n] + [j[n]] == j[..n + 1];
    WalkSnoc(code, j[..n], j[n]);
  }

  /** A stray entry is one that the code could not have written at its position. */
  lemma StrayIsLost(code: Code, k: Kernel)
    requires Faithful(code, k) && Strays(code, k)
    ensures Walk(code, k.journal) == Lost
  {
    StandsAt(code, k);
    EraseClean(k.obs);
    NextEntry(code, k.journal, k.cursor);
    LostStays(code, k.journal, k.cursor + 1);
  }

  /** And so is an entry behind the end of the code. */
  lemma UnreadIsLost(code: Code, k: Kernel, a: Answer)
    requires Faithful(code, k) && Completes(code, k, a) && LeavesUnread(code, k)
    ensures Walk(code, k.journal) == Lost
  {
    StandsAt(code, k);
    EraseClean(k.obs);
    NextEntry(code, k.journal, k.cursor);
    if code(k.obs).Return? {
      NextEntry(code, k.journal, k.cursor + 1);
    }
    LostStays(code, k.journal, k.cursor + if code(k.obs).Done? then 1 else 2);
  }

  /**
   * Why the step of actor `id` from `s` makes the attempt a failure with the text `err`: the registry check, the
   * error that the code raised, a journal that the code could not have written, or a value without an encoding.
   */
  ghost predicate Blames(code: Code, s: Sys, id: nat, a: Ans, err: Fault)
    requires id in s.actors
  {
    match s.actors[id].pc
    case Locked =>
      a.ok && if a.registered.None? then err == NOT_REGISTERED
              else a.registered.value != s.disk.meta.version && err == VERSION_MISMATCH
    case Active(k) =>
      || Raises(code, k, err)
      || (err == MISMATCH && Walk(code, s.disk.log) == Lost)
      || (err == CODEC && (Undecodable(code, k) || Unencodable(code, k, a.k)))
    case _ => false
  }

  /**
   * A failure about to be written has such a cause, and was decided at step `v`: there the engine was not being
   * stopped, or the code had come to an end of its own.
   */
  lemma {:induction false} MarkHasACause(
      code: Code, lease: Time, states: seq<Sys>, events: seq<Event>, n: nat, id: nat) returns (u: nat, v: nat)
    requires Execution(code, lease, states, events) && n < |states| && id in states[n].actors
    requires states[n].actors[id].pc.Marking? && states[n].actors[id].pc.m.MarkFailed?
    ensures u <= v < n && StepOf(events[u], id) && StepOf(events[v], id) && id in states[u].actors
    ensures states[u].actors[id].pc.Active? ==>
              !events[v].a.k.cancelled || Completes(code, KernelAt(states, u, id), events[u].a.k)
    ensures Blames(code, states[u], id, events[u].a, states[n].actors[id].pc.m.err)
  {
    assert n > 0;
    var m := n - 1;
    assert Enabled(states[m], events[m]) && states[n] == Next(code, lease, states[m], events[m]);
    if !StepOf(events[m], id) {
      Unmoved(code, lease, states[m], events[m], id);
      u, v := MarkHasACause(code, lease, states, events, m, id);
    } else if states[m].actors[id].pc.Locked? {
      u, v := m, m;
    } else {
      u := OutcomeLaw(code, lease, states, events, m, id);
      v := m;
      var k, a := KernelAt(states, u, id), AnswerAt(code, states, events, u, id);
      if Strays(code, k) {
        StrayIsLost(code, k);
      } else if Completes(code, k, a) && LeavesUnread(code, k) {
        UnreadIsLost(code, k, a);
      }
    }
  }

  /**
   * Whenever a run becomes Failed, in any interleaving and for any code, the text of its error says why: it is not
   * registered, its version is another, its code raised exactly that error, its code could not have written its
   * journal, or a recorded value could not be decoded or the argument of Return not be encoded. Nothing else ever
   * fails a run: no failing store, and no interruption by an engine that is being stopped.
   */
  lemma FailureHasACause(code: Code, lease: Time, states: seq<Sys>, events: seq<Event>, n: nat)
    returns (u: nat, v: nat)
    requires Execution(code, lease, states, events) && n < |events|
    requires states[n].disk.meta.status != Failed && states[n + 1].disk.meta.status == Failed
    ensures u <= v < n && events[n].Step? && StepOf(events[u], events[n].id) && StepOf(events[v], events[n].id)
    ensures events[n].id in states[u].actors
    ensures states[u].actors[events[n].id].pc.Active? ==>
              !events[v].a.k.cancelled || Completes(code, KernelAt(states, u, events[n].id), events[u].a.k)
    ensures Blames(code, states[u], events[n].id, events[u].a, states[n + 1].disk.meta.err)
    ensures states[n + 1].disk.meta ==
            states[n].disk.meta.(status := Failed, err := states[n + 1].disk.meta.err)
  {
    assert Enabled(states[n], events[n]) && states[n + 1] == Next(code, lease, states[n], events[n]);
    u, v := MarkHasACause(code, lease, states, events, n, events[n].id);
  }

  // ---- only the registered version is run ----

  lemma VersionStays(code: Code, lease: Time, s: Sys, e: Event)
    requires Enabled(s, e)
    ensures Next(code, lease, s, e).disk.meta.version == s.disk.meta.version
  {
  }

  /** An attempt reads a journal and runs code only if the code registered for the run has the run's version. */
  lemma {:induction false} OnlyTheRegisteredVersionRuns(
      code: Code, lease: Time, states: seq<Sys>, events: seq<Event>, n: nat, id: nat) returns (u: nat)
    requires Execution(code, lease, states, events) && n < |states| && id in states[n].actors
    requires var pc := states[n].actors[id].pc; pc.Reading? || pc.Loaded? || pc.Active?
    ensures u < n && StepOf(events[u], id) && id in states[u].actors && states[u].actors[id].pc == Locked
    ensures events[u].a.registered == Some(states[n].disk.meta.version)
    ensures !IsTerminal(states[u].disk.meta.status)
  {
    assert n > 0;
    var m := n - 1;
    assert Enabled(states[m], events[m]) && states[n] == Next(code, lease, states[m], events[m]);
    VersionStays(code, lease, states[m], events[m]);
    if !StepOf(events[m], id) {
      Unmoved(code, lease, states[m], events[m], id);
      u := OnlyTheRegisteredVersionRuns(code, lease, states, events, m, id);
    } else if states[m].actors[id].pc.Locked? {
      u := m;
    } else {
      u := OnlyTheRegisteredVersionRuns(code, lease, states, events, m, id);
    }
  }
}
