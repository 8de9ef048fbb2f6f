/** What holds over all interleavings, for any business code. */
module Safety {
  import opened Model
  import opened Program
  import opened Kernel
  import opened Attempt
  import opened Protocol

  // ---- mutual exclusion ----

  ghost predicate HoldsLease(s: Sys, i: nat)
    requires i in s.actors
  {
    Holding(s.actors[i].pc) ==> s.disk.lock == Some(s.actors[i].until) && s.wall < s.actors[i].until
  }

  ghost predicate Exclusive(s: Sys) {
    && (forall i | i in s.actors :: HoldsLease(s, i))
    && (forall i, j | i in s.actors && j in s.actors && Holding(s.actors[i].pc) && Holding(s.actors[j].pc) :: i == j)
  }

  /** A step changes one actor at most; if another one holds the lock, it changes neither metadata nor journal. */
  lemma StepFrame(code: Code, lease: Time, s: Sys, id: nat, a: Ans)
    requires id in s.actors && lease > 0 && Exclusive(s)
    ensures var s' := StepActor(code, lease, s, id, a);
            && s'.wall == s.wall
            && (forall i | i in s'.actors :: i in s.actors && (i != id ==> s'.actors[i] == s.actors[i]))
            && (forall i | i in s.actors && i != id :: i in s'.actors)
            && (!Holding(s.actors[id].pc) ==>
              s'.disk.meta == s.disk.meta && s'.disk.log == s.disk.log && s'.calls == s.calls)
            && (id in s'.actors && Holding(s'.actors[id].pc) && !Holding(s.actors[id].pc) ==>
                  s'.actors[id].pc == Locked && LockFree(s))
  {
  }

  lemma StepExclusive(code: Code, lease: Time, s: Sys, id: nat, a: Ans)
    requires id in s.actors && lease > 0 && Exclusive(s)
    ensures Exclusive(StepActor(code, lease, s, id, a))
  {
    StepFrame(code, lease, s, id, a);
    var s' := StepActor(code, lease, s, id, a);
    forall i | i in s'.actors ensures HoldsLease(s', i) {
      assert HoldsLease(s, i);
      assert HoldsLease(s, id);
    }
    assert forall i | i in s.actors :: HoldsLease(s, i);
  }

  lemma NextExclusive(code: Code, lease: Time, s: Sys, e: Event)
    requires lease > 0 && Exclusive(s) && Enabled(s, e)
    ensures Exclusive(Next(code, lease, s, e))
  {
    assert forall i | i in s.actors :: HoldsLease(s, i);
    if e.Step? {
      StepExclusive(code, lease, s, e.id, e.a);
    }
  }

  // ---- the working copy ----

  /** The lock holder's copy of the journal is the persisted journal, and its kernel is where it should be. */
  ghost predicate GroundedPc(code: Code, d: Disk, pc: Pc) {
    match pc
    case Loaded(k) => k == Fresh(d.log)
    case Active(k) => Faithful(code, k) && k.journal == d.log
    case _ => true
  }

  ghost predicate Grounded(code: Code, s: Sys) {
    forall i | i in s.actors :: GroundedPc(code, s.disk, s.actors[i].pc)
  }

  lemma ActiveGrounded(code: Code, s: Sys, id: nat, k: Kernel, a: Ans)
    requires id in s.actors && Faithful(code, k) && k.journal == s.disk.log
    ensures var s' := ActiveStep(code, s, id, k, a);
            id in s'.actors && GroundedPc(code, s'.disk, s'.actors[id].pc)
  {
    if !k.phase.Ended? {
      StepFaithful(code, k, a.k.(slot := SlotFor(code, s.disk, k)));
      JournalFollows(code, s.disk, k, a.k);
    }
  }

  lemma JournalFollows(code: Code, d: Disk, k: Kernel, a: Answer)
    requires k.journal == d.log && !k.phase.Ended?
    ensures KernelOn(code, d, k, a).journal == DiskLog(d, k, a)
  {
  }

  lemma NextGrounded(code: Code, lease: Time, s: Sys, e: Event)
    requires lease > 0 && Exclusive(s) && Grounded(code, s) && Enabled(s, e)
    ensures Grounded(code, Next(code, lease, s, e))
  {
    var s' := Next(code, lease, s, e);
    assert forall i | i in s.actors :: GroundedPc(code, s.disk, s.actors[i].pc);
    if e.Step? {
      var id := e.id;
      StepFrame(code, lease, s, id, e.a);
      if s.actors[id].pc.Active? {
        ActiveGrounded(code, s, id, s.actors[id].pc.k, e.a);
      } else if s.actors[id].pc.Loaded? {
        FreshFaithful(code, s.disk.log);
      }
      forall i | i in s'.actors ensures GroundedPc(code, s'.disk, s'.actors[i].pc) {
        assert GroundedPc(code, s.disk, s.actors[i].pc);
        if i != id && Holding(s.actors[i].pc) {
          assert !Holding(s.actors[id].pc);
        }
      }
    }
  }

  // ---- executions ----

  ghost predicate Base(code: Code, s: Sys) {
    Exclusive(s) && Grounded(code, s)
  }

  lemma {:induction false} ExecutionBase(code: Code, lease: Time, states: seq<Sys>, events: seq<Event>, n: nat)
    requires Execution(code, lease, states, events) && n < |states|
    ensures Base(code, states[n])
  {
    if n > 0 {
      ExecutionBase(code, lease, states, events, n - 1);
      NextExclusive(code, lease, states[n - 1], events[n - 1]);
      NextGrounded(code, lease, states[n - 1], events[n - 1]);
    }
  }

  /** Mutual exclusion: no two live actors are in their critical sections together. */
  lemma MutualExclusion(code: Code, lease: Time, states: seq<Sys>, events: seq<Event>, n: nat, i: nat, j: nat)
    requires Execution(code, lease, states, events) && n < |states|
    requires i in states[n].actors && Holding(states[n].actors[i].pc)
    requires j in states[n].actors && Holding(states[n].actors[j].pc)
    ensures i == j
  {
    ExecutionBase(code, lease, states, events, n);
  }

  /** Only the lock holder changes metadata or journal, and the journal only grows, by one entry at a time. */
  lemma OnlyTheHolderWrites(code: Code, lease: Time, states: seq<Sys>, events: seq<Event>, n: nat)
    requires Execution(code, lease, states, events) && n < |events|
    requires var s, s' := states[n].disk, states[n + 1].disk; s'.meta != s.meta || s'.log != s.log
    ensures events[n].Step? && events[n].id in states[n].actors && Holding(states[n].actors[events[n].id].pc)
    ensures var s, s' := states[n].disk, states[n + 1].disk;
            s.log <= s'.log && |s'.log| <= |s.log| + 1
    ensures forall j | j in states[n].actors && Holding(states[n].actors[j].pc) :: j == events[n].id
  {
    ExecutionBase(code, lease, states, events, n);
    if events[n].Step? {
      StepFrame(code, lease, states[n], events[n].id, events[n].a);
      LogGrows(code, lease, states[n], events[n].id, events[n].a);
    }
  }

  lemma LogGrows(code: Code, lease: Time, s: Sys, id: nat, a: Ans)
    requires id in s.actors
    ensures var l, l' := s.disk.log, StepActor(code, lease, s, id, a).disk.log; l <= l' && |l'| <= |l| + 1
  {
  }

  lemma {:induction false} LogOnlyGrows(code: Code, lease: Time, states: seq<Sys>, events: seq<Event>, m: nat, n: nat)
    requires Execution(code, lease, states, events) && m <= n < |states|
    ensures states[m].disk.log <= states[n].disk.log
    decreases n
  {
    if m < n {
      LogOnlyGrows(code, lease, states, events, m, n - 1);
      if events[n - 1].Step? {
        LogGrows(code, lease, states[n - 1], events[n - 1].id, events[n - 1].a);
      }
    }
  }

  // ---- status ----

  /** The write a lock holder is about to make is one its status check allowed. */
  ghost predicate LicensedPc(d: Disk, actor: Actor) {
    match actor.pc
    case Reading => actor.job.Run? && !IsTerminal(d.meta.status)
    case Loaded(_) => actor.job.Run? && !IsTerminal(d.meta.status)
    case Active(_) => actor.job.Run? && d.meta.status == Running
    case Marking(m) => (
      match m
      case MarkRunning => false
      case MarkReset => actor.job.Retry? && d.meta.status == Failed
      case MarkCancelled(_) => actor.job.Cancel? && !IsTerminal(d.meta.status)
      case _ => actor.job.Run? && !IsTerminal(d.meta.status))
    case Auditing => actor.job.Cancel? && d.meta.status == Cancelled
    case Clearing => actor.job.Cancel? && d.meta.status == Cancelled
    case Waking(_) => d.meta.status == Awaiting
    case Notifying => IsTerminal(d.meta.status)
    case _ => true
  }

  ghost predicate Licensed(s: Sys) {
    forall i | i in s.actors :: LicensedPc(s.disk, s.actors[i])
  }

  lemma StepLicensed(code: Code, lease: Time, s: Sys, id: nat, a: Ans)
    requires id in s.actors && LicensedPc(s.disk, s.actors[id])
    ensures var s' := StepActor(code, lease, s, id, a);
            id in s'.actors ==> LicensedPc(s'.disk, s'.actors[id])
  {
  }

  lemma NextLicensed(code: Code, lease: Time, s: Sys, e: Event)
    requires lease > 0 && Exclusive(s) && Licensed(s) && Enabled(s, e)
    ensures Licensed(Next(code, lease, s, e))
  {
    var s' := Next(code, lease, s, e);
    if e.Step? {
      StepFrame(code, lease, s, e.id, e.a);
      StepLicensed(code, lease, s, e.id, e.a);
      forall i | i in s'.actors ensures LicensedPc(s'.disk, s'.actors[i]) {
        assert LicensedPc(s.disk, s.actors[i]);
        if i != e.id && Holding(s.actors[i].pc) {
          assert !Holding(s.actors[e.id].pc);
        }
      }
    } else {
      forall i | i in s'.actors ensures LicensedPc(s'.disk, s'.actors[i]) {
        assert i in s.actors ==> LicensedPc(s.disk, s.actors[i]);
      }
    }
  }

  lemma {:induction false} ExecutionLicensed(code: Code, lease: Time, states: seq<Sys>, events: seq<Event>, n: nat)
    requires Execution(code, lease, states, events) && n < |states|
    ensures Licensed(states[n])
  {
    if n > 0 {
      ExecutionLicensed(code, lease, states, events, n - 1);
      ExecutionBase(code, lease, states, events, n - 1);
      NextLicensed(code, lease, states[n - 1], events[n - 1]);
    }
  }

  /** What one event may do to the metadata of a terminal run: nothing, except that Retry resets a failure. */
  lemma TerminalStep(code: Code, lease: Time, s: Sys, e: Event)
    requires Licensed(s) && Enabled(s, e) && IsTerminal(s.disk.meta.status)
    ensures var m, m' := s.disk.meta, Next(code, lease, s, e).disk.meta;
            m' != m ==> m.status == Failed && m' == Apply(MarkReset, m) && e.Step? && s.actors[e.id].job.Retry?
  {
    if e.Step? {
      assert LicensedPc(s.disk, s.actors[e.id]);
    }
  }

  /** Succeeded and Cancelled are absorbing: nothing ever overwrites them, their output or their reason. */
  lemma {:induction false} Absorbing(code: Code, lease: Time, states: seq<Sys>, events: seq<Event>, m: nat, n: nat)
    requires Execution(code, lease, states, events) && m <= n < |states|
    requires states[m].disk.meta.status == Succeeded || states[m].disk.meta.status == Cancelled
    ensures states[n].disk.meta == states[m].disk.meta
    decreases n
  {
    if m < n {
      Absorbing(code, lease, states, events, m, n - 1);
      ExecutionLicensed(code, lease, states, events, n - 1);
      TerminalStep(code, lease, states[n - 1], events[n - 1]);
    }
  }

  /** Failed is left only by a Retry, which clears error and output and touches nothing else. */
  lemma FailedLeftOnlyByRetry(code: Code, lease: Time, states: seq<Sys>, events: seq<Event>, n: nat)
    requires Execution(code, lease, states, events) && n < |events|
    requires states[n].disk.meta.status == Failed && states[n + 1].disk.meta != states[n].disk.meta
    ensures events[n].Step? && states[n].actors[events[n].id].job.Retry?
    ensures var d := states[n].disk;
            states[n + 1].disk == d.(meta := d.meta.(status := Running, err := "", output := Empty))
  {
    ExecutionLicensed(code, lease, states, events, n);
    TerminalStep(code, lease, states[n], events[n]);
  }

  /** A terminal run has no live attempt in its business code; its journal grows by the audit entry of Cancel only. */
  lemma TerminalJournal(code: Code, lease: Time, states: seq<Sys>, events: seq<Event>, n: nat)
    requires Execution(code, lease, states, events) && n < |events|
    requires IsTerminal(states[n].disk.meta.status) && states[n + 1].disk.log != states[n].disk.log
    ensures states[n].disk.meta.status == Cancelled
    ensures exists e: Entry :: e.kind == KindCancel && states[n + 1].disk.log == states[n].disk.log + [e]
  {
    ExecutionLicensed(code, lease, states, events, n);
    var e := events[n];
    if e.Step? {
      assert LicensedPc(states[n].disk, states[n].actors[e.id]);
      var job := states[n].actors[e.id].job;
      var audit := Entry(KindCancel, "", if job.Cancel? && job.reason != "" then Data(job.reason) else Empty);
      assert audit.kind == KindCancel;
    }
  }

  // ---- effects ----

  /** An Execute function is called only at the end of the persisted journal, by an attempt that has read all of it. */
  lemma CallsAtTheEnd(code: Code, lease: Time, states: seq<Sys>, events: seq<Event>, n: nat)
    requires Execution(code, lease, states, events) && n < |events| && states[n + 1].calls != states[n].calls
    ensures states[n + 1].calls == states[n].calls + [|states[n].disk.log|]
    ensures events[n].Step? && states[n].actors[events[n].id].pc.Active?
    ensures var k := states[n].actors[events[n].id].pc.k;
            k.phase.Calling? && k.cursor == |k.journal| && k.journal == states[n].disk.log
            && code(k.obs).Exec? && Recorded(code, k.obs, states[n].disk.log)
  {
    ExecutionBase(code, lease, states, events, n);
    if events[n].Step? {
      var id := events[n].id;
      assert GroundedPc(code, states[n].disk, states[n].actors[id].pc);
    }
  }

  lemma {:induction false} CallsBelow(code: Code, lease: Time, states: seq<Sys>, events: seq<Event>, n: nat)
    requires Execution(code, lease, states, events) && n < |states|
    ensures forall i | 0 <= i < |states[n].calls| :: states[n].calls[i] <= |states[n].disk.log|
  {
    if n > 0 {
      CallsBelow(code, lease, states, events, n - 1);
      LogOnlyGrows(code, lease, states, events, n - 1, n);
      if states[n].calls != states[n - 1].calls {
        CallsAtTheEnd(code, lease, states, events, n - 1);
      }
    }
  }

  /** No repeated effects: once the entry at a position is stored, no Execute function is called for it again. */
  lemma {:induction false} NoRepeatedEffects(
      code: Code, lease: Time, states: seq<Sys>, events: seq<Event>, m: nat, n: nat, p: nat)
    requires Execution(code, lease, states, events) && m <= n < |states| && p < |states[m].disk.log|
    ensures states[m].calls <= states[n].calls
    ensures forall i | |states[m].calls| <= i < |states[n].calls| :: states[n].calls[i] != p
    decreases n
  {
    if m < n {
      NoRepeatedEffects(code, lease, states, events, m, n - 1, p);
      LogOnlyGrows(code, lease, states, events, m, n - 1);
      if states[n].calls != states[n - 1].calls {
        CallsAtTheEnd(code, lease, states, events, n - 1);
      }
    }
  }
}
