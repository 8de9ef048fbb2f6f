/** Where results come from, over all interleavings of a run's actors. */
module Honesty {
  import opened Model
  import opened Program
  import opened Kernel
  import opened Worlds
  import opened Exactness
  import opened Attempt
  import opened Origin
  import opened Protocol
  import opened Safety
  import opened Recording

  /** What an event adds comes from the world: what functions return, what Return is called with, what is pushed. */
  predicate Fair(w: World, code: Code, s: Sys, e: Event) {
    e.Step? && e.id in s.actors ==>
      match s.actors[e.id].pc
      case Active(k) => Honest(w, code, k, e.a.k.(slot := None))
      case Pushing => e.a.ok && s.actors[e.id].job.Send? ==> w.sends(s.actors[e.id].job.sig, s.actors[e.id].job.payload)
      case _ => true
  }

  /** A whole execution in one world. */
  ghost predicate FairExecution(
      w: World, code: Code, lease: Time, states: seq<Sys>, events: seq<Event>)
  {
    Execution(code, lease, states, events) && forall i | 0 <= i < |events| :: Fair(w, code, states[i], events[i])
  }

  /** A success with results of this world. */
  ghost predicate Earned(w: World, code: Code, log: seq<Entry>, out: Payload) {
    exists obs :: Trace(code, obs, log, out) && Backed(w, code, obs) && Offered(w, code, obs, out)
  }

  ghost predicate FairPc(w: World, code: Code, d: Disk, pc: Pc) {
    match pc
    case Active(k) => Sincere(w, code, k)
    case Marking(m) => m.MarkSucceeded? ==> Earned(w, code, d.log, m.out)
    case _ => true
  }

  ghost predicate FairDisk(w: World, code: Code, d: Disk) {
    && (forall sig | sig in d.mail :: w.sends(sig, d.mail[sig]))
    && Vouched(w, code, Core(d))
    && (d.meta.status == Succeeded ==> Earned(w, code, d.log, d.meta.output))
  }

  ghost predicate FairInv(w: World, code: Code, s: Sys) {
    FairDisk(w, code, s.disk) && forall i | i in s.actors :: FairPc(w, code, s.disk, s.actors[i].pc)
  }

  /** The answers of one kernel step, the mailbox's included. */
  lemma SlotIsSent(w: World, code: Code, d: Disk, k: Kernel, a: Answer)
    requires FairDisk(w, code, d) && Honest(w, code, k, a.(slot := None))
    ensures Honest(w, code, k, a.(slot := SlotFor(code, d, k)))
  {
  }

  lemma ActiveFair(w: World, code: Code, s: Sys, id: nat, k: Kernel, a: Ans)
    requires ErrorNeutral(code) && id in s.actors && s.actors[id].pc == Active(k) && !k.phase.Ended?
    requires Faithful(code, k) && k.journal == s.disk.log && s.disk.meta.status == Running && Shaped(s.disk)
    requires FairDisk(w, code, s.disk) && Sincere(w, code, k) && Honest(w, code, k, a.k.(slot := None))
    ensures var s' := ActiveStep(code, s, id, k, a);
            FairDisk(w, code, s'.disk) && FairPc(w, code, s'.disk, s'.actors[id].pc)
  {
    var s' := ActiveStep(code, s, id, k, a);
    var k' := KernelOn(code, s.disk, k, a.k);
    SlotIsSent(w, code, s.disk, k, a.k);
    StepSincere(w, code, k, a.k.(slot := SlotFor(code, s.disk, k)));
    JournalFollows(code, s.disk, k, a.k);
    assert s'.actors[id].pc == Active(k') && s'.disk.log == k'.journal;
    LiveCore(code, s.disk, k, a.k);
  }

  /** An attempt does not append a KindCancel. */
  lemma LiveCore(code: Code, d: Disk, k: Kernel, a: Answer)
    requires Faithful(code, k) && k.journal == d.log && Shaped(d) && d.meta.status == Running && !k.phase.Ended?
    ensures Core(DiskAfter(code, d, k, a)) == DiskAfter(code, d, k, a).log
  {
    CoreOfLive(d);
    if k.phase.Appending? && a.stored {
      AppendsClean(code, k);
      assert (d.log + [k.phase.e])[|d.log|] == k.phase.e;
    }
  }

  lemma JudgedEarned(w: World, code: Code, d: Disk, k: Kernel, cancelled: bool)
    requires ErrorNeutral(code) && Faithful(code, k) && Sincere(w, code, k) && k.journal == d.log
    requires k.phase.Ended? && Judge(k, cancelled).Succeed?
    ensures Earned(w, code, d.log, Judge(k, cancelled).out)
  {
    assert k.journal[..k.cursor] == k.journal;
    var rec := WhoReturned(w, code, k, Judge(k, cancelled).out);
  }

  lemma MarkingFair(w: World, code: Code, lease: Time, s: Sys, id: nat, m: Mark, a: Ans)
    requires id in s.actors && s.actors[id].pc == Marking(m) && FairPc(w, code, s.disk, Marking(m))
    requires FairDisk(w, code, s.disk) && LicensedPc(s.disk, s.actors[id]) && MetaOk(code, s.disk)
    requires Authored(s.disk.log) || !m.MarkSucceeded?
    ensures FairDisk(w, code, StepActor(code, lease, s, id, a).disk)
  {
    var d' := StepActor(code, lease, s, id, a).disk;
    assert Core(d') == Core(s.disk);
    if m.MarkSucceeded? {
      assert Completed(code, s.disk.log, m.out);
      OutputStands(code, s.disk, m.out);
    }
  }

  lemma StepFair(w: World, code: Code, lease: Time, s: Sys, id: nat, a: Ans)
    requires ErrorNeutral(code) && id in s.actors && Fair(w, code, s, Step(id, a))
    requires FairDisk(w, code, s.disk) && FairPc(w, code, s.disk, s.actors[id].pc)
    requires Shaped(s.disk) && ShapedPc(s.disk, s.actors[id].pc) && Authored(Core(s.disk)) && MetaOk(code, s.disk)
    requires GroundedPc(code, s.disk, s.actors[id].pc) && LicensedPc(s.disk, s.actors[id])
    ensures var s' := StepActor(code, lease, s, id, a);
            FairDisk(w, code, s'.disk) && (id in s'.actors ==> FairPc(w, code, s'.disk, s'.actors[id].pc))
  {
    match s.actors[id].pc
    case Active(k) =>
      if !k.phase.Ended? {
        ActiveFair(w, code, s, id, k, a);
      } else if Judge(k, a.k.cancelled).Succeed? {
        JudgedEarned(w, code, s.disk, k, a.k.cancelled);
      }
    case Marking(m) =>
      CoreOfMark(s.disk, m);
      MarkingFair(w, code, lease, s, id, m, a);
    case Auditing => AuditFair(w, code, lease, s, id, a);
    case _ => AsideFair(w, code, lease, s, id, a);
  }

  lemma CoreOfMark(d: Disk, m: Mark)
    requires Shaped(d)
    ensures d.meta.status != Cancelled ==> Core(d) == d.log
  {
    if d.meta.status != Cancelled {
      CoreOfLive(d);
    }
  }

  lemma AuditFair(w: World, code: Code, lease: Time, s: Sys, id: nat, a: Ans)
    requires id in s.actors && s.actors[id].pc.Auditing? && FairDisk(w, code, s.disk)
    requires ShapedPc(s.disk, s.actors[id].pc) && LicensedPc(s.disk, s.actors[id])
    ensures var s' := StepActor(code, lease, s, id, a);
            FairDisk(w, code, s'.disk) && (id in s'.actors ==> FairPc(w, code, s'.disk, s'.actors[id].pc))
  {
    var d' := StepActor(code, lease, s, id, a).disk;
    assert Core(s.disk) == s.disk.log;
    if a.ok {
      assert d'.log[..|d'.log| - 1] == s.disk.log;
    }
    assert Core(d') == s.disk.log;
  }

  /** Everything else changes at most the mailbox, the lock and the status. */
  lemma AsideFair(w: World, code: Code, lease: Time, s: Sys, id: nat, a: Ans)
    requires id in s.actors && Fair(w, code, s, Step(id, a)) && FairDisk(w, code, s.disk) && Shaped(s.disk)
    requires GroundedPc(code, s.disk, s.actors[id].pc) && LicensedPc(s.disk, s.actors[id])
    requires !s.actors[id].pc.Active? && !s.actors[id].pc.Marking? && !s.actors[id].pc.Auditing?
    ensures var s' := StepActor(code, lease, s, id, a);
            FairDisk(w, code, s'.disk) && (id in s'.actors ==> FairPc(w, code, s'.disk, s'.actors[id].pc))
  {
    StepsAside(code, lease, s, id, a);
    var s' := StepActor(code, lease, s, id, a);
    assert Core(s'.disk) == Core(s.disk);
    if s.actors[id].pc.Loaded? {
      CoreOfLive(s.disk);
    }
  }

  lemma NextFair(w: World, code: Code, lease: Time, s: Sys, e: Event)
    requires ErrorNeutral(code) && lease > 0 && Base(code, s) && Licensed(s) && ShapeInv(s) && RecordInv(code, s)
    requires Enabled(s, e) && Fair(w, code, s, e) && FairInv(w, code, s)
    ensures FairInv(w, code, Next(code, lease, s, e))
  {
    if e.Step? {
      var s' := Next(code, lease, s, e);
      StepFrame(code, lease, s, e.id, e.a);
      assert GroundedPc(code, s.disk, s.actors[e.id].pc) && LicensedPc(s.disk, s.actors[e.id]);
      assert ShapedPc(s.disk, s.actors[e.id].pc) && FairPc(w, code, s.disk, s.actors[e.id].pc);
      StepFair(w, code, lease, s, e.id, e.a);
      forall i | i in s'.actors ensures FairPc(w, code, s'.disk, s'.actors[i].pc) {
        assert FairPc(w, code, s.disk, s.actors[i].pc);
      }
    }
  }

  lemma {:induction false} ExecutionFair(
      w: World, code: Code, lease: Time, states: seq<Sys>, events: seq<Event>, n: nat)
    requires ErrorNeutral(code) && FairExecution(w, code, lease, states, events) && n < |states|
    ensures FairInv(w, code, states[n])
  {
    if n > 0 {
      NeutralIsBlind(code);
      ExecutionFair(w, code, lease, states, events, n - 1);
      ExecutionBase(code, lease, states, events, n - 1);
      ExecutionLicensed(code, lease, states, events, n - 1);
      JournalShape(code, lease, states, events, n - 1);
      ExecutionRecorded(code, lease, states, events, n - 1);
      NextFair(w, code, lease, states[n - 1], events[n - 1]);
    }
  }

  /**
   * Over all interleavings and crashes: the journal and the output of a run that succeeded are those of one
   * uninterrupted execution in which every Execute returns what that Execute returned in some attempt, every
   * Await is told what was pushed for its signal, and Return is called with what it was called with. Whatever
   * world the run took its results from, the execution takes its own from there.
   */
  lemma SuccessIsOneExecution(
      w: World, code: Code, lease: Time, states: seq<Sys>, events: seq<Event>, n: nat)
    requires ErrorNeutral(code) && FairExecution(w, code, lease, states, events) && n < |states|
    requires states[n].disk.meta.status == Succeeded
    ensures exists u, obs :: Genuinely(w, code, u, obs, states[n].disk.log, states[n].disk.meta.output)
  {
    NeutralIsBlind(code);
    ExecutionFair(w, code, lease, states, events, n);
    ExecutionRecorded(code, lease, states, events, n);
    JournalShape(code, lease, states, events, n);
    var d := states[n].disk;
    CoreOfLive(d);
    var obs :| Trace(code, obs, d.log, d.meta.output) && Backed(w, code, obs) && Offered(w, code, obs, d.meta.output);
    TraceIsAnExecution(w, code, obs, d.log, d.meta.output);
    var u :| Uninterrupted(code, u, obs, d.log, d.meta.output) &&
             (Backed(w, code, obs) && Offered(w, code, obs, d.meta.output) ==> HonestRun(w, code, Fresh([]), u));
    assert Genuinely(w, code, u, obs, d.log, d.meta.output);
  }

  /** What an attempt is told, at any point of any interleaving, was produced by the very call that is told it. */
  lemma EveryResultIsItsOwn(
      w: World, code: Code, lease: Time, states: seq<Sys>, events: seq<Event>, n: nat, i: nat)
    requires ErrorNeutral(code) && FairExecution(w, code, lease, states, events) && n < |states|
    requires i in states[n].actors && states[n].actors[i].pc.Active?
    ensures Backed(w, code, states[n].actors[i].pc.k.obs)
  {
    ExecutionFair(w, code, lease, states, events, n);
    assert FairPc(w, code, states[n].disk, states[n].actors[i].pc);
  }
}
