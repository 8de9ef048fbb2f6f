/** Journal and metadata in every reachable state of a run. */
module Recording {
  import opened Model
  import opened Program
  import opened Kernel
  import opened Worlds
  import opened Replay
  import opened Exactness
  import opened Attempt
  import opened Protocol
  import opened Safety

  // ---- shape of the journal, for any code ----

  predicate NoneOf(j: seq<Entry>, kinds: set<Kind>) {
    forall i | 0 <= i < |j| :: j[i].kind !in kinds
  }

  /** KindCancel only last and only in a cancelled run; KindReturn followed by nothing but KindCancel. */
  predicate Shaped(d: Disk) {
    forall i | 0 <= i < |d.log| ::
      && (d.log[i].kind == KindCancel ==> i == |d.log| - 1 && d.meta.status == Cancelled)
      && (d.log[i].kind == KindReturn ==>
            || i == |d.log| - 1
            || (i == |d.log| - 2 && d.log[|d.log| - 1].kind == KindCancel))
  }

  ghost predicate ShapedPc(d: Disk, pc: Pc) {
    pc.Auditing? ==> NoneOf(d.log, {KindCancel})
  }

  lemma {:induction false} RecordedKinds(code: Code, obs: seq<Obs>, j: seq<Entry>)
    requires Recorded(code, obs, j)
    ensures NoneOf(j, {KindCancel, KindReturn})
    decreases |obs|, 0
  {
    if obs != [] {
      var before, o := obs[..|obs| - 1], obs[|obs| - 1];
      if o.Erred? {
        RecordedKinds(code, before, j);
      } else if o.Ran? || o.Slept? {
        RecordedKinds(code, before, j[..|j| - 1]);
      } else {
        DeadlineKinds(code, before, j[..|j| - 1]);
      }
    }
  }

  lemma {:induction false} DeadlineKinds(code: Code, obs: seq<Obs>, j: seq<Entry>)
    requires RecordedDeadline(code, obs, j)
    ensures NoneOf(j, {KindCancel, KindReturn})
    decreases |obs|, 1
  {
    if code(obs).Await? && code(obs).timeout > 0 {
      RecordedKinds(code, obs, j[..|j| - 1]);
    } else {
      RecordedKinds(code, obs, j);
    }
  }

  /** An attempt appends only to a journal without Return and Cancel, and never appends a Cancel. */
  lemma AppendsClean(code: Code, k: Kernel)
    requires Faithful(code, k) && k.phase.Appending?
    ensures NoneOf(k.journal, {KindCancel, KindReturn}) && k.phase.e.kind != KindCancel
  {
    assert k.journal[..k.cursor] == k.journal;
    if k.phase.e.kind == KindAwait || k.phase.e.kind == KindAwaitTimeout {
      DeadlineKinds(code, k.obs, k.journal);
    } else {
      RecordedKinds(code, k.obs, k.journal);
    }
  }

  ghost predicate ShapeInv(s: Sys) {
    Shaped(s.disk) && forall i | i in s.actors :: ShapedPc(s.disk, s.actors[i].pc)
  }

  lemma StepShaped(code: Code, lease: Time, s: Sys, id: nat, a: Ans)
    requires id in s.actors && Shaped(s.disk) && ShapedPc(s.disk, s.actors[id].pc)
    requires GroundedPc(code, s.disk, s.actors[id].pc) && LicensedPc(s.disk, s.actors[id])
    ensures var s' := StepActor(code, lease, s, id, a);
            Shaped(s'.disk) && (id in s'.actors ==> ShapedPc(s'.disk, s'.actors[id].pc))
  {
    var pc := s.actors[id].pc;
    if pc.Active? && pc.k.phase.Appending? {
      AppendsClean(code, pc.k);
    }
  }

  lemma NextShaped(code: Code, lease: Time, s: Sys, e: Event)
    requires lease > 0 && Base(code, s) && Licensed(s) && ShapeInv(s) && Enabled(s, e)
    ensures ShapeInv(Next(code, lease, s, e))
  {
    if e.Step? {
      var s' := Next(code, lease, s, e);
      StepFrame(code, lease, s, e.id, e.a);
      assert GroundedPc(code, s.disk, s.actors[e.id].pc) && LicensedPc(s.disk, s.actors[e.id]);
      assert ShapedPc(s.disk, s.actors[e.id].pc);
      StepShaped(code, lease, s, e.id, e.a);
      forall i | i in s'.actors ensures ShapedPc(s'.disk, s'.actors[i].pc) {
        assert ShapedPc(s.disk, s.actors[i].pc);
      }
    }
  }

  /** The shape of the journal in every reachable state, whatever the code. */
  lemma {:induction false} JournalShape(code: Code, lease: Time, states: seq<Sys>, events: seq<Event>, n: nat)
    requires Execution(code, lease, states, events) && n < |states|
    ensures ShapeInv(states[n])
  {
    if n > 0 {
      JournalShape(code, lease, states, events, n - 1);
      ExecutionBase(code, lease, states, events, n - 1);
      ExecutionLicensed(code, lease, states, events, n - 1);
      NextShaped(code, lease, states[n - 1], events[n - 1]);
    }
  }

  /** No attempt ever has a cancellation in its journal, so none consumes one. */
  lemma CancelNeverConsumed(code: Code, lease: Time, states: seq<Sys>, events: seq<Event>, n: nat, i: nat)
    requires Execution(code, lease, states, events) && n < |states|
    requires i in states[n].actors && states[n].actors[i].pc.Active?
    ensures NoneOf(states[n].actors[i].pc.k.journal, {KindCancel})
  {
    JournalShape(code, lease, states, events, n);
    ExecutionBase(code, lease, states, events, n);
    ExecutionLicensed(code, lease, states, events, n);
    assert GroundedPc(code, states[n].disk, states[n].actors[i].pc) && LicensedPc(states[n].disk, states[n].actors[i]);
  }

  // ---- journal and metadata, for error-blind code ----

  /** The journal without the audit entry of a cancellation. */
  function Core(d: Disk): seq<Entry> {
    if d.log != [] && d.log[|d.log| - 1].kind == KindCancel then d.log[..|d.log| - 1] else d.log
  }

  ghost predicate Readable(code: Code, d: Disk) {
    Walk(code, Core(d)) != Lost && Authored(Core(d))
  }

  ghost predicate Completed(code: Code, log: seq<Entry>, out: Payload) {
    exists obs :: Trace(code, obs, log, out)
  }

  /** Error and output agree with the status, and a success with the journal. */
  ghost predicate MetaOk(code: Code, d: Disk) {
    && (d.meta.status == Running || d.meta.status == Awaiting || d.meta.status == Succeeded ==> d.meta.err == "")
    && (d.meta.status != Succeeded ==> d.meta.output == Empty)
    && (d.meta.status == Succeeded ==> Completed(code, d.log, d.meta.output))
  }

  ghost predicate RecordedPc(code: Code, d: Disk, pc: Pc) {
    && (pc.Marking? && pc.m.MarkSucceeded? ==> Completed(code, d.log, pc.m.out))
    && (pc.Active? && RanToEnd(pc.k) ==> pc.k.cursor == |pc.k.journal| && !pc.k.phase.o.Mismatch?)
  }

  ghost predicate RecordInv(code: Code, s: Sys) {
    && Readable(code, s.disk) && MetaOk(code, s.disk)
    && forall i | i in s.actors :: RecordedPc(code, s.disk, s.actors[i].pc)
  }

  lemma CoreOfLive(d: Disk)
    requires Shaped(d) && d.meta.status != Cancelled
    ensures Core(d) == d.log
  {
  }

  lemma AppendReadable(code: Code, d: Disk, k: Kernel, a: Answer)
    requires ErrorBlind(code) && Faithful(code, k) && k.journal == d.log && k.phase.Appending?
    requires Shaped(d) && d.meta.status == Running && Readable(code, d)
    ensures Readable(code, DiskAfter(code, d, k, a)) && Core(DiskAfter(code, d, k, a)) == DiskAfter(code, d, k, a).log
  {
    AppendsClean(code, k);
    StandsAppending(code, k);
    CoreOfLive(d);
    var d' := DiskAfter(code, d, k, a);
    if a.stored {
      assert d'.log == d.log + [k.phase.e];
      assert d'.log[|d'.log| - 1] == k.phase.e;
    }
  }

  lemma ActiveRecorded(code: Code, s: Sys, id: nat, k: Kernel, a: Ans)
    requires ErrorBlind(code) && id in s.actors && s.actors[id].pc == Active(k) && !k.phase.Ended?
    requires Faithful(code, k) && k.journal == s.disk.log && s.disk.meta.status == Running
    requires Shaped(s.disk) && Readable(code, s.disk)
    ensures var s' := ActiveStep(code, s, id, k, a);
            Readable(code, s'.disk) && s'.disk.meta == s.disk.meta && RecordedPc(code, s'.disk, s'.actors[id].pc)
  {
    var s' := ActiveStep(code, s, id, k, a);
    var k' := KernelOn(code, s.disk, k, a.k);
    CoreOfLive(s.disk);
    if k.phase.Appending? {
      AppendReadable(code, s.disk, k, a.k);
    }
    ActiveGrounded(code, s, id, k, a);
    assert s'.actors[id].pc == Active(k');
    assert Core(s'.disk) == s'.disk.log;
    if RanToEnd(k') {
      EndsRead(code, k');
    }
  }

  lemma JudgedComplete(code: Code, d: Disk, k: Kernel, cancelled: bool)
    requires Faithful(code, k) && k.journal == d.log && k.phase.Ended? && Judge(k, cancelled).Succeed?
    ensures Completed(code, d.log, Judge(k, cancelled).out)
  {
    assert k.journal[..k.cursor] == k.journal;
    assert Trace(code, k.obs, d.log, Judge(k, cancelled).out);
  }

  lemma OutputStands(code: Code, d: Disk, out: Payload)
    requires Completed(code, d.log, out) && Authored(d.log) && d.meta.output == Empty
    ensures Apply(MarkSucceeded(out), d.meta).output == out
  {
  }

  lemma StepRecorded(code: Code, lease: Time, s: Sys, id: nat, a: Ans)
    requires ErrorBlind(code) && id in s.actors && RecordedPc(code, s.disk, s.actors[id].pc)
    requires Shaped(s.disk) && ShapedPc(s.disk, s.actors[id].pc) && Readable(code, s.disk) && MetaOk(code, s.disk)
    requires GroundedPc(code, s.disk, s.actors[id].pc) && LicensedPc(s.disk, s.actors[id])
    ensures var s' := StepActor(code, lease, s, id, a);
            && Readable(code, s'.disk) && MetaOk(code, s'.disk)
            && (id in s'.actors ==> RecordedPc(code, s'.disk, s'.actors[id].pc))
  {
    var s' := StepActor(code, lease, s, id, a);
    var pc := s.actors[id].pc;
    match pc
    case Active(k) =>
      if k.phase.Ended? {
        if Judge(k, a.k.cancelled).Succeed? {
          JudgedComplete(code, s.disk, k, a.k.cancelled);
        }
      } else {
        ActiveRecorded(code, s, id, k, a);
      }
    case Marking(m) =>
      CoreOfLive(s.disk);
      if m.MarkSucceeded? {
        OutputStands(code, s.disk, m.out);
      }
    case Auditing =>
      assert Core(s.disk) == s.disk.log;
      if a.ok {
        assert s'.disk.log[..|s'.disk.log| - 1] == s.disk.log;
      }
    case _ => StepsAside(code, lease, s, id, a);
  }

  lemma StepsAside(code: Code, lease: Time, s: Sys, id: nat, a: Ans)
    requires id in s.actors
    requires !s.actors[id].pc.Active? && !s.actors[id].pc.Marking? && !s.actors[id].pc.Auditing?
    ensures var s' := StepActor(code, lease, s, id, a);
            && s'.disk.log == s.disk.log
            && (s'.disk.meta == s.disk.meta || (s.actors[id].pc.Loaded?
              && s'.disk.meta == s.disk.meta.(status := Running)))
            && (id in s'.actors ==> !(s'.actors[id].pc.Marking? && s'.actors[id].pc.m.MarkSucceeded?))
            && (id in s'.actors && s'.actors[id].pc.Active? ==> s.actors[id].pc == Loaded(s'.actors[id].pc.k))
  {
  }

  lemma NextRecorded(code: Code, lease: Time, s: Sys, e: Event)
    requires ErrorBlind(code) && lease > 0 && Base(code, s) && Licensed(s) && ShapeInv(s) && RecordInv(code, s)
             && Enabled(s, e)
    ensures RecordInv(code, Next(code, lease, s, e))
  {
    if e.Step? {
      var s' := Next(code, lease, s, e);
      StepFrame(code, lease, s, e.id, e.a);
      assert GroundedPc(code, s.disk, s.actors[e.id].pc) && LicensedPc(s.disk, s.actors[e.id]);
      assert ShapedPc(s.disk, s.actors[e.id].pc) && RecordedPc(code, s.disk, s.actors[e.id].pc);
      StepRecorded(code, lease, s, e.id, e.a);
      forall i | i in s'.actors ensures RecordedPc(code, s'.disk, s'.actors[i].pc) {
        assert RecordedPc(code, s.disk, s.actors[i].pc);
      }
    }
  }

  lemma {:induction false} ExecutionRecorded(code: Code, lease: Time, states: seq<Sys>, events: seq<Event>, n: nat)
    requires ErrorBlind(code) && Execution(code, lease, states, events) && n < |states|
    ensures RecordInv(code, states[n])
  {
    if n == 0 {
      assert Recorded(code, [], []);
    } else {
      ExecutionRecorded(code, lease, states, events, n - 1);
      ExecutionBase(code, lease, states, events, n - 1);
      ExecutionLicensed(code, lease, states, events, n - 1);
      JournalShape(code, lease, states, events, n - 1);
      NextRecorded(code, lease, states[n - 1], events[n - 1]);
    }
  }

  // ---- the main theorems ----

  /**
   * In every reachable state, over all interleavings and crashes: error and output agree with the status, and
   * a success has the journal and the output of one uninterrupted execution, with whatever results.
   */
  lemma SuccessIsAnExecution(code: Code, lease: Time, states: seq<Sys>, events: seq<Event>, n: nat)
    requires ErrorBlind(code) && Execution(code, lease, states, events) && n < |states|
    ensures MetaOk(code, states[n].disk)
    ensures states[n].disk.meta.status == Succeeded ==>
              exists u, obs :: Uninterrupted(code, u, obs, states[n].disk.log, states[n].disk.meta.output)
  {
    ExecutionRecorded(code, lease, states, events, n);
    JournalShape(code, lease, states, events, n);
    var d := states[n].disk;
    if d.meta.status == Succeeded {
      CoreOfLive(d);
      var obs :| Trace(code, obs, d.log, d.meta.output);
      TraceIsAnExecution(ANYTHING, code, obs, d.log, d.meta.output);
    }
  }

  /** No attempt of the run stops on a journal mismatch or ends with recorded entries unread. */
  lemma NeverDiverges(code: Code, lease: Time, states: seq<Sys>, events: seq<Event>, n: nat, i: nat)
    requires ErrorBlind(code) && Execution(code, lease, states, events) && n < |states|
    requires i in states[n].actors && states[n].actors[i].pc.Active? && RanToEnd(states[n].actors[i].pc.k)
    ensures var k := states[n].actors[i].pc.k;
            !k.phase.o.Mismatch? && k.cursor == |k.journal| && k.journal == states[n].disk.log
  {
    ExecutionRecorded(code, lease, states, events, n);
    ExecutionBase(code, lease, states, events, n);
    assert RecordedPc(code, states[n].disk, states[n].actors[i].pc);
    assert GroundedPc(code, states[n].disk, states[n].actors[i].pc);
  }

  /**
   * Retry resumes from the failure point: whatever happened before (failures, retries, crashes), an attempt
   * that calls an Execute function has observed exactly the recorded results and no other, and calls it for
   * the step that has no entry: for error-neutral code, the function of the very Execute that the journal
   * leads to.
   */
  lemma ResumesAtTheFailurePoint(code: Code, lease: Time, states: seq<Sys>, events: seq<Event>, n: nat)
    requires ErrorBlind(code) && Execution(code, lease, states, events) && n < |events|
    requires states[n + 1].calls != states[n].calls
    ensures events[n].Step? && events[n].id in states[n].actors && states[n].actors[events[n].id].pc.Active?
    ensures var k := states[n].actors[events[n].id].pc.k;
            && Walk(code, states[n].disk.log) == Ready(Erase(k.obs))
            && code(k.obs).Exec? && code(Erase(k.obs)).Exec?
            && (ErrorNeutral(code) ==> code(k.obs).step == code(Erase(k.obs)).step)
  {
    CallsAtTheEnd(code, lease, states, events, n);
    var k := states[n].actors[events[n].id].pc.k;
    StandsReady(code, k, k.obs, states[n].disk.log);
    RecordedFeasible(code, k.obs, states[n].disk.log);
    BlindAtHolds(code, k.obs);
    SameShape(code(k.obs), code(Erase(k.obs)));
    if ErrorNeutral(code) {
      assert CallOf(code(k.obs)) == CallOf(code(Erase(k.obs)));
    }
  }
}
