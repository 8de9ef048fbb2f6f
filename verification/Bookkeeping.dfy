/** Metadata against journal for any business code at all, whatever it does with errors. */
module Bookkeeping {
  import opened Model
  import opened Program
  import opened Kernel
  import opened Attempt
  import opened Protocol
  import opened Safety
  import opened Recording

  /** A success about to be written is one that the journal bears out. */
  ghost predicate BorneOut(code: Code, d: Disk, pc: Pc) {
    pc.Marking? && pc.m.MarkSucceeded? ==> Completed(code, d.log, pc.m.out)
  }

  ghost predicate MetaInv(code: Code, s: Sys) {
    MetaOk(code, s.disk) && forall i | i in s.actors :: BorneOut(code, s.disk, s.actors[i].pc)
  }

  lemma StepMeta(code: Code, lease: Time, s: Sys, id: nat, a: Ans)
    requires id in s.actors && MetaOk(code, s.disk) && BorneOut(code, s.disk, s.actors[id].pc)
    requires GroundedPc(code, s.disk, s.actors[id].pc) && LicensedPc(s.disk, s.actors[id])
    ensures var s' := StepActor(code, lease, s, id, a);
            MetaOk(code, s'.disk) && (id in s'.actors ==> BorneOut(code, s'.disk, s'.actors[id].pc))
  {
    match s.actors[id].pc
    case Active(k) =>
      if k.phase.Ended? && Judge(k, a.k.cancelled).Succeed? {
        JudgedComplete(code, s.disk, k, a.k.cancelled);
      }
    case Marking(m) =>
    case Auditing =>
    case _ => StepsAside(code, lease, s, id, a);
  }

  lemma NextMeta(code: Code, lease: Time, s: Sys, e: Event)
    requires lease > 0 && Base(code, s) && Licensed(s) && MetaInv(code, s) && Enabled(s, e)
    ensures MetaInv(code, Next(code, lease, s, e))
  {
    if e.Step? {
      var s' := Next(code, lease, s, e);
      StepFrame(code, lease, s, e.id, e.a);
      assert GroundedPc(code, s.disk, s.actors[e.id].pc) && LicensedPc(s.disk, s.actors[e.id]);
      assert BorneOut(code, s.disk, s.actors[e.id].pc);
      StepMeta(code, lease, s, e.id, e.a);
      forall i | i in s'.actors ensures BorneOut(code, s'.disk, s'.actors[i].pc) {
        assert BorneOut(code, s.disk, s.actors[i].pc);
      }
    }
  }

  /**
   * In every reachable state of any code: no error while Running, Awaiting or Succeeded, resets by Retry
   * included; no output unless Succeeded; and a Succeeded run has a journal that is a complete trace of the
   * code, with its output.
   */
  lemma {:induction false} MetaAgrees(code: Code, lease: Time, states: seq<Sys>, events: seq<Event>, n: nat)
    requires Execution(code, lease, states, events) && n < |states|
    ensures MetaInv(code, states[n])
  {
    if n > 0 {
      MetaAgrees(code, lease, states, events, n - 1);
      ExecutionBase(code, lease, states, events, n - 1);
      ExecutionLicensed(code, lease, states, events, n - 1);
      NextMeta(code, lease, states[n - 1], events[n - 1]);
    }
  }
}
