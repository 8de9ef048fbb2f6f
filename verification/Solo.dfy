/**
 * One engine call by itself: the protocol with a single actor, which is what the imperative engine methods are
 * proved to perform, and why every such call is part of an execution of the protocol.
 */
module Solo {
  import opened Model
  import opened Program
  import opened Kernel
  import opened Attempt
  import opened Protocol
  import opened Memory
  import opened Storage
  import opened Steps

  /**
   * One call: the code of the run, the lock's lease and clock, the version registered under the run's name, what
   * is asked for, and what is persisted and what has been exchanged with the world before.
   */
  datatype Call = Call(
    code: Code, lease: Time, wall: Time, registered: Option<string>, job: Job, before: Disk, log: Log)

  /** Where a call has got to: what it is about to do, or None when it has returned. */
  datatype Stage = Stage(disk: Disk, pc: Option<Pc>, log: Log)

  /** The answer to one step; the registry is not part of the world. */
  function Known(c: Call, a: Ans): Ans {
    a.(registered := c.registered)
  }

  function Moved(c: Call, d: Disk, pc: Pc, a: Ans): (Disk, Option<Pc>) {
    var s := StepActor(c.code, c.lease, Sys(d, c.wall, map[0 := Actor(c.job, pc, 0)], []), 0, Known(c, a));
    (s.disk, if 0 in s.actors then Some(s.actors[0].pc) else None)
  }

  /** The outcomes that the switch looks at the engine's context for. */
  predicate Breaks(o: Outcome) {
    o.Mismatch? || o.StoreFault? || o.Broke?
  }

  /** What has been exchanged with the world after one more step. */
  function HeardBy(c: Call, pc: Pc, x: Log, a: Ans): Log {
    match pc
    case Entering => x + [LockAsked(a.ok)]
    case Checking => x + [MetaAsked(a.ok)]
    case Pushing => if c.job.Send? then x + [SignalPushed(c.job.sig, c.job.payload, a.ok)] else x
    case Locked => x + [MetaAsked(a.ok)]
    case Reading => x + [LogAsked(a.ok)]
    case Loaded(_) => x + [StatusSet(Running, [], a.ok)]
    case Active(k) =>
      if !k.phase.Ended? then Heard(c.code, k, x, a.k)
      else if Breaks(k.phase.o) then x + [ContextAsked(a.k.cancelled)]
      else x
    case Marking(m) => x + [StatusSet(StatusOf(m), OptionsOf(m), a.ok)]
    case Waking(dl) => x + [Asked(Wakeup(dl))]
    case Auditing => if c.job.Cancel? then x + [EntryStored(AuditEntry(c.job.reason), a.ok)] else x
    case Clearing => x + [Asked(ClearTimer)]
    case Notifying => x + [Asked(Notify)]
    case Releasing => x + [LockGiven(a.ok)]
  }

  function Stepped(c: Call, st: Stage, a: Ans): Stage {
    if st.pc.None? then st
    else
      var (d, pc) := Moved(c, st.disk, st.pc.value, a);
      Stage(d, pc, HeardBy(c, st.pc.value, st.log, a))
  }

  /** The call after the steps `ans`. */
  function Alone(c: Call, ans: seq<Ans>): Stage {
    if ans == [] then Stage(c.before, Some(First(c.job).pc), c.log)
    else Stepped(c, Alone(c, ans[..|ans| - 1]), ans[|ans| - 1])
  }

  lemma Move(c: Call, ans: seq<Ans>, st: Stage, a: Ans) returns (ans': seq<Ans>)
    requires Alone(c, ans) == st
    ensures ans' == ans + [a] && Alone(c, ans') == Stepped(c, st, a)
  {
    ans' := ans + [a];
    assert ans'[..|ans'| - 1] == ans;
  }

  const PLAIN := Ans(QUIET, true, None)

  lemma Enters(c: Call, ans: seq<Ans>, ok: bool) returns (ans': seq<Ans>)
    requires Alone(c, ans) == Stage(c.before, Some(Entering), c.log)
    ensures var held := ok && Free(c.before, c.wall);
            Alone(c, ans') ==
            Stage(if held then c.before.(lock := Some(c.wall + c.lease)) else c.before,
                  if held then Some(Locked) else None, c.log + [LockAsked(ok)])
  {
    ans' := Move(c, ans, Stage(c.before, Some(Entering), c.log), PLAIN.(ok := ok));
  }

  lemma Checks(c: Call, ans: seq<Ans>, d: Disk, x: Log, ok: bool) returns (ans': seq<Ans>)
    requires Alone(c, ans) == Stage(d, Some(Checking), x)
    ensures Alone(c, ans') ==
            Stage(d, if ok && !IsTerminal(d.meta.status) then Some(Pushing) else None, x + [MetaAsked(ok)])
  {
    ans' := Move(c, ans, Stage(d, Some(Checking), x), PLAIN.(ok := ok));
  }

  lemma Pushes(c: Call, ans: seq<Ans>, d: Disk, x: Log, ok: bool) returns (ans': seq<Ans>)
    requires Alone(c, ans) == Stage(d, Some(Pushing), x) && c.job.Send?
    ensures Alone(c, ans') ==
            Stage(if ok then Pushed(d, c.job.sig, c.job.payload) else d, None,
                  x + [SignalPushed(c.job.sig, c.job.payload, ok)])
  {
    ans' := Move(c, ans, Stage(d, Some(Pushing), x), PLAIN.(ok := ok));
  }

  /** GetResult under the lock. */
  function Admitted(job: Job, m: Meta, ok: bool, registered: Option<string>): Pc {
    if !ok then Releasing
    else
      match job
      case Run =>
        if IsTerminal(m.status) then Releasing
        else if registered.None? then Marking(MarkFailed(NOT_REGISTERED))
        else if registered.value != m.version then Marking(MarkFailed(VERSION_MISMATCH))
        else Reading
      case Cancel(reason) => if IsTerminal(m.status) then Releasing else Marking(MarkCancelled(reason))
      case Retry => if m.status == Failed then Marking(MarkReset) else Releasing
      case Send(_, _) => Releasing
  }

  lemma Admits(c: Call, ans: seq<Ans>, d: Disk, x: Log, ok: bool) returns (ans': seq<Ans>)
    requires Alone(c, ans) == Stage(d, Some(Locked), x)
    ensures Alone(c, ans') == Stage(d, Some(Admitted(c.job, d.meta, ok, c.registered)), x + [MetaAsked(ok)])
  {
    ans' := Move(c, ans, Stage(d, Some(Locked), x), PLAIN.(ok := ok));
  }

  lemma Reads(c: Call, ans: seq<Ans>, d: Disk, x: Log, ok: bool) returns (ans': seq<Ans>)
    requires Alone(c, ans) == Stage(d, Some(Reading), x)
    ensures Alone(c, ans') == Stage(d, Some(if ok then Loaded(Fresh(d.log)) else Releasing), x + [LogAsked(ok)])
  {
    ans' := Move(c, ans, Stage(d, Some(Reading), x), PLAIN.(ok := ok));
  }

  lemma Starts(c: Call, ans: seq<Ans>, d: Disk, k: Kernel, x: Log, ok: bool) returns (ans': seq<Ans>)
    requires Alone(c, ans) == Stage(d, Some(Loaded(k)), x)
    ensures Alone(c, ans') ==
            Stage(if ok then d.(meta := Apply(MarkRunning, d.meta)) else d,
                  Some(if ok then Active(k) else Releasing), x + [StatusSet(Running, [], ok)])
  {
    ans' := Move(c, ans, Stage(d, Some(Loaded(k)), x), PLAIN.(ok := ok));
  }

  /** An attempt in its business code. */
  function Working(p: Point): Stage {
    Stage(p.disk, Some(Active(p.k)), p.log)
  }

  lemma ActiveMoves(c: Call, p: Point, a: Ans)
    requires !p.k.phase.Ended?
    ensures Stepped(c, Working(p), a) == Working(Steps.Move(c.code, p, a.k))
  {
  }

  /** Once ended, an attempt makes no more difference. */
  lemma EndedStays(code: Code, p: Point, a: Answer)
    requires p.k.phase.Ended?
    ensures Steps.Move(code, p, a) == p
  {
  }

  /** The steps of an attempt, up to its end. */
  lemma {:induction false} Attempts(c: Call, ans: seq<Ans>, p: Point, s: seq<Answer>) returns (ans': seq<Ans>)
    requires Alone(c, ans) == Working(p)
    ensures Alone(c, ans') == Working(Play(c.code, p, s))
  {
    if s == [] {
      ans' := ans;
    } else {
      ans' := Attempts(c, ans, p, s[..|s| - 1]);
      var p1 := Play(c.code, p, s[..|s| - 1]);
      var a := PLAIN.(k := s[|s| - 1]);
      if p1.k.phase.Ended? {
        EndedStays(c.code, p1, a.k);
      } else {
        ActiveMoves(c, p1, a);
        ans' := Move(c, ans', Working(p1), a);
      }
    }
  }

  lemma Judges(c: Call, ans: seq<Ans>, p: Point, cancelled: bool) returns (ans': seq<Ans>)
    requires Alone(c, ans) == Working(p) && p.k.phase.Ended?
    ensures Alone(c, ans') ==
            Stage(p.disk, Some(AfterRun(Judge(p.k, cancelled))),
                  if Breaks(p.k.phase.o) then p.log + [ContextAsked(cancelled)] else p.log)
  {
    ans' := Move(c, ans, Working(p), PLAIN.(k := QUIET.(cancelled := cancelled)));
  }

  /** The UpdateStatus call behind each mark. */
  function StatusOf(m: Mark): Status {
    match m
    case MarkRunning => Running
    case MarkAwaiting(_) => Awaiting
    case MarkSucceeded(_) => Succeeded
    case MarkFailed(_) => Failed
    case MarkCancelled(_) => Cancelled
    case MarkReset => Running
  }

  function OptionsOf(m: Mark): seq<MetaOption> {
    match m
    case MarkRunning => []
    case MarkAwaiting(_) => []
    case MarkSucceeded(out) => if out == Empty then [WithErr("")] else [WithErr(""), WithOutput(out)]
    case MarkFailed(err) => [WithErr(err)]
    case MarkCancelled(reason) => [WithErr(if reason == "" then "cancelled" else reason)]
    case MarkReset => [WithErr(""), WithOutput(Empty)]
  }

  lemma SetPair(m: Meta, o1: MetaOption, o2: MetaOption)
    ensures SetAll(m, []) == m && SetAll(m, [o1]) == Set(m, o1) && SetAll(m, [o1, o2]) == Set(Set(m, o1), o2)
  {
    assert [o1][..0] == [] && [o1, o2][..1] == [o1];
  }

  /** The options of each call add up to the mark. */
  lemma MarkedAsApplied(d: Disk, m: Mark)
    ensures Marked(d, StatusOf(m), OptionsOf(m)) == d.(meta := Apply(m, d.meta))
  {
    var os, m0 := OptionsOf(m), d.meta.(status := StatusOf(m));
    SetPair(m0, if |os| > 0 then os[0] else WithErr(""), if |os| > 1 then os[1] else WithErr(""));
    assert os == [] || os == [os[0]] || os == [os[0], os[1]];
  }

  lemma Marks(c: Call, ans: seq<Ans>, d: Disk, m: Mark, x: Log, ok: bool) returns (ans': seq<Ans>)
    requires Alone(c, ans) == Stage(d, Some(Marking(m)), x)
    ensures Alone(c, ans') ==
            Stage(if ok then d.(meta := Apply(m, d.meta)) else d, Some(if ok then AfterMark(m) else Releasing),
                  x + [StatusSet(StatusOf(m), OptionsOf(m), ok)])
  {
    ans' := Move(c, ans, Stage(d, Some(Marking(m)), x), PLAIN.(ok := ok));
  }

  /** The request that scheduling a wake-up, clearing the timer and notifying come to. */
  function RequestOf(pc: Pc): Request
    requires pc.Waking? || pc.Clearing? || pc.Notifying?
  {
    match pc
    case Waking(dl) => Wakeup(dl)
    case Clearing => ClearTimer
    case Notifying => Notify
  }

  /** It leaves what is persisted alone. */
  lemma Passes(c: Call, ans: seq<Ans>, d: Disk, pc: Pc, x: Log) returns (ans': seq<Ans>)
    requires Alone(c, ans) == Stage(d, Some(pc), x) && (pc.Waking? || pc.Clearing? || pc.Notifying?)
    ensures Alone(c, ans') ==
            Stage(d, Some(if pc.Clearing? then Notifying else Releasing), x + [Asked(RequestOf(pc))])
  {
    ans' := Move(c, ans, Stage(d, Some(pc), x), PLAIN);
  }

  function AuditEntry(reason: string): Entry {
    Entry(KindCancel, "", if reason == "" then Empty else Data(reason))
  }

  lemma Audits(c: Call, ans: seq<Ans>, d: Disk, x: Log, ok: bool) returns (ans': seq<Ans>)
    requires Alone(c, ans) == Stage(d, Some(Auditing), x) && c.job.Cancel?
    ensures Alone(c, ans') ==
            Stage(if ok then Logged(d, AuditEntry(c.job.reason)) else d, Some(Clearing),
                  x + [EntryStored(AuditEntry(c.job.reason), ok)])
  {
    ans' := Move(c, ans, Stage(d, Some(Auditing), x), PLAIN.(ok := ok));
  }

  lemma Releases(c: Call, ans: seq<Ans>, d: Disk, x: Log, ok: bool) returns (ans': seq<Ans>)
    requires Alone(c, ans) == Stage(d, Some(Releasing), x)
    ensures Alone(c, ans') == Stage(if ok then d.(lock := None) else d, None, x + [LockGiven(ok)])
  {
    ans' := Move(c, ans, Stage(d, Some(Releasing), x), PLAIN.(ok := ok));
  }

  // ---- a call by itself is part of an execution ----

  ghost predicate Local(c: Call, s: Sys, id: nat, a: Ans)
    requires id in s.actors
  {
    var (s', m) := (StepActor(c.code, c.lease, s, id, Known(c, a)), Moved(c, s.disk, s.actors[id].pc, a));
    && s'.disk == m.0 && s'.wall == s.wall && (id in s'.actors <==> m.1.Some?)
    && (id in s'.actors ==> s'.actors[id].pc == m.1.value && s'.actors[id].job == s.actors[id].job)
  }

  lemma ActiveIsLocal(c: Call, s: Sys, id: nat, a: Ans)
    requires id in s.actors && s.wall == c.wall && s.actors[id].job == c.job && s.actors[id].pc.Active?
    ensures Local(c, s, id, a)
  {
  }

  lemma OutsideIsLocal(c: Call, s: Sys, id: nat, a: Ans)
    requires id in s.actors && s.wall == c.wall && s.actors[id].job == c.job && !Holding(s.actors[id].pc)
    ensures Local(c, s, id, a)
  {
  }

  lemma LockedIsLocal(c: Call, s: Sys, id: nat, a: Ans)
    requires id in s.actors && s.wall == c.wall && s.actors[id].job == c.job && s.actors[id].pc.Locked?
    ensures Local(c, s, id, a)
  {
  }

  /** A step depends on nothing but what is persisted, the lock's clock and the actor itself. */
  lemma StepIsLocal(c: Call, s: Sys, id: nat, a: Ans)
    requires id in s.actors && s.wall == c.wall && s.actors[id].job == c.job
    ensures Local(c, s, id, a)
  {
    if s.actors[id].pc.Active? {
      ActiveIsLocal(c, s, id, a);
    } else if !Holding(s.actors[id].pc) {
      OutsideIsLocal(c, s, id, a);
    } else if s.actors[id].pc.Locked? {
      LockedIsLocal(c, s, id, a);
    }
  }

  /** `s` is where the call has got to. */
  ghost predicate Shows(c: Call, s: Sys, id: nat, ans: seq<Ans>) {
    var st := Alone(c, ans);
    && s.disk == st.disk && s.wall == c.wall && (id in s.actors <==> st.pc.Some?)
    && (id in s.actors ==> s.actors[id].job == c.job && s.actors[id].pc == st.pc.value)
  }

  ghost predicate Extends(code: Code, lease: Time, states: seq<Sys>, more: seq<Sys>, events: seq<Event>) {
    states <= more && Execution(code, lease, more, events)
  }

  lemma OneMore(code: Code, lease: Time, states: seq<Sys>, more: seq<Sys>, events: seq<Event>, e: Event)
    returns (more': seq<Sys>)
    requires Extends(code, lease, states, more, events) && Enabled(more[|events|], e)
    ensures Extends(code, lease, states, more', events + [e])
    ensures more'[|events| + 1] == Next(code, lease, more[|events|], e)
  {
    more' := more + [Next(code, lease, more[|events|], e)];
    var es := events + [e];
    forall i | 0 <= i < |es|
      ensures Enabled(more'[i], es[i]) && more'[i + 1] == Next(code, lease, more'[i], es[i])
    {
      assert i < |events| ==> Enabled(more[i], events[i]);
    }
  }

  lemma ShowsOneMore(c: Call, s: Sys, id: nat, ans: seq<Ans>, a: Ans)
    requires Shows(c, s, id, ans)
    ensures id in s.actors ==> Shows(c, StepActor(c.code, c.lease, s, id, Known(c, a)), id, ans + [a])
    ensures id !in s.actors ==> Shows(c, s, id, ans + [a])
  {
    assert (ans + [a])[..|ans + [a]| - 1] == ans;
    if id in s.actors {
      StepIsLocal(c, s, id, a);
    }
  }

  /**
   * Whatever happened before, from any reachable state a call that no other actor interferes with can be
   * performed, and its steps continue the execution.
   */
  lemma {:induction false} CallIsExecution(c: Call, states: seq<Sys>, events: seq<Event>, id: nat, ans: seq<Ans>)
    requires Execution(c.code, c.lease, states, events) && id !in states[|events|].actors
    requires c.before == states[|events|].disk && c.wall == states[|events|].wall
    ensures exists more, es :: Reaches(c, states, more, es, id, ans)
  {
    if ans == [] {
      var e := Event.Spawn(id, c.job);
      var more := OneMore(c.code, c.lease, states, states, events, e);
      assert Reaches(c, states, more, events + [e], id, []);
    } else {
      var before, a := ans[..|ans| - 1], ans[|ans| - 1];
      CallIsExecution(c, states, events, id, before);
      var more: seq<Sys>, es: seq<Event> :| Reaches(c, states, more, es, id, before);
      assert before + [a] == ans;
      OneMoreStep(c, states, more, es, id, before, a);
    }
  }

  lemma OneMoreStep(c: Call, states: seq<Sys>, more: seq<Sys>, es: seq<Event>, id: nat, ans: seq<Ans>, a: Ans)
    requires Reaches(c, states, more, es, id, ans)
    ensures exists more', es' :: Reaches(c, states, more', es', id, ans + [a])
  {
    ShowsOneMore(c, more[|es|], id, ans, a);
    if id in more[|es|].actors {
      var more' := OneMore(c.code, c.lease, states, more, es, Event.Step(id, Known(c, a)));
      assert Reaches(c, states, more', es + [Event.Step(id, Known(c, a))], id, ans + [a]);
    } else {
      assert Reaches(c, states, more, es, id, ans + [a]);
    }
  }

  /** `more` continues `states`, and ends where the call has got to. */
  ghost predicate Reaches(c: Call, states: seq<Sys>, more: seq<Sys>, es: seq<Event>, id: nat, ans: seq<Ans>) {
    Extends(c.code, c.lease, states, more, es) && Shows(c, more[|es|], id, ans)
  }
}
