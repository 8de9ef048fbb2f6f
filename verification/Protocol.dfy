/**
 * One run as a protocol: runners, Cancel, Retry and Signal calls are actors, and each of their steps is one
 * store operation (or one step of the replay kernel). Anything may start, crash or be delayed at any point.
 */
module Protocol {
  import opened Model
  import opened Program
  import opened Kernel
  import opened Attempt

  /** What is persisted for the run. The lock is its expiry. */
  datatype Disk = Disk(meta: Meta, log: seq<Entry>, mail: map<Signal, Payload>, lock: Option<Time>)

  // ---- the kernel against the disk ----

  function SlotFor(code: Code, d: Disk, k: Kernel): Option<Payload> {
    match code(k.obs)
    case Await(sig, _) => if sig in d.mail then Some(d.mail[sig]) else None
    case _ => None
  }

  function DiskLog(d: Disk, k: Kernel, a: Answer): seq<Entry> {
    if k.phase.Appending? && a.stored then d.log + [k.phase.e] else d.log
  }

  function DiskMail(code: Code, d: Disk, k: Kernel, a: Answer): map<Signal, Payload> {
    if k.phase.Acking? && a.acked && code(k.obs).Await? then d.mail - {code(k.obs).sig} else d.mail
  }

  function KernelOn(code: Code, d: Disk, k: Kernel, a: Answer): Kernel {
    KStep(code, k, a.(slot := SlotFor(code, d, k)))
  }

  function DiskAfter(code: Code, d: Disk, k: Kernel, a: Answer): Disk {
    d.(log := DiskLog(d, k, a), mail := DiskMail(code, d, k, a))
  }

  // ---- actors ----

  datatype Job =
    | Run
    | Cancel(reason: string)
    | Retry
    | Send(sig: Signal, payload: Payload)

  /** One UpdateStatus call. */
  datatype Mark =
    | MarkRunning
    | MarkAwaiting(dl: Deadline)
    | MarkSucceeded(out: Payload)
    | MarkFailed(err: Fault)
    | MarkCancelled(reason: string)
    | MarkReset

  function Apply(m: Mark, meta: Meta): Meta {
    match m
    case MarkRunning => meta.(status := Running)
    case MarkAwaiting(_) => meta.(status := Awaiting)
    case MarkSucceeded(out) =>
      meta.(status := Succeeded, err := "", output := if out == Empty then meta.output else out)
    case MarkFailed(err) => meta.(status := Failed, err := err)
    case MarkCancelled(reason) => meta.(status := Cancelled, err := if reason == "" then "cancelled" else reason)
    case MarkReset => meta.(status := Running, err := "", output := Empty)
  }

  /** The operation an actor is about to perform. */
  datatype Pc =
    | Entering            // Acquire
    | Checking            // Signal: GetResult, without the lock
    | Pushing             // Signal: Push
    | Locked              // GetResult under the lock
    | Reading             // Read
    | Loaded(k: Kernel)   // UpdateStatus(Running)
    | Active(k: Kernel)   // the business function
    | Marking(m: Mark)    // UpdateStatus
    | Waking(dl: Deadline)// scheduleWakeup
    | Auditing            // Cancel: Append(KindCancel)
    | Clearing            // Cancel: clearTimer
    | Notifying           // waiters.notify
    | Releasing           // Release

  datatype Actor = Actor(job: Job, pc: Pc, until: Time)

  datatype Sys = Sys(
    disk: Disk,
    wall: Time,                 // lock clock
    actors: map<nat, Actor>,
    calls: seq<nat>)            // history: the persisted length at each call of an Execute function

  /** What the outside world adds to one step. Nothing is assumed of the clock readings in it. */
  datatype Ans = Ans(
    k: Answer,
    ok: bool,                   // does the store operation succeed?
    registered: Option<string>) // the version registered under the run's name, if any

  datatype Event =
    | Spawn(id: nat, job: Job)
    | Step(id: nat, a: Ans)
    | Crash(id: nat)
    | Tick(wall: Time)

  const NOT_REGISTERED: Fault := "not registered"
  const VERSION_MISMATCH: Fault := "version mismatch"

  predicate Holding(pc: Pc) {
    !pc.Entering? && !pc.Checking? && !pc.Pushing?
  }

  predicate LockFree(s: Sys) {
    s.disk.lock.None? || s.disk.lock.value <= s.wall
  }

  function First(job: Job): Actor {
    Actor(job, if job.Send? then Checking else Entering, 0)
  }

  function Leave(s: Sys, id: nat): Sys {
    s.(actors := s.actors - {id})
  }

  function Goto(s: Sys, id: nat, pc: Pc): Sys
    requires id in s.actors
  {
    s.(actors := s.actors[id := s.actors[id].(pc := pc)])
  }

  function Acquired(s: Sys, id: nat, lease: Time): Sys
    requires id in s.actors
  {
    s.(disk := s.disk.(lock := Some(s.wall + lease)),
       actors := s.actors[id := s.actors[id].(pc := Locked, until := s.wall + lease)])
  }

  /** GetResult under the lock: who goes on, and to what. */
  function Admit(s: Sys, job: Job, a: Ans): Pc {
    var st := s.disk.meta.status;
    if !a.ok then Releasing
    else
      match job
      case Run =>
        if IsTerminal(st) then Releasing
        else if a.registered.None? then Marking(MarkFailed(NOT_REGISTERED))
        else if a.registered.value != s.disk.meta.version then Marking(MarkFailed(VERSION_MISMATCH))
        else Reading
      case Cancel(reason) => if IsTerminal(st) then Releasing else Marking(MarkCancelled(reason))
      case Retry => if st == Failed then Marking(MarkReset) else Releasing
      case Send(_, _) => Releasing
  }

  function AfterMark(m: Mark): Pc {
    match m
    case MarkRunning => Releasing
    case MarkAwaiting(dl) => Waking(dl)
    case MarkSucceeded(_) => Notifying
    case MarkFailed(_) => Notifying
    case MarkCancelled(_) => Auditing
    case MarkReset => Releasing
  }

  function AfterRun(v: Verdict): Pc {
    match v
    case Succeed(out) => Marking(MarkSucceeded(out))
    case Fail(err) => Marking(MarkFailed(err))
    case Park(dl) => Marking(MarkAwaiting(dl))
    case Leave => Releasing
  }

  function ActiveStep(code: Code, s: Sys, id: nat, k: Kernel, a: Ans): Sys
    requires id in s.actors
  {
    if k.phase.Ended? then Goto(s, id, AfterRun(Judge(k, a.k.cancelled)))
    else
      var s' := s.(
        disk := DiskAfter(code, s.disk, k, a.k),
        calls := if k.phase.Calling? && !a.k.cancelled then s.calls + [|s.disk.log|] else s.calls);
      Goto(s', id, Active(KernelOn(code, s.disk, k, a.k)))
  }

  function StepActor(code: Code, lease: Time, s: Sys, id: nat, a: Ans): Sys
    requires id in s.actors
  {
    var actor := s.actors[id];
    match actor.pc
    case Entering => if a.ok && LockFree(s) then Acquired(s, id, lease) else Leave(s, id)
    case Checking => if a.ok && !IsTerminal(s.disk.meta.status) then Goto(s, id, Pushing) else Leave(s, id)
    case Pushing =>
      if a.ok && actor.job.Send? then
        Leave(s.(disk := s.disk.(mail := s.disk.mail[actor.job.sig := actor.job.payload])), id)
      else Leave(s, id)
    case Locked => Goto(s, id, Admit(s, actor.job, a))
    case Reading => Goto(s, id, if a.ok then Loaded(Fresh(s.disk.log)) else Releasing)
    case Loaded(k) =>
      if a.ok then Goto(s.(disk := s.disk.(meta := Apply(MarkRunning, s.disk.meta))), id, Active(k))
      else Goto(s, id, Releasing)
    case Active(k) => ActiveStep(code, s, id, k, a)
    case Marking(m) =>
      if a.ok then Goto(s.(disk := s.disk.(meta := Apply(m, s.disk.meta))), id, AfterMark(m))
      else Goto(s, id, Releasing)
    case Waking(_) => Goto(s, id, Releasing)
    case Auditing =>
      var reason := if actor.job.Cancel? && actor.job.reason != "" then Data(actor.job.reason) else Empty;
      var s' := if a.ok then s.(disk := s.disk.(log := s.disk.log + [Entry(KindCancel, "", reason)])) else s;
      Goto(s', id, Clearing)
    case Clearing => Goto(s, id, Notifying)
    case Notifying => Goto(s, id, Releasing)
    case Releasing => Leave(if a.ok then s.(disk := s.disk.(lock := None)) else s, id)
  }

  /**
   * The lock clock does not go back, and, the standing hypothesis on leases, no live actor is still in its critical
   * section when its lease expires.
   */
  ghost predicate Enabled(s: Sys, e: Event) {
    match e
    case Spawn(id, _) => id !in s.actors
    case Step(id, _) => id in s.actors
    case Crash(id) => id in s.actors
    case Tick(wall) =>
      && s.wall <= wall
      && forall i | i in s.actors && Holding(s.actors[i].pc) :: wall < s.actors[i].until
  }

  ghost function Next(code: Code, lease: Time, s: Sys, e: Event): Sys
    requires Enabled(s, e)
  {
    match e
    case Spawn(id, job) => s.(actors := s.actors[id := First(job)])
    case Step(id, a) => StepActor(code, lease, s, id, a)
    case Crash(id) => Leave(s, id)
    case Tick(wall) => s.(wall := wall)
  }

  /** After Start: the metadata is written, nothing is recorded, nobody is at work. */
  predicate Started(s: Sys) {
    && s.disk.meta.status == Running && s.disk.meta.output == Empty && s.disk.meta.err == ""
    && s.disk.log == [] && s.disk.mail == map[] && s.disk.lock == None
    && s.actors == map[] && s.calls == []
  }

  /** `states` is an execution: it starts after Start and each state follows from the one before by an event. */
  ghost predicate Execution(code: Code, lease: Time, states: seq<Sys>, events: seq<Event>) {
    && |states| == |events| + 1 && lease > 0
    && Started(states[0])
    && forall i | 0 <= i < |events| ::
         Enabled(states[i], events[i]) && states[i + 1] == Next(code, lease, states[i], events[i])
  }
}
