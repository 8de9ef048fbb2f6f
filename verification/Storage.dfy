/**
 * store.Interface over all runs, as the in-memory backend implements it, and the world that the engine's calls
 * for one run meet, where any store operation may fail and then has no effect.
 */
module Storage {
  import opened Model
  import opened Program
  import opened Kernel
  import opened Protocol
  import opened Memory

  // ---- what each operation means for the run it names ----

  function Logged(d: Disk, e: Entry): Disk {
    d.(log := d.log + [e])
  }

  function Marked(d: Disk, status: Status, os: seq<MetaOption>): Disk {
    d.(meta := SetAll(d.meta.(status := status), os))
  }

  function Pushed(d: Disk, sig: Signal, payload: Payload): Disk {
    d.(mail := d.mail[sig := payload])
  }

  function Fetched(d: Disk, sig: Signal): Option<Payload> {
    if sig in d.mail then Some(d.mail[sig]) else None
  }

  function Acked(d: Disk, sig: Signal): Disk {
    d.(mail := d.mail - {sig})
  }

  predicate Free(d: Disk, wall: Time) {
    d.lock.None? || d.lock.value <= wall
  }

  /** The in-memory backend: journal and metadata, locks and mailbox behind one interface. */
  class Store {
    const data: LogMetaStore
    const locker: Locker
    const mailbox: Mailbox

    constructor (lease: Time, wall: Time)
      ensures fresh(data) && fresh(locker) && fresh(mailbox)
      ensures forall r :: DiskOf(r) == Disk(BLANK, [], map[], None) && !Known(r)
    {
      data := new LogMetaStore(wall);
      locker := new Locker(lease, wall);
      mailbox := new Mailbox();
    }

    /** What is persisted for one run. */
    ghost function DiskOf(run: RunId): Disk
      reads data, locker, mailbox
    {
      Disk(if run in data.metas then data.metas[run] else BLANK, data.Log(run), mailbox.Mail(run), locker.Lock(run))
    }

    predicate Known(run: RunId)
      reads data
    {
      run in data.metas
    }

    method Append(run: RunId, e: Entry)
      modifies data`logs
      ensures DiskOf(run) == Logged(old(DiskOf(run)), e)
      ensures forall r | r != run :: DiskOf(r) == old(DiskOf(r))
    {
      data.Append(run, e);
    }

    method Read(run: RunId) returns (out: array<Entry>)
      ensures fresh(out) && out[..] == DiskOf(run).log
    {
      out := data.Read(run);
    }

    method UpdateStatus(run: RunId, status: Status, os: seq<MetaOption>)
      modifies data`metas, data`createdAt, data`updatedAt
      ensures DiskOf(run) == Marked(old(DiskOf(run)), status, os)
      ensures forall r | r != run :: DiskOf(r) == old(DiskOf(r))
      ensures forall r :: Known(r) == (old(Known(r)) || r == run)
    {
      data.UpdateStatus(run, status, os);
    }

    method GetResult(run: RunId) returns (m: Option<Meta>)
      ensures m == if Known(run) then Some(DiskOf(run).meta) else None
    {
      m := data.GetResult(run);
    }

    method Push(run: RunId, sig: Signal, payload: Payload)
      modifies mailbox
      ensures DiskOf(run) == Pushed(old(DiskOf(run)), sig, payload)
      ensures forall r | r != run :: DiskOf(r) == old(DiskOf(r))
    {
      mailbox.Push(run, sig, payload);
    }

    method Fetch(run: RunId, sig: Signal) returns (p: Option<Payload>)
      ensures p == Fetched(DiskOf(run), sig)
    {
      p := mailbox.Fetch(run, sig);
    }

    method Ack(run: RunId, sig: Signal)
      modifies mailbox
      ensures DiskOf(run) == Acked(old(DiskOf(run)), sig)
      ensures forall r | r != run :: DiskOf(r) == old(DiskOf(r))
    {
      mailbox.Ack(run, sig);
    }

    method Acquire(run: RunId) returns (ok: bool)
      modifies locker`locks
      ensures ok == Free(old(DiskOf(run)), locker.now)
      ensures DiskOf(run) == if ok then old(DiskOf(run)).(lock := Some(locker.now + locker.lease)) else old(DiskOf(run))
      ensures forall r | r != run :: DiskOf(r) == old(DiskOf(r))
    {
      ok := locker.Acquire(run);
    }

    method Release(run: RunId)
      modifies locker`locks
      ensures DiskOf(run) == old(DiskOf(run)).(lock := None)
      ensures forall r | r != run :: DiskOf(r) == old(DiskOf(r))
    {
      locker.Release(run);
    }
  }

  /** What the engine asks of its scheduler and of its waiters. */
  datatype Request =
    | Dispatch
    | Wakeup(dl: Deadline)
    | ClearTimer
    | Notify

  /** One thing an engine call has asked of the world around it, and the answer. */
  datatype Exchange =
    | LockAsked(reached: bool)
    | LockGiven(ok: bool)
    | MetaAsked(ok: bool)
    | LogAsked(ok: bool)
    | StatusSet(status: Status, os: seq<MetaOption>, ok: bool)
    | EntryStored(e: Entry, ok: bool)
    | SignalPushed(sig: Signal, p: Payload, ok: bool)
    | SignalAsked(sig: Signal, ok: bool)
    | SignalAcked(sig: Signal, ok: bool)
    | TimeRead(now: Time)
    | ContextAsked(cancelled: bool)
    | FnCalled(step: Step, out: FnResult)
    | Waited(d: Time)
    | Asked(q: Request)

  /**
   * The world around one run's engine calls: the store as far as it concerns the run, the engine's clock and
   * context, the functions of the business code, the scheduler and the waiters. It alone decides what it
   * answers. What passes between it and the engine is in `log`, and `faults` counts the store operations that
   * failed; both are history, and no answer depends on them.
   */
  class Host {
    var disk: Disk
    const wall: Time             // lock clock
    const lease: Time
    var now: Time                // engine clock
    var cancelled: bool          // the engine is being stopped
    var requests: seq<Request>   // what the scheduler and the waiters have been asked, in order
    ghost var log: seq<Exchange>
    ghost var faults: nat

    constructor (d: Disk, wall: Time, lease: Time, now: Time)
      ensures disk == d && this.wall == wall && this.lease == lease && this.now == now
      ensures !cancelled && requests == [] && log == [] && faults == 0
    {
      disk, this.wall, this.lease, this.now := d, wall, lease, now;
      cancelled, requests, log, faults := false, [], [], 0;
    }

    ghost method Record(x: Exchange, ok: bool)
      modifies `log, `faults
      ensures log == old(log) + [x] && faults == old(faults) + if ok then 0 else 1
    {
      log := log + [x];
      faults := faults + if ok then 0 else 1;
    }

    // ---- store.Interface; a failed operation has no effect ----

    method Append(e: Entry) returns (ok: bool)
      modifies `disk, `log, `faults
      ensures disk == if ok then Logged(old(disk), e) else old(disk)
      ensures log == old(log) + [EntryStored(e, ok)] && faults == old(faults) + if ok then 0 else 1
    {
      ok := *;
      if ok {
        disk := Logged(disk, e);
      }
      Record(EntryStored(e, ok), ok);
    }

    method Read() returns (ok: bool, entries: seq<Entry>)
      modifies `log, `faults
      ensures ok ==> entries == disk.log
      ensures log == old(log) + [LogAsked(ok)] && faults == old(faults) + if ok then 0 else 1
    {
      ok := *;
      entries := disk.log;
      Record(LogAsked(ok), ok);
    }

    method UpdateStatus(status: Status, os: seq<MetaOption>) returns (ok: bool)
      modifies `disk, `log, `faults
      ensures disk == if ok then Marked(old(disk), status, os) else old(disk)
      ensures log == old(log) + [StatusSet(status, os, ok)] && faults == old(faults) + if ok then 0 else 1
    {
      ok := *;
      if ok {
        disk := Marked(disk, status, os);
      }
      Record(StatusSet(status, os, ok), ok);
    }

    method GetResult() returns (ok: bool, m: Meta)
      modifies `log, `faults
      ensures ok ==> m == disk.meta
      ensures log == old(log) + [MetaAsked(ok)] && faults == old(faults) + if ok then 0 else 1
    {
      ok := *;
      m := disk.meta;
      Record(MetaAsked(ok), ok);
    }

    method Push(sig: Signal, payload: Payload) returns (ok: bool)
      modifies `disk, `log, `faults
      ensures disk == if ok then Pushed(old(disk), sig, payload) else old(disk)
      ensures log == old(log) + [SignalPushed(sig, payload, ok)] && faults == old(faults) + if ok then 0 else 1
    {
      ok := *;
      if ok {
        disk := Pushed(disk, sig, payload);
      }
      Record(SignalPushed(sig, payload, ok), ok);
    }

    method Fetch(sig: Signal) returns (ok: bool, p: Option<Payload>)
      modifies `log, `faults
      ensures ok ==> p == Fetched(disk, sig)
      ensures log == old(log) + [SignalAsked(sig, ok)] && faults == old(faults) + if ok then 0 else 1
    {
      ok := *;
      p := Fetched(disk, sig);
      Record(SignalAsked(sig, ok), ok);
    }

    method Ack(sig: Signal) returns (ok: bool)
      modifies `disk, `log, `faults
      ensures disk == if ok then Acked(old(disk), sig) else old(disk)
      ensures log == old(log) + [SignalAcked(sig, ok)] && faults == old(faults) + if ok then 0 else 1
    {
      ok := *;
      if ok {
        disk := Acked(disk, sig);
      }
      Record(SignalAcked(sig, ok), ok);
    }

    /** `reached` is false when the call itself fails. */
    method Acquire() returns (reached: bool, ok: bool)
      modifies `disk, `log, `faults
      ensures ok == (reached && Free(old(disk), wall))
      ensures disk == if ok then old(disk).(lock := Some(wall + lease)) else old(disk)
      ensures log == old(log) + [LockAsked(reached)] && faults == old(faults) + if reached then 0 else 1
    {
      reached := *;
      ok := reached && Free(disk, wall);
      if ok {
        disk := disk.(lock := Some(wall + lease));
      }
      Record(LockAsked(reached), reached);
    }

    method Release() returns (ok: bool)
      modifies `disk, `log, `faults
      ensures disk == if ok then old(disk).(lock := None) else old(disk)
      ensures log == old(log) + [LockGiven(ok)] && faults == old(faults) + if ok then 0 else 1
    {
      ok := *;
      if ok {
        disk := disk.(lock := None);
      }
      Record(LockGiven(ok), ok);
    }

    // ---- clock, context, business functions, scheduler and waiters ----

    /** The clock may move on, never back, between any two readings. */
    method Now() returns (t: Time)
      modifies `now, `log
      ensures t == now >= old(now) && log == old(log) + [TimeRead(t)]
    {
      t :| t >= now;
      now := t;
      log := log + [TimeRead(t)];
    }

    /** Whether the engine is being stopped; it stays so. */
    method Stopping() returns (yes: bool)
      modifies `cancelled, `log
      ensures yes == cancelled && (old(cancelled) ==> cancelled) && log == old(log) + [ContextAsked(yes)]
    {
      var stopped: bool := *;
      cancelled := cancelled || stopped;
      yes := cancelled;
      log := log + [ContextAsked(yes)];
    }

    /** One call of the function an Execute was given. */
    method CallFn(step: Step) returns (out: FnResult)
      modifies `log
      ensures log == old(log) + [FnCalled(step, out)]
    {
      out := *;
      log := log + [FnCalled(step, out)];
    }

    /** A pause between two calls; it is cut short only by the engine's stop. */
    method Wait(d: Time)
      modifies `now, `cancelled, `log
      ensures now >= old(now) && (cancelled || now >= old(now) + d) && (old(cancelled) ==> cancelled)
      ensures log == old(log) + [Waited(d)]
    {
      var t: Time :| t >= now;
      cancelled := cancelled || t < now + d;
      now := t;
      log := log + [Waited(d)];
    }

    method Ask(q: Request)
      modifies `requests, `log
      ensures requests == old(requests) + [q] && log == old(log) + [Asked(q)]
    {
      requests := requests + [q];
      log := log + [Asked(q)];
    }
  }

  /** The engine clock: it may move on, never back, between any two readings. */
  class EngineClock {
    var now: Time

    constructor (now: Time)
      ensures this.now == now
    {
      this.now := now;
    }

    method Now() returns (t: Time)
      modifies this
      ensures t == now >= old(now)
    {
      t :| t >= now;
      now := t;
    }
  }
}
