/**
 * The engine's operations on one run. Each is proved to be the protocol's steps for that call, one after the
 * other, and then what its result says about the run.
 */
module Engine {
  import opened Model
  import opened Program
  import opened Kernel
  import opened Attempt
  import opened Storage
  import opened Steps
  import opened Memory
  import opened Policy
  import opened Context
  import opened Solo
  import opened Protocol

  datatype Registered = Registered(version: string, code: Code)

  datatype ApiError =
    | NoError
    | RunBusy
    | RunNotFailed
    | EncodingError
    | StoreError        // also: no such run

  /** `j` and `m` are what a complete execution leaves, output included. */
  ghost predicate Complete(code: Code, j: seq<Entry>, m: Meta, before: Payload) {
    exists obs, out :: Trace(code, obs, j, out) && m.output == if out == Empty then before else out
  }

  /** An attempt over `j` was suspended with this deadline, and left the journal `j'`. */
  ghost predicate ParkedAs(code: Code, j: seq<Entry>, j': seq<Entry>, dl: Deadline) {
    exists s :: var k := KRun(code, Fresh(j), s); Parked(k) && k.journal == j' && WakeAt(k) == dl
  }

  /**
   * What one attempt comes to, whatever was persisted before: the journal only grows; a terminal run is left
   * alone; success means that the journal is a complete trace of the code; waiters are notified exactly if the
   * run became terminal; and a wake-up is asked for, once, only for a run that is persisted as suspended,
   * with the deadline of the primitive that suspended it.
   */
  ghost predicate Attempted(code: Code, before: seq<Request>, after: seq<Request>, d: Disk, d': Disk) {
    && d.log <= d'.log
    && (IsTerminal(d.meta.status) ==> d'.meta == d.meta && d'.log == d.log && after == before)
    && (!IsTerminal(d.meta.status) ==>
          && (IsTerminal(d'.meta.status) <==> after == before + [Notify])
          && (after == before || after == before + [Notify] ||
              (d'.meta.status == Awaiting && before < after && |after| == |before| + 1 && after[|before|].Wakeup?
               && ParkedAs(code, d.log, d'.log, after[|before|].dl)))
          && (d'.meta.status == Succeeded ==> Complete(code, d'.log, d'.meta, d.meta.output)))
  }

  /** The attempt has come to an end that somebody is told of: the run is over, or it is suspended. */
  ghost predicate Concluded(before: seq<Request>, after: seq<Request>, d': Disk) {
    d'.meta.status != Running && (after == before + [Notify] || exists dl :: after == before + [Wakeup(dl)])
  }

  /** Either the metadata is written and whoever must know is told, or neither happens. */
  predicate Announced(before: seq<Request>, after: seq<Request>, d: Disk, d': Disk, m: Meta, q: Request) {
    || (d' == d && after == before)
    || Published(before, after, d, d', m, q)
  }

  predicate Published(before: seq<Request>, after: seq<Request>, d: Disk, d': Disk, m: Meta, q: Request) {
    d' == d.(meta := m) && after == before + [q]
  }

  /** The metadata and the request that a verdict comes to. */
  function Written(m: Meta, v: Verdict): Meta {
    match v
    case Succeed(out) => m.(status := Succeeded, err := "", output := if out == Empty then m.output else out)
    case Fail(err) => m.(status := Failed, err := err)
    case Park(_) => m.(status := Awaiting)
    case Leave => m
  }

  function Requested(v: Verdict): Request {
    if v.Park? then Wakeup(v.dl) else Notify
  }

  predicate Settled(before: seq<Request>, after: seq<Request>, d: Disk, d': Disk, v: Verdict) {
    if v.Leave? then d' == d && after == before
    else Announced(before, after, d, d', Written(d.meta, v), Requested(v))
  }

  lemma SuccessIsTrace(code: Code, p: Point, log: seq<Entry>, s: seq<Answer>, stopping: bool)
    requires p.disk.log == log && p.k == Fresh(log)
    ensures var (d', k) := (Play(code, p, s).disk, Play(code, p, s).k);
            k.phase.Ended? && Judge(k, stopping).Succeed? ==> Trace(code, k.obs, d'.log, Judge(k, stopping).out)
  {
    PlayIsRun(code, p, s);
    PlayKeepsCopy(code, p, s);
    var k := Play(code, p, s).k;
    if k.phase.Ended? && Judge(k, stopping).Succeed? {
      DriftGuardSound(code, log, ScriptOf(code, p, s), stopping);
    }
  }

  lemma ParkIsParked(code: Code, p: Point, log: seq<Entry>, s: seq<Answer>, stopping: bool)
    requires p.disk.log == log && p.k == Fresh(log)
    ensures var (d', k) := (Play(code, p, s).disk, Play(code, p, s).k);
            k.phase.Ended? && Judge(k, stopping).Park? ==> ParkedAs(code, log, d'.log, Judge(k, stopping).dl)
  {
    PlayIsRun(code, p, s);
    PlayKeepsCopy(code, p, s);
    assert KRun(code, Fresh(log), ScriptOf(code, p, s)) == Play(code, p, s).k;
  }

  lemma SettledIsAttempted(
      code: Code, before: seq<Request>, after: seq<Request>, d: Disk, d1: Disk, d2: Disk, v: Verdict, obs: seq<Obs>)
    requires !IsTerminal(d.meta.status) && d.log <= d1.log && d1.meta == d.meta.(status := Running)
    requires Settled(before, after, d1, d2, v)
    requires v.Succeed? ==> Trace(code, obs, d1.log, v.out)
    requires v.Park? ==> ParkedAs(code, d.log, d1.log, v.dl)
    ensures Attempted(code, before, after, d, d2)
  {
    assert (before + [Notify])[|before|] == Notify;
    if v.Park? {
      assert (before + [Wakeup(v.dl)])[|before|] == Wakeup(v.dl);
    }
    if d2.meta.status == Succeeded {
      assert Trace(code, obs, d2.log, v.out);
    }
  }

  class Engine {
    const host: Host
    var registry: map<string, Registered>

    constructor (host: Host)
      ensures this.host == host && registry == map[]
    {
      this.host, registry := host, map[];
    }

    ghost function Doing(code: Code, job: Job): Solo.Call
      reads this, host
    {
      Solo.Call(code, host.lease, host.wall, Lookup(host.disk.meta.name), job, host.disk, host.log)
    }

    function Lookup(name: string): Option<string>
      reads this
    {
      if name in registry then Some(registry[name].version) else None
    }

    /** Where the call has got to, as the world shows it. */
    ghost function At(pc: Option<Pc>): Stage
      reads host
    {
      Stage(host.disk, pc, host.log)
    }

    method Register(name: string, version: string, code: Code)
      modifies `registry
      ensures registry == old(registry)[name := Registered(version, code)]
    {
      registry := registry[name := Registered(version, code)];
    }

    method UpdateStatus(ghost c: Solo.Call, m: Mark, ghost ans0: seq<Ans>) returns (ok: bool, ghost ans: seq<Ans>)
      requires Alone(c, ans0) == At(Some(Marking(m)))
      modifies host`disk, host`log, host`faults
      ensures Alone(c, ans) == At(Some(if ok then AfterMark(m) else Releasing))
      ensures host.disk == if ok then old(host.disk).(meta := Apply(m, old(host.disk.meta))) else old(host.disk)
      ensures host.faults == old(host.faults) + if ok then 0 else 1
    {
      ghost var d, x := host.disk, host.log;
      ok := host.UpdateStatus(StatusOf(m), OptionsOf(m));
      MarkedAsApplied(d, m);
      ans := Marks(c, ans0, d, m, x, ok);
    }

    /** Tells the scheduler or the waiters. */
    method Pass(ghost c: Solo.Call, ghost pc: Pc, q: Request, ghost ans0: seq<Ans>) returns (ghost ans: seq<Ans>)
      requires (pc.Waking? || pc.Clearing? || pc.Notifying?) && q == RequestOf(pc) && Alone(c, ans0) == At(Some(pc))
      modifies host`requests, host`log
      ensures Alone(c, ans) == At(Some(if pc.Clearing? then Notifying else Releasing))
      ensures host.requests == old(host.requests) + [q]
    {
      ghost var x := host.log;
      host.Ask(q);
      ans := Passes(c, ans0, host.disk, pc, x);
    }

    method Release(ghost c: Solo.Call, ghost ans0: seq<Ans>) returns (ghost ans: seq<Ans>)
      requires Alone(c, ans0) == At(Some(Releasing))
      modifies host`disk, host`log, host`faults
      ensures Alone(c, ans) == At(None)
      ensures host.disk == old(host.disk) || host.disk == old(host.disk).(lock := None)
      ensures host.faults >= old(host.faults) && (host.faults == old(host.faults) ==> host.disk.lock == None)
    {
      ghost var d, x := host.disk, host.log;
      var released := host.Release();
      ans := Releases(c, ans0, d, x, released);
    }

    method Acquire(ghost c: Solo.Call) returns (reached: bool, held: bool, ghost ans: seq<Ans>)
      requires Stage(c.before, Some(First(c.job).pc), c.log) == At(Some(Entering))
      requires c.wall == host.wall && c.lease == host.lease
      modifies host`disk, host`log, host`faults
      ensures Alone(c, ans) == At(if held then Some(Locked) else None)
      ensures held == (reached && Free(old(host.disk), host.wall))
      ensures host.disk == if held then old(host.disk).(lock := host.disk.lock) else old(host.disk)
      ensures host.faults == old(host.faults) + if reached then 0 else 1
    {
      reached, held := host.Acquire();
      ans := Enters(c, [], reached);
    }

    /**
     * Terminates a run that is not terminal yet; the status decides, the audit entry follows it. The outcome
     * depends on nothing but the lock, the status and what the store answers.
     */
    method Cancel(ghost code: Code, reason: string) returns (err: ApiError, ghost ans: seq<Ans>)
      modifies host`disk, host`requests, host`log, host`faults
      ensures Alone(old(Doing(code, Job.Cancel(reason))), ans) == At(None)
      ensures err == RunBusy ==> !Free(old(host.disk), host.wall) && host.disk == old(host.disk)
      ensures err == NoError ==> IsTerminal(host.disk.meta.status)
      ensures err == NoError && !IsTerminal(old(host.disk.meta.status)) ==>
                Cancelled(reason, old(host.disk.meta), host.disk.meta) &&
                host.requests == old(host.requests) + [ClearTimer, Notify]
      ensures err == NoError && !IsTerminal(old(host.disk.meta.status)) ==>
                host.disk.log == old(host.disk.log) || host.disk.log == old(host.disk.log) + [AuditEntry(reason)]
      ensures err != NoError || IsTerminal(old(host.disk.meta.status)) ==>
                host.disk.meta == old(host.disk.meta) && host.disk.log == old(host.disk.log)
                  && host.requests == old(host.requests)
      ensures host.faults == old(host.faults) ==>
                if !Free(old(host.disk), host.wall) then err == RunBusy
                else err == NoError && host.disk.lock == None
                       && host.disk.log == old(host.disk.log) +
                            if IsTerminal(old(host.disk.meta.status)) then []
                            else [Entry(KindCancel, "", if reason == "" then Empty else Data(reason))]
    {
      ghost var c := Doing(code, Job.Cancel(reason));
      var reached, held;
      reached, held, ans := Acquire(c);
      if !reached {
        return StoreError, ans;
      }
      if !held {
        return RunBusy, ans;
      }
      err, ans := CancelLocked(c, reason, ans);
      ans := Release(c, ans);
    }

    predicate Cancelled(reason: string, m: Meta, m': Meta) {
      m' == m.(status := Status.Cancelled, err := if reason == "" then "cancelled" else reason)
    }

    method CancelLocked(ghost c: Solo.Call, reason: string, ghost ans0: seq<Ans>)
      returns (err: ApiError, ghost ans: seq<Ans>)
      requires c.job == Job.Cancel(reason) && Alone(c, ans0) == At(Some(Locked))
      modifies host`disk, host`requests, host`log, host`faults
      ensures Alone(c, ans) == At(Some(Releasing))
      ensures err == NoError || (err == StoreError && host.faults > old(host.faults))
      ensures err == NoError ==> IsTerminal(host.disk.meta.status)
      ensures err == NoError && !IsTerminal(old(host.disk.meta.status)) ==>
                Cancelled(reason, old(host.disk.meta), host.disk.meta) &&
                host.requests == old(host.requests) + [ClearTimer, Notify]
      ensures err == NoError && !IsTerminal(old(host.disk.meta.status)) ==>
                || host.disk.log == old(host.disk.log) + [AuditEntry(reason)]
                || (host.disk.log == old(host.disk.log) && host.faults > old(host.faults))
      ensures err != NoError || IsTerminal(old(host.disk.meta.status)) ==>
              host.disk == old(host.disk) && host.requests == old(host.requests)
      ensures host.faults >= old(host.faults)
    {
      ghost var x := host.log;
      var ok, m := host.GetResult();
      ans := Admits(c, ans0, host.disk, x, ok);
      if !ok {
        return StoreError, ans;
      }
      if IsTerminal(m.status) {
        return NoError, ans;
      }
      err, ans := CancelAdmitted(c, reason, ans);
    }

    /** The status first, then the audit entry, the timer and the waiters. */
    method CancelAdmitted(ghost c: Solo.Call, reason: string, ghost ans0: seq<Ans>)
      returns (err: ApiError, ghost ans: seq<Ans>)
      requires c.job == Job.Cancel(reason) && Alone(c, ans0) == At(Some(Marking(MarkCancelled(reason))))
      modifies host`disk, host`requests, host`log, host`faults
      ensures Alone(c, ans) == At(Some(Releasing))
      ensures err == NoError || (err == StoreError && host.faults > old(host.faults))
      ensures err != NoError ==> host.disk == old(host.disk) && host.requests == old(host.requests)
      ensures err == NoError ==>
                && Cancelled(reason, old(host.disk.meta), host.disk.meta)
                && host.requests == old(host.requests) + [ClearTimer, Notify]
                && (host.disk.log == old(host.disk.log) + [AuditEntry(reason)]
                    || (host.disk.log == old(host.disk.log) && host.faults > old(host.faults)))
      ensures host.faults >= old(host.faults)
    {
      var ok;
      ok, ans := UpdateStatus(c, MarkCancelled(reason), ans0);
      if !ok {
        return StoreError, ans;
      }
      ans := Audit(c, reason, ans);
      ans := CancelTold(c, ans);
      return NoError, ans;
    }

    /** The timer before the waiters. */
    method CancelTold(ghost c: Solo.Call, ghost ans0: seq<Ans>) returns (ghost ans: seq<Ans>)
      requires Alone(c, ans0) == At(Some(Clearing))
      modifies host`requests, host`log
      ensures Alone(c, ans) == At(Some(Releasing))
      ensures host.requests == old(host.requests) + [ClearTimer, Notify]
    {
      ans := Pass(c, Clearing, ClearTimer, ans0);
      ans := Pass(c, Notifying, Notify, ans);
    }

    /** The audit entry. Its loss is not reported. */
    method Audit(ghost c: Solo.Call, reason: string, ghost ans0: seq<Ans>) returns (ghost ans: seq<Ans>)
      requires c.job == Job.Cancel(reason) && Alone(c, ans0) == At(Some(Auditing))
      modifies host`disk, host`log, host`faults
      ensures Alone(c, ans) == At(Some(Clearing))
      ensures || (host.disk == Logged(old(host.disk), AuditEntry(reason)) && host.faults == old(host.faults))
              || (host.disk == old(host.disk) && host.faults > old(host.faults))
    {
      ghost var d, x := host.disk, host.log;
      var stored := host.Append(AuditEntry(reason));
      ans := Audits(c, ans0, d, x, stored);
    }

    /**
     * Resets a failed run and hands it to the scheduler again, once the lock is released; its journal stays as
     * it is.
     */
    method Retry(ghost code: Code) returns (err: ApiError, ghost ans: seq<Ans>)
      modifies host`disk, host`requests, host`log, host`faults
      ensures var st := Alone(old(Doing(code, Job.Retry)), ans);
              && st.disk == host.disk && st.pc == None
              && host.log == if err == NoError then st.log + [Asked(Dispatch)] else st.log
      ensures err == RunBusy ==> !Free(old(host.disk), host.wall) && host.disk == old(host.disk)
      ensures err == RunNotFailed ==> old(host.disk.meta.status) != Failed
      ensures err == NoError ==>
                && old(host.disk.meta.status) == Failed
                && host.disk.meta == old(host.disk.meta).(status := Running, err := "", output := Empty)
                && host.requests == old(host.requests) + [Dispatch]
      ensures err != NoError ==> host.disk.meta == old(host.disk.meta) && host.requests == old(host.requests)
      ensures host.disk.log == old(host.disk.log) && host.disk.mail == old(host.disk.mail)
      ensures host.faults == old(host.faults) ==>
                if !Free(old(host.disk), host.wall) then err == RunBusy
                else err == (if old(host.disk.meta.status) == Failed then NoError else RunNotFailed)
                     && host.disk.lock == None
    {
      ghost var c := Doing(code, Job.Retry);
      var reached, held;
      reached, held, ans := Acquire(c);
      if !reached {
        return StoreError, ans;
      }
      if !held {
        return RunBusy, ans;
      }
      err, ans := RetryLocked(c, ans);
      ans := Release(c, ans);
      if err == NoError {
        host.Ask(Dispatch);
      }
    }

    method RetryLocked(ghost c: Solo.Call, ghost ans0: seq<Ans>) returns (err: ApiError, ghost ans: seq<Ans>)
      requires c.job == Job.Retry && Alone(c, ans0) == At(Some(Locked))
      modifies host`disk, host`log, host`faults
      ensures Alone(c, ans) == At(Some(Releasing))
      ensures || err == (if old(host.disk.meta.status) == Failed then NoError else RunNotFailed)
              || (err == StoreError && host.faults > old(host.faults))
      ensures host.disk ==
              if err != NoError then old(host.disk)
              else old(host.disk).(meta := old(host.disk.meta).(status := Running, err := "", output := Empty))
      ensures host.faults >= old(host.faults)
    {
      ghost var x := host.log;
      var ok, m := host.GetResult();
      ans := Admits(c, ans0, host.disk, x, ok);
      if !ok {
        return StoreError, ans;
      }
      if m.status != Failed {
        return RunNotFailed, ans;
      }
      ok, ans := UpdateStatus(c, MarkReset, ans);
      err := if ok then NoError else StoreError;
    }

    /**
     * Persists a signal for a run that is not terminal, and wakes it. A payload that cannot be encoded is None,
     * and ends the call before anything is pushed.
     */
    method Signal(ghost code: Code, sig: Model.Signal, payload: Option<Payload>)
      returns (err: ApiError, ghost ans: seq<Ans>)
      modifies host`disk, host`requests, host`log, host`faults
      ensures var sent := Job.Send(sig, if payload.Some? then payload.value else Empty);
              var st := Alone(old(Doing(code, sent)), ans);
              && st.disk == host.disk && st.pc == (if err == EncodingError then Some(Pushing) else None)
              && host.log == if host.requests != old(host.requests) then st.log + [Asked(Dispatch)] else st.log
      ensures err == NoError && !IsTerminal(old(host.disk.meta.status)) ==>
                payload.Some? && host.disk == Pushed(old(host.disk), sig, payload.value)
                  && host.requests == old(host.requests) + [Dispatch]
      ensures err != NoError || IsTerminal(old(host.disk.meta.status)) ==>
              host.disk == old(host.disk) && host.requests == old(host.requests)
      ensures host.faults == old(host.faults) ==>
                err == if IsTerminal(old(host.disk.meta.status)) || payload.Some? then NoError else EncodingError
    {
      ghost var c := Doing(code, Job.Send(sig, if payload.Some? then payload.value else Empty));
      var ok, m := host.GetResult();
      ans := Checks(c, [], host.disk, c.log, ok);
      if !ok {
        return StoreError, ans;
      }
      if IsTerminal(m.status) {
        return NoError, ans;
      }
      if payload.None? {
        return EncodingError, ans;
      }
      ghost var d, x := host.disk, host.log;
      ok := host.Push(sig, payload.value);
      ans := Pushes(c, ans, d, x, ok);
      if !ok {
        return StoreError, ans;
      }
      host.Ask(Dispatch);
      return NoError, ans;
    }

    /**
     * The business function, one primitive after the other, until it ends or, after `life` primitives, the
     * process dies under it. What it knows are the results of its primitives; `args` and `tags` are the
     * arguments it calls Return with and its labels.
     */
    method ExecWorkflow(
        wf: WorkflowContext, fn: Code, args: seq<Obs> -> Option<Value>, tags: seq<Obs> -> string, life: nat)
      returns (end: Option<Outcome>, ghost obs: seq<Obs>, ghost s: seq<Answer>)
      requires wf.host == host
      modifies wf, host`disk, host`now, host`cancelled, host`log, host`faults
      ensures Play(fn, old(wf.Here([], Phase.Call)), s)
           == wf.Here(obs, if end.Some? then Ended(end.value) else Phase.Call)
      ensures end.None? ==> |obs| == life
      ensures host.faults >= old(host.faults) && (end == Some(StoreFault) ==> host.faults > old(host.faults))
      ensures old(host.cancelled) ==> host.cancelled
    {
      ghost var p0 := wf.Here([], Phase.Call);
      var history: seq<Obs> := [];
      s := [];
      for i := 0 to life
        invariant Play(fn, p0, s) == wf.Here(history, Phase.Call) && |history| == i
        invariant host.faults >= old(host.faults) && (old(host.cancelled) ==> host.cancelled)
      {
        var r, step := Primitive(wf, fn, history, args(history), tags(history));
        PlayAppend(fn, p0, s, step);
        s := s + step;
        match r
        case Stop(why) => return Some(why), history, s;
        case Told(o) => history := history + [o];
      }
      return None, history, s;
    }

    /** One call the business function makes, or its return. */
    method Primitive(wf: WorkflowContext, fn: Code, history: seq<Obs>, arg: Option<Value>, tag: string)
      returns (r: Reply, ghost s: seq<Answer>)
      requires wf.host == host
      modifies wf, host`disk, host`now, host`cancelled, host`log, host`faults
      ensures Play(fn, old(wf.Here(history, Phase.Call)), s) == wf.There(history, r)
      ensures Labelled(old(wf.journal), wf.journal, tag)
      ensures fn(history).Return? && r == Stop(Returned) && old(wf.cursor) >= |old(wf.journal)| ==>
                arg.Some? && wf.returnData == Encode(arg.value)
      ensures host.faults >= old(host.faults) && (r == Stop(StoreFault) ==> host.faults > old(host.faults))
      ensures old(host.cancelled) ==> host.cancelled
    {
      var op := fn(history);
      if op.Exec? {
        var retry := PolicyOf(op.retry);
        r, s := wf.Execute(fn, history, op.step, retry, tag);
      } else if op.Sleep? {
        r, s := wf.Sleep(fn, history, op.d, tag);
      } else if op.Await? {
        r, s := wf.Await(fn, history, op.sig, op.timeout, tag);
      } else if op.Return? {
        r, s := wf.Return(fn, history, arg, tag);
      } else {
        s := EndsHere(fn, wf.Here(history, Phase.Call));
        r := Stop(if op.Done? then Finished else Broke(op.e));
      }
    }

    /** Marks a failure; only a failure that is persisted is announced. */
    method Fail(ghost c: Solo.Call, err: Fault, ghost ans0: seq<Ans>) returns (ghost ans: seq<Ans>)
      requires Alone(c, ans0) == At(Some(Marking(MarkFailed(err))))
      modifies host`disk, host`requests, host`log, host`faults
      ensures Alone(c, ans) == At(Some(Releasing))
      ensures Settled(old(host.requests), host.requests, old(host.disk), host.disk, Verdict.Fail(err))
      ensures host.faults >= old(host.faults)
      ensures host.faults == old(host.faults) ==>
                Published(old(host.requests), host.requests, old(host.disk), host.disk,
                     old(host.disk.meta).(status := Failed, err := err), Notify)
    {
      var ok;
      ok, ans := UpdateStatus(c, MarkFailed(err), ans0);
      if ok {
        ans := Pass(c, Notifying, Notify, ans);
      }
    }

    method Succeed(ghost c: Solo.Call, out: Payload, ghost ans0: seq<Ans>) returns (ghost ans: seq<Ans>)
      requires Alone(c, ans0) == At(Some(Marking(MarkSucceeded(out))))
      modifies host`disk, host`requests, host`log, host`faults
      ensures Alone(c, ans) == At(Some(Releasing))
      ensures Settled(old(host.requests), host.requests, old(host.disk), host.disk, Verdict.Succeed(out))
      ensures host.faults >= old(host.faults)
      ensures host.faults == old(host.faults) ==>
                Published(old(host.requests), host.requests, old(host.disk), host.disk,
                     Written(old(host.disk.meta), Verdict.Succeed(out)), Notify)
    {
      var ok;
      ok, ans := UpdateStatus(c, MarkSucceeded(out), ans0);
      if ok {
        ans := Pass(c, Notifying, Notify, ans);
      }
    }

    /** Suspends the run; only a suspension that is persisted is given to the timers. */
    method Suspend(ghost c: Solo.Call, dl: Deadline, ghost ans0: seq<Ans>) returns (ghost ans: seq<Ans>)
      requires Alone(c, ans0) == At(Some(Marking(MarkAwaiting(dl))))
      modifies host`disk, host`requests, host`log, host`faults
      ensures Alone(c, ans) == At(Some(Releasing))
      ensures Settled(old(host.requests), host.requests, old(host.disk), host.disk, Park(dl))
      ensures host.faults >= old(host.faults)
      ensures host.faults == old(host.faults) ==>
                Published(old(host.requests), host.requests, old(host.disk), host.disk,
                     old(host.disk.meta).(status := Awaiting), Wakeup(dl))
    {
      var ok;
      ok, ans := UpdateStatus(c, MarkAwaiting(dl), ans0);
      if ok {
        ans := Pass(c, Waking(dl), Wakeup(dl), ans);
      }
    }

    /**
     * The outcome switch. A failing store leaves the run as it is; so does a stopping engine, unless the business
     * code came to its own end or was suspended.
     */
    method Classify(wf: WorkflowContext, end: Outcome, ghost obs: seq<Obs>)
      returns (v: Verdict, ghost stopping: bool)
      requires wf.host == host
      modifies host`cancelled, host`log
      ensures v == Judge(wf.K(obs, Ended(end)), stopping)
      ensures host.log == if Breaks(end) then old(host.log) + [ContextAsked(stopping)] else old(host.log)
      ensures (Breaks(end) ==> stopping == host.cancelled) && (old(host.cancelled) ==> host.cancelled)
      ensures end == StoreFault ==> v == Verdict.Leave
      ensures end.Broke? ==> v == if host.cancelled then Verdict.Leave else Verdict.Fail(end.e)
      ensures end == Mismatch ==> v == if host.cancelled then Verdict.Leave else Verdict.Fail(MISMATCH)
      ensures end == Finished || end == Returned ==>
                v == if wf.cursor != |wf.journal| then Verdict.Fail(MISMATCH)
                     else Verdict.Succeed(if end == Returned then wf.returnData else Empty)
      ensures end == Sleeping ==> v == Park(wf.sleepDeadline)
      ensures end == Suspended ==> v == Park(wf.awaitDeadline)
    {
      stopping := false;
      if end == Finished {
        v := if wf.cursor != |wf.journal| then Verdict.Fail(MISMATCH) else Verdict.Succeed(Empty);
      } else if end == Returned {
        v := if wf.cursor != |wf.journal| then Verdict.Fail(MISMATCH) else Verdict.Succeed(wf.returnData);
      } else if end == Sleeping {
        v := Park(wf.sleepDeadline);
      } else if end == Suspended {
        v := Park(wf.awaitDeadline);
      } else {
        var cancelled := host.Stopping();
        stopping := cancelled;
        if cancelled || end == StoreFault {
          v := Verdict.Leave;
        } else if end == Mismatch {
          v := Verdict.Fail(MISMATCH);
        } else {
          v := Verdict.Fail(end.e);
        }
      }
    }

    method Settle(ghost c: Solo.Call, v: Verdict, ghost ans0: seq<Ans>) returns (ghost ans: seq<Ans>)
      requires Alone(c, ans0) == At(Some(AfterRun(v)))
      modifies host`disk, host`requests, host`log, host`faults
      ensures Alone(c, ans) == At(Some(Releasing))
      ensures Settled(old(host.requests), host.requests, old(host.disk), host.disk, v)
      ensures host.faults >= old(host.faults)
      ensures host.faults == old(host.faults) && !v.Leave? ==>
                Concluded(old(host.requests), host.requests, host.disk)
    {
      ans := ans0;
      match v
      case Succeed(out) => ans := Succeed(c, out, ans);
      case Fail(err) => ans := Fail(c, err, ans);
      case Park(dl) => ans := Suspend(c, dl, ans);
      case Leave =>
    }

    /**
     * One attempt: what a worker does with a dispatched run, unless the process dies after `life` primitives.
     * When no operation fails and the engine is not being stopped, the attempt of a run that is free and not
     * terminal ends with the lock released, the run no longer Running, and one request to whoever must know.
     */
    method Run(ghost code: Code, args: seq<Obs> -> Option<Value>, tags: seq<Obs> -> string, life: nat)
      returns (alive: bool, ghost ans: seq<Ans>)
      requires forall name | name in registry && registry[name].version == host.disk.meta.version ::
                 name == host.disk.meta.name ==> registry[name].code == code
      modifies host`disk, host`now, host`cancelled, host`requests, host`log, host`faults
      ensures var st := Alone(old(Doing(code, Job.Run)), ans);
              && st == At(st.pc) && (alive <==> st.pc == None)
              && (!alive ==> st.pc.value.Active? && |st.pc.value.k.obs| == life)
      ensures Attempted(code, old(host.requests), host.requests, old(host.disk), host.disk)
      ensures alive && host.faults == old(host.faults) && Free(old(host.disk), host.wall) ==> host.disk.lock == None
      ensures alive && host.faults == old(host.faults) && Free(old(host.disk), host.wall) && !host.cancelled
              && !IsTerminal(old(host.disk.meta.status)) ==>
                Concluded(old(host.requests), host.requests, host.disk)
      ensures !Free(old(host.disk), host.wall) ==>
                alive && host.disk == old(host.disk) && host.requests == old(host.requests)
    {
      ghost var c := Doing(code, Job.Run);
      var reached, held;
      reached, held, ans := Acquire(c);
      if !held {
        return true, ans;
      }
      alive, ans := RunLocked(c, args, tags, life, ans);
      if alive {
        ans := Release(c, ans);
      }
    }

    method RunLocked(
        ghost c: Solo.Call, args: seq<Obs> -> Option<Value>, tags: seq<Obs> -> string, life: nat, ghost ans0: seq<Ans>)
      returns (alive: bool, ghost ans: seq<Ans>)
      requires c.job == Job.Run && c.registered == Lookup(host.disk.meta.name) && Alone(c, ans0) == At(Some(Locked))
      requires forall name | name in registry && registry[name].version == host.disk.meta.version ::
                 name == host.disk.meta.name ==> registry[name].code == c.code
      modifies host`disk, host`now, host`cancelled, host`requests, host`log, host`faults
      ensures Halted(c, ans, alive, life)
      ensures Attempted(c.code, old(host.requests), host.requests, old(host.disk), host.disk)
      ensures host.faults >= old(host.faults)
      ensures alive && host.faults == old(host.faults) && !host.cancelled && !IsTerminal(old(host.disk.meta.status)) ==>
                Concluded(old(host.requests), host.requests, host.disk)
    {
      ghost var x := host.log;
      var ok, m := host.GetResult();
      ans := Admits(c, ans0, host.disk, x, ok);
      if !ok || IsTerminal(m.status) {
        return true, ans;
      }
      if m.name !in registry {
        ans := Fail(c, NOT_REGISTERED, ans);
        return true, ans;
      }
      var reg := registry[m.name];
      if reg.version != m.version {
        ans := Fail(c, VERSION_MISMATCH, ans);
        return true, ans;
      }
      alive, ans := RunAdmitted(c, reg.code, args, tags, life, ans);
    }

    /** Still there and about to release the lock, or dead in the middle of the business code. */
    ghost predicate Halted(c: Solo.Call, ans: seq<Ans>, alive: bool, life: nat)
      reads host
    {
      var st := Alone(c, ans);
      && st == At(st.pc) && st.pc.Some?
      && if alive then st.pc.value == Releasing else st.pc.value.Active? && |st.pc.value.k.obs| == life
    }

    method RunAdmitted(
        ghost c: Solo.Call, fn: Code, args: seq<Obs> -> Option<Value>, tags: seq<Obs> -> string, life: nat,
        ghost ans0: seq<Ans>)
      returns (alive: bool, ghost ans: seq<Ans>)
      requires fn == c.code && !IsTerminal(host.disk.meta.status) && Alone(c, ans0) == At(Some(Reading))
      modifies host`disk, host`now, host`cancelled, host`requests, host`log, host`faults
      ensures Halted(c, ans, alive, life)
      ensures Attempted(c.code, old(host.requests), host.requests, old(host.disk), host.disk)
      ensures host.faults >= old(host.faults)
      ensures alive && host.faults == old(host.faults) && !host.cancelled ==>
                Concluded(old(host.requests), host.requests, host.disk)
    {
      ghost var x := host.log;
      var ok, log := host.Read();
      ans := Reads(c, ans0, host.disk, x, ok);
      if !ok {
        return true, ans;
      }
      var wf := new WorkflowContext(host, log);
      ghost var d := host.disk;
      x := host.log;
      ok := host.UpdateStatus(Running, []);
      MarkedAsApplied(d, MarkRunning);
      ans := Starts(c, ans, d, Fresh(log), x, ok);
      if !ok {
        return true, ans;
      }
      alive, ans := RunLoaded(c, wf, fn, args, tags, life, d, ans);
    }

    method RunLoaded(
        ghost c: Solo.Call, wf: WorkflowContext, fn: Code, args: seq<Obs> -> Option<Value>, tags: seq<Obs> -> string,
        life: nat, ghost d: Disk, ghost ans0: seq<Ans>)
      returns (alive: bool, ghost ans: seq<Ans>)
      requires fn == c.code && wf.host == host && wf.K([], Phase.Call) == Fresh(host.disk.log)
      requires !IsTerminal(d.meta.status) && host.disk == d.(meta := d.meta.(status := Running))
      requires Alone(c, ans0) == Working(wf.Here([], Phase.Call))
      modifies wf, host`disk, host`now, host`cancelled, host`requests, host`log, host`faults
      ensures Halted(c, ans, alive, life)
      ensures Attempted(c.code, old(host.requests), host.requests, d, host.disk)
      ensures host.faults >= old(host.faults)
      ensures alive && host.faults == old(host.faults) && !host.cancelled ==>
                Concluded(old(host.requests), host.requests, host.disk)
    {
      ghost var p := wf.Here([], Phase.Call);
      var end, obs, s := ExecWorkflow(wf, fn, args, tags, life);
      ans := Attempts(c, ans0, p, s);
      if end.None? {
        PlayKeepsCopy(fn, p, s);
        return false, ans;
      }
      ans := RunEnded(c, wf, end.value, d, obs, p, s, ans);
      return true, ans;
    }

    /** The end of an attempt whose business code has ended as `end`. */
    method RunEnded(
        ghost c: Solo.Call, wf: WorkflowContext, end: Outcome, ghost d: Disk, ghost obs: seq<Obs>, ghost p: Point,
        ghost s: seq<Answer>, ghost ans0: seq<Ans>)
      returns (ghost ans: seq<Ans>)
      requires wf.host == host && p.k == Fresh(p.disk.log) && Play(c.code, p, s) == wf.Here(obs, Ended(end))
      requires !IsTerminal(d.meta.status) && p.disk == d.(meta := d.meta.(status := Running))
      requires Alone(c, ans0) == Working(wf.Here(obs, Ended(end)))
      modifies host`disk, host`cancelled, host`requests, host`log, host`faults
      ensures Alone(c, ans) == At(Some(Releasing))
      ensures Attempted(c.code, old(host.requests), host.requests, d, host.disk)
      ensures host.faults >= old(host.faults) && (old(host.cancelled) ==> host.cancelled)
      ensures end != StoreFault && host.faults == old(host.faults) && !host.cancelled ==>
                Concluded(old(host.requests), host.requests, host.disk)
    {
      ghost var p1 := wf.Here(obs, Ended(end));
      var v, stopping := Classify(wf, end, obs);
      PlayKeepsCopy(c.code, p, s);
      SuccessIsTrace(c.code, p, d.log, s, stopping);
      ParkIsParked(c.code, p, d.log, s, stopping);
      ans := Judges(c, ans0, p1, stopping);
      ans := Settle(c, v, ans);
      SettledIsAttempted(c.code, old(host.requests), host.requests, d, p1.disk, host.disk, v, obs);
    }
  }
}
