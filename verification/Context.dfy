/**
 * WorkflowContext: the primitives as the engine runs them. Each is proved to be a run of the replay kernel's
 * steps over the persisted run, in which every answer is what the world answered to that very call.
 */
module Context {
  import opened Model
  import opened Program
  import opened Kernel
  import opened Storage
  import opened Steps
  import opened Policy
  import opened Protocol

  /** What a primitive hands back to its caller: a result the business code may branch on, or the end of the attempt. */
  datatype Reply =
    | Told(o: Obs)
    | Stop(why: Outcome)

  datatype Consumed =
    | Nothing
    | Hit(e: Entry)
    | Diverged

  /** Whatever `after` has more than `before` carries this label. */
  predicate Labelled(before: seq<Entry>, after: seq<Entry>, tag: string) {
    before <= after && forall i | |before| <= i < |after| :: after[i].tag == tag
  }

  /** An Await at this point of the journal finds no decision: at most its own deadline is left to read. */
  predicate Undecided(journal: seq<Entry>, cursor: nat, timeout: Time) {
    || cursor >= |journal|
    || (timeout > 0 && cursor == |journal| - 1
        && journal[cursor].kind == KindAwaitDeadline && journal[cursor].payload.Instant?)
  }

  class WorkflowContext {
    const host: Host
    var journal: seq<Entry>
    var cursor: nat
    var sleepDeadline: Deadline
    var awaitDeadline: Deadline
    var returnData: Payload

    constructor (host: Host, journal: seq<Entry>)
      ensures this.host == host
      ensures K([], Call) == Fresh(journal)
    {
      this.host, this.journal := host, journal;
      cursor, sleepDeadline, awaitDeadline, returnData := 0, NoDeadline, NoDeadline, Empty;
    }

    ghost function K(obs: seq<Obs>, phase: Phase): Kernel
      reads this
    {
      Kernel(obs, journal, cursor, sleepDeadline, awaitDeadline, returnData, phase)
    }

    ghost function After(obs: seq<Obs>, r: Reply): Kernel
      reads this
    {
      match r
      case Told(o) => K(obs + [o], Call)
      case Stop(why) => K(obs, Ended(why))
    }

    ghost function Here(obs: seq<Obs>, phase: Phase): Point
      reads this, host
    {
      Point(host.disk, K(obs, phase), host.log)
    }

    ghost function There(obs: seq<Obs>, r: Reply): Point
      reads this, host
    {
      Point(host.disk, After(obs, r), host.log)
    }

    /** The entry behind the cursor is of this kind and holds this time. */
    ghost predicate Behind(kind: Kind, t: Time)
      reads this
    {
      0 < cursor <= |journal| && journal[cursor - 1].kind == kind && journal[cursor - 1].payload == Instant(t)
    }

    /** Positional matching: the next entry if its kind is wanted, and then the cursor moves on. */
    method Consume(want: seq<Kind>) returns (c: Consumed)
      modifies `cursor
      ensures old(cursor) >= |journal| ==> c == Nothing
      ensures old(cursor) < |journal| ==>
              c == if journal[old(cursor)].kind in want then Hit(journal[old(cursor)]) else Diverged
      ensures cursor == if c.Hit? then old(cursor) + 1 else old(cursor)
    {
      if cursor >= |journal| {
        return Nothing;
      }
      var e := journal[cursor];
      for i := 0 to |want|
        invariant e.kind !in want[..i]
      {
        if e.kind == want[i] {
          cursor := cursor + 1;
          return Hit(e);
        }
      }
      return Diverged;
    }

    /** Appends to the store, then to the working copy; the cursor ends up behind the new entry. */
    method Commit(kind: Kind, tag: string, payload: Payload) returns (ok: bool)
      modifies `journal, `cursor, host`disk, host`log, host`faults
      ensures host.disk == if ok then Logged(old(host.disk), Entry(kind, tag, payload)) else old(host.disk)
      ensures journal == if ok then old(journal) + [Entry(kind, tag, payload)] else old(journal)
      ensures cursor == if ok then |journal| else old(cursor)
      ensures host.log == old(host.log) + [EntryStored(Entry(kind, tag, payload), ok)]
      ensures host.faults == old(host.faults) + if ok then 0 else 1
    {
      var e := Entry(kind, tag, payload);
      ok := host.Append(e);
      if ok {
        journal := journal + [e];
        cursor := |journal|;
      }
    }

    /** Either the deadline recorded at this position, or a new one, counted from a reading of the clock. */
    method Anchor(kind: Kind, span: Time, tag: string, ghost obs: seq<Obs>)
      returns (fault: Option<Outcome>, t: Time, ghost now: Time, ghost ok: bool)
      modifies `journal, `cursor, host`now, host`disk, host`log, host`faults
      ensures Anchoring(Here(obs, Call), fault, t) == Anchored(old(Here(obs, Call)), kind, now, span, tag, ok)
      ensures host.now >= old(host.now) && host.disk.mail == old(host.disk.mail)
      ensures fault.None? ==> Behind(kind, t)
      ensures fault.Some? ==> fault.value in {Mismatch, StoreFault, Broke(CODEC)} && journal == old(journal)
      ensures old(cursor) < |old(journal)| ==>
                && journal == old(journal) && (fault.None? ==> cursor == old(cursor) + 1)
                && (journal[old(cursor)].kind == kind && journal[old(cursor)].payload.Instant? ==> fault.None?)
      ensures old(cursor) >= |old(journal)| ==>
                && (fault.None? || fault == Some(StoreFault)) && cursor == (if ok then |journal| else old(cursor))
                && old(host.now) + span <= t <= host.now + span
                && journal == old(journal) + if fault.None? then [Entry(kind, tag, Instant(t))] else []
      ensures host.faults >= old(host.faults) && (fault == Some(StoreFault) ==> host.faults > old(host.faults))
    {
      ok := false;
      var c := Consume([kind]);
      if c.Nothing? {
        var reading := host.Now();
        now, t := reading, reading + span;
        var stored := Commit(kind, tag, EncodeTime(t));
        ok, fault := stored, if stored then None else Some(StoreFault);
      } else {
        now, t := 0, span;
        if c.Diverged? {
          fault := Some(Mismatch);
        } else if DecodeTime(c.e.payload).None? {
          fault := Some(Broke(CODEC));
        } else {
          fault, t := None, DecodeTime(c.e.payload).value;
        }
      }
    }

    /**
     * A Sleep is over if and only if its deadline has passed; the deadline is the one just read from the journal
     * or just recorded, and a new one lies the length of the sleep after the call.
     */
    method Sleep(ghost code: Code, ghost obs: seq<Obs>, d: Time, tag: string) returns (r: Reply, ghost s: seq<Answer>)
      requires code(obs) == Op.Sleep(d)
      modifies `journal, `cursor, `sleepDeadline, host`now, host`disk, host`log, host`faults
      ensures Play(code, old(Here(obs, Call)), s) == There(obs, r)
      ensures Labelled(old(journal), journal, tag) && host.now >= old(host.now)
      ensures r == Told(Slept) ==> sleepDeadline.At? && sleepDeadline.t <= host.now
      ensures r == Stop(Sleeping) ==> sleepDeadline.At? && host.now < sleepDeadline.t
      ensures r == Told(Slept) || r == Stop(Sleeping) ==> Behind(KindSleep, sleepDeadline.t)
      ensures old(cursor) >= |old(journal)| && r != Stop(StoreFault) ==>
                && sleepDeadline.At? && journal == old(journal) + [Entry(KindSleep, tag, Instant(sleepDeadline.t))]
                && old(host.now) + d <= sleepDeadline.t <= host.now + d
      ensures host.faults >= old(host.faults) && (r == Stop(StoreFault) ==> host.faults > old(host.faults))
    {
      ghost var p0 := Here(obs, Call);
      var fault, deadline, at, ok := Anchor(KindSleep, d, tag, obs);
      s := SleepAnchors(code, p0, at, tag, ok);
      if fault.Some? {
        return Stop(fault.value), s;
      }
      sleepDeadline := At(deadline);
      r, s := Nap(code, obs, deadline, p0, s);
    }

    method Nap(ghost code: Code, ghost obs: seq<Obs>, deadline: Time, ghost p0: Point, ghost s0: seq<Answer>)
      returns (r: Reply, ghost s: seq<Answer>)
      requires Play(code, p0, s0) == Here(obs, Napping(deadline))
      modifies host`now, host`log
      ensures Play(code, p0, s) == There(obs, r)
      ensures host.now >= old(host.now) && r == if deadline <= host.now then Told(Slept) else Stop(Sleeping)
    {
      ghost var p := Here(obs, Napping(deadline));
      var now := host.Now();
      s := Naps(code, p0, s0, p, now);
      var remaining := deadline - now;
      r := if remaining <= 0 then Told(Slept) else Stop(Sleeping);
    }

    /** One turn of the retry loop, up to the verdict of the policy. */
    method CallOnce(
        ghost code: Code, ghost obs: seq<Obs>, step: Step, ghost tag: string,
        ghost n: nat, ghost p0: Point, ghost s0: seq<Answer>)
      returns (cancelled: bool, out: FnResult, ghost s: seq<Answer>)
      requires code(obs).Exec? && code(obs).step == step && Play(code, p0, s0) == Here(obs, Calling(n))
      modifies host`cancelled, host`log
      ensures if cancelled then host.cancelled && out == FnFail(CANCELLED)
              else host.log != [] && host.log[|host.log| - 1] == FnCalled(step, out)
      ensures old(host.cancelled) ==> host.cancelled
      ensures Play(code, p0, s) ==
              if !cancelled && out.FnFail? && MayRetry(code(obs).retry, n + 1) then
                Here(obs, Calling(n + 1)).(log := Paused(host.log, DelayAfter(code(obs).retry, n + 1)))
              else Here(obs, Call).(k := Tried(K(obs, Call), out, tag))
    {
      ghost var p := Here(obs, Calling(n));
      cancelled := host.Stopping();
      if cancelled {
        out := FnFail(CANCELLED);
        s := CallsNoMore(code, p0, s0, p);
        assert Tried(K(obs, Call), out, tag) == See(p.k, Erred(CANCELLED));
      } else {
        out := host.CallFn(step);
        s := Calls(code, p0, s0, p, out, tag);
        assert Tried(K(obs, Call), out, tag) == Tried(p.k, out, tag);
      }
    }

    /** The whole turn: a call, the verdict of the policy, and the pause before the next turn if there is one. */
    method Turn(
        ghost code: Code, ghost obs: seq<Obs>, step: Step, policy: RetryPolicy, ghost tag: string,
        ghost n: nat, ghost p0: Point, ghost s0: seq<Answer>)
      returns (more: bool, cancelled: bool, out: FnResult, ghost s: seq<Answer>)
      requires code(obs) == Exec(step, policy.Spec()) && Play(code, p0, s0) == Here(obs, Calling(n))
      requires !policy.Nil? && (policy.Never? || policy.Count() == n) && {this, host} !! policy.Objects()
      modifies policy.Objects(), host`now, host`cancelled, host`log
      ensures host.now >= old(host.now) && (old(host.cancelled) ==> host.cancelled)
      ensures more ==> !cancelled && n + 1 < MaxCalls(policy.Spec()) && (policy.Never? || policy.Count() == n + 1)
      ensures if cancelled then host.cancelled && out == FnFail(CANCELLED)
              else out.FnFail? && !more ==> n + 1 >= MaxCalls(policy.Spec())
      ensures !more && !cancelled ==> host.log != [] && host.log[|host.log| - 1] == FnCalled(step, out)
      ensures Play(code, p0, s) ==
              if more then Here(obs, Calling(n + 1)) else Here(obs, Call).(k := Tried(K(obs, Call), out, tag))
    {
      cancelled, out, s := CallOnce(code, obs, step, tag, n, p0, s0);
      if cancelled || !out.FnFail? {
        return false, cancelled, out, s;
      }
      MayRetryIff(policy.Spec(), n + 1);
      var delay, ok := Policy.Next(policy, n);
      if ok && delay > 0 {
        host.Wait(delay);
      }
      more := ok;
    }

    /**
     * Calls fn until it succeeds, the policy gives up, or the engine is being stopped. What it hands on is what
     * the last call returned, and a failing fn is called exactly as often as the policy allows.
     */
    method ExecuteWithPolicy(
        ghost code: Code, ghost obs: seq<Obs>, step: Step, retry: RetryPolicy, ghost tag: string,
        ghost p0: Point, ghost s0: seq<Answer>)
      returns (out: FnResult, calls: nat, cancelled: bool, ghost s: seq<Answer>)
      requires code(obs) == Exec(step, retry.Spec()) && Play(code, p0, s0) == Here(obs, Calling(0))
      modifies host`now, host`cancelled, host`log
      ensures Play(code, p0, s) == Here(obs, Call).(k := Tried(K(obs, Call), out, tag))
      ensures if cancelled then host.cancelled && out == FnFail(CANCELLED)
              else calls > 0 && host.log != [] && host.log[|host.log| - 1] == FnCalled(step, out)
      ensures calls <= retry.Most() && (out.FnFail? && !cancelled ==> calls == retry.Most())
      ensures host.now >= old(host.now) && (old(host.cancelled) ==> host.cancelled)
    {
      var policy := ForExec(retry);
      var more;
      more, cancelled, out, s := Turn(code, obs, step, policy, tag, 0, p0, s0);
      calls := if cancelled then 0 else 1;
      while more
        invariant policy.Spec() == retry.Spec() && !policy.Nil? && fresh(policy.Objects())
        invariant more ==> policy.Never? || policy.Count() == calls
        invariant calls <= MaxCalls(retry.Spec()) == retry.Most() && (more ==> calls < retry.Most())
        invariant host.now >= old(host.now) && (old(host.cancelled) ==> host.cancelled)
        invariant Play(code, p0, s) ==
                  if more then Here(obs, Calling(calls)) else Here(obs, Call).(k := Tried(K(obs, Call), out, tag))
        invariant if cancelled then !more && host.cancelled && out == FnFail(CANCELLED)
                  else calls > 0 && (!more && out.FnFail? ==> calls == retry.Most())
        invariant !more && !cancelled ==> host.log != [] && host.log[|host.log| - 1] == FnCalled(step, out)
        decreases more, MaxCalls(retry.Spec()) - calls
      {
        more, cancelled, out, s := Turn(code, obs, step, policy, tag, calls, p0, s);
        calls := if cancelled then calls else calls + 1;
      }
    }

    /**
     * A recorded result is handed back without asking anybody; otherwise it is fn's, and recorded before it is
     * used.
     */
    method Execute(ghost code: Code, ghost obs: seq<Obs>, step: Step, retry: RetryPolicy, tag: string)
      returns (r: Reply, ghost s: seq<Answer>)
      requires code(obs) == Exec(step, retry.Spec())
      modifies `journal, `cursor, host`now, host`cancelled, host`disk, host`log, host`faults
      ensures Play(code, old(Here(obs, Call)), s) == There(obs, r)
      ensures Labelled(old(journal), journal, tag) && host.now >= old(host.now)
      ensures old(cursor) < |old(journal)| ==> host.log == old(host.log) && host.disk == old(host.disk)
      ensures old(cursor) >= |old(journal)| && r.Told? && r.o.Ran? ==>
                journal == old(journal) + [Entry(KindExec, tag, Data(r.o.v))]
      ensures (old(host.cancelled) ==> host.cancelled)
      ensures host.faults >= old(host.faults) && (r == Stop(StoreFault) ==> host.faults > old(host.faults))
    {
      ghost var p0 := Here(obs, Call);
      var c := Consume([KindExec]);
      if !c.Nothing? {
        s := ExecReplays(code, p0);
        if c.Diverged? {
          return Stop(Mismatch), s;
        }
        if Decode(c.e.payload).None? {
          return Stop(Broke(CODEC)), s;
        }
        return Told(Ran(Decode(c.e.payload).value)), s;
      }
      s := ExecBegins(code, p0);
      r, s := ExecuteNow(code, obs, step, retry, tag, p0, s);
    }

    method ExecuteNow(
        ghost code: Code, ghost obs: seq<Obs>, step: Step, retry: RetryPolicy, tag: string,
        ghost p0: Point, ghost s0: seq<Answer>)
      returns (r: Reply, ghost s: seq<Answer>)
      requires code(obs) == Exec(step, retry.Spec()) && Play(code, p0, s0) == Here(obs, Calling(0))
      modifies `journal, `cursor, host`now, host`cancelled, host`disk, host`log, host`faults
      ensures Play(code, p0, s) == There(obs, r)
      ensures host.now >= old(host.now) && (old(host.cancelled) ==> host.cancelled)
      ensures journal == old(journal) + if r.Told? && r.o.Ran? then [Entry(KindExec, tag, Data(r.o.v))] else []
      ensures host.faults >= old(host.faults) && (r == Stop(StoreFault) ==> host.faults > old(host.faults))
    {
      var out, calls, cancelled;
      out, calls, cancelled, s := ExecuteWithPolicy(code, obs, step, retry, tag, p0, s0);
      r, s := Keep(code, obs, out, tag, p0, s);
    }

    /** The result of fn is recorded before it is used; an error is not recorded. */
    method Keep(
        ghost code: Code, ghost obs: seq<Obs>, out: FnResult, tag: string, ghost p0: Point, ghost s0: seq<Answer>)
      returns (r: Reply, ghost s: seq<Answer>)
      requires Play(code, p0, s0) == Here(obs, Call).(k := Tried(K(obs, Call), out, tag))
      modifies `journal, `cursor, host`disk, host`log, host`faults
      ensures Play(code, p0, s) == There(obs, r)
      ensures if out.FnOk? then r == Told(Ran(out.v)) || (r == Stop(StoreFault) && host.faults > old(host.faults))
              else r == Told(Erred(out.e))
      ensures journal == old(journal) + if out.FnOk? && r.Told? then [Entry(KindExec, tag, Data(out.v))] else []
      ensures host.faults >= old(host.faults)
    {
      ghost var p := Here(obs, Call).(k := Tried(K(obs, Call), out, tag));
      if !out.FnOk? {
        r, s := Told(Erred(out.e)), s0;
        assert p == There(obs, r);
        return;
      }
      var ok := Commit(KindExec, tag, Encode(out.v));
      s := Commits(code, p0, s0, p, ok);
      r := if ok then Told(Ran(out.v)) else Stop(StoreFault);
    }

    /** What is returned is what is recorded: from before, or else the argument. */
    method Return(ghost code: Code, ghost obs: seq<Obs>, arg: Option<Value>, tag: string)
      returns (r: Reply, ghost s: seq<Answer>)
      requires code(obs) == Op.Return
      modifies `journal, `cursor, `returnData, host`disk, host`log, host`faults
      ensures !r.Told?
      ensures Play(code, old(Here(obs, Call)), s) == There(obs, r)
      ensures old(cursor) < |old(journal)| ==> host.log == old(host.log) && host.disk == old(host.disk)
      ensures old(cursor) < |old(journal)| && r == Stop(Returned) ==>
                returnData == old(journal)[old(cursor)].payload
      ensures old(cursor) >= |old(journal)| ==>
                r == Stop(if arg.None? then Broke(CODEC) else if host.faults == old(host.faults) then Returned
                          else StoreFault)
      ensures old(cursor) >= |old(journal)| && r == Stop(Returned) ==>
                returnData == Encode(arg.value) && journal == old(journal) + [Entry(KindReturn, tag, returnData)]
      ensures Labelled(old(journal), journal, tag)
      ensures host.faults >= old(host.faults) && (r == Stop(StoreFault) ==> host.faults > old(host.faults))
    {
      ghost var p0 := Here(obs, Call);
      var c := Consume([KindReturn]);
      if !c.Nothing? {
        s := ReturnReplays(code, p0);
        if c.Diverged? {
          return Stop(Mismatch), s;
        }
        returnData := c.e.payload;
        assert After(obs, Stop(Returned)) == End(p0.k.(cursor := p0.k.cursor + 1, ret := c.e.payload), Returned);
        return Stop(Returned), s;
      }
      s := ReturnRecords(code, p0, arg, tag);
      if arg.None? {
        return Stop(Broke(CODEC)), s;
      }
      var payload := Encode(arg.value);
      ghost var p := Here(obs, Appending(Entry(KindReturn, tag, payload)));
      var ok := Commit(KindReturn, tag, payload);
      s := Commits(code, p0, s, p, ok);
      if !ok {
        return Stop(StoreFault), s;
      }
      returnData := payload;
      assert After(obs, Stop(Returned)) == Committed(p.k, p.k.phase.e);
      return Stop(Returned), s;
    }

    /** The first part of an Await: its deadline, if it has one, and no stale one if it has not. */
    method AwaitDeadline(ghost code: Code, ghost obs: seq<Obs>, timeout: Time, tag: string)
      returns (fault: Option<Outcome>, ghost s: seq<Answer>)
      requires code(obs).Await? && code(obs).timeout == timeout
      modifies `journal, `cursor, `awaitDeadline, host`now, host`disk, host`log, host`faults
      ensures Play(code, old(Here(obs, Call)), s) == Here(obs, if fault.Some? then Ended(fault.value) else Deciding)
      ensures host.now >= old(host.now) && host.disk.mail == old(host.disk.mail)
      ensures Labelled(old(journal), journal, tag) && (|journal| > |old(journal)| ==> cursor == |journal|)
      ensures forall i | |old(journal)| <= i < |journal| :: journal[i].kind == KindAwaitDeadline
      ensures fault.None? ==> awaitDeadline.At? == (timeout > 0)
      ensures timeout <= 0 ==> fault.None? && journal == old(journal) && cursor == old(cursor)
      ensures timeout > 0 && fault.None? ==> Behind(KindAwaitDeadline, awaitDeadline.t)
      ensures old(Undecided(journal, cursor, timeout)) ==>
                if fault.None? then cursor >= |journal| else fault.value == StoreFault
      ensures fault.Some? ==> fault.value in {Mismatch, StoreFault, Broke(CODEC)} && journal == old(journal)
      ensures timeout > 0 && fault.None? && old(cursor) >= |old(journal)| ==>
                && old(host.now) + timeout <= awaitDeadline.t <= host.now + timeout
                && journal == old(journal) + [Entry(KindAwaitDeadline, tag, Instant(awaitDeadline.t))]
      ensures host.faults >= old(host.faults) && (fault == Some(StoreFault) ==> host.faults > old(host.faults))
    {
      ghost var p0 := Here(obs, Call);
      if timeout > 0 {
        var deadline;
        ghost var at, ok;
        fault, deadline, at, ok := Anchor(KindAwaitDeadline, timeout, tag, obs);
        s := AwaitAnchors(code, p0, at, tag, ok);
        if fault.Some? {
          return;
        }
        awaitDeadline := At(deadline);
        ghost var anchored := Anchored(p0, KindAwaitDeadline, at, timeout, tag, ok).p.k;
        assert K(obs, Deciding) == anchored.(awaitDl := At(deadline), phase := Deciding);
      } else {
        awaitDeadline := NoDeadline;
        s := AwaitsForever(code, p0);
        fault := None;
      }
    }

    /** The rest of it: a decision already recorded, a signal, a timeout, or suspension. */
    method AwaitDecision(ghost code: Code, ghost obs: seq<Obs>, sig: Signal, timeout: Time, tag: string)
      returns (r: Reply, ghost s: seq<Answer>)
      requires code(obs) == Op.Await(sig, timeout) && awaitDeadline.At? == (timeout > 0)
      modifies `journal, `cursor, host`now, host`disk, host`log, host`faults
      ensures Play(code, old(Here(obs, Deciding)), s) == There(obs, r)
      ensures Labelled(old(journal), journal, tag) && host.now >= old(host.now)
      ensures old(cursor) < |old(journal)| ==> journal == old(journal) && host.disk == old(host.disk)
      ensures r == Stop(Suspended) ==> awaitDeadline == NoDeadline || host.now < awaitDeadline.t
      ensures host.faults >= old(host.faults) && (r == Stop(StoreFault) ==> host.faults > old(host.faults))
      ensures old(cursor) >= |old(journal)| && host.faults == old(host.faults) ==>
                Decided(sig, old(host.disk.mail), r, tag)
    {
      ghost var p0 := Here(obs, Deciding);
      var c := Consume(if timeout > 0 then [KindAwait, KindAwaitTimeout] else [KindAwait]);
      s := Decides(code, p0);
      if c.Diverged? {
        return Stop(Mismatch), s;
      } else if c.Hit? {
        r := Told(if c.e.kind == KindAwaitTimeout then TimedOut else Got(c.e.payload));
        assert After(obs, r) == See(p0.k.(cursor := p0.k.cursor + 1), r.o);
        return;
      }
      ghost var p := Here(obs, Fetching);
      var reached, slot := host.Fetch(sig);
      s := Fetches(code, p0, s, p, reached, tag);
      if reached && slot.Some? {
        r, s := AwaitSignal(code, obs, sig, slot.value, tag, p0, s);
      } else if !reached {
        r := Stop(StoreFault);
      } else {
        r, s := AwaitTimeout(code, obs, timeout, tag, p0, s);
      }
    }

    /** What an undecided Await comes to when every operation succeeds. */
    ghost predicate Decided(sig: Signal, mail: map<Signal, Payload>, r: Reply, tag: string)
      reads this, host
    {
      if sig in mail then
        && r == Told(Got(mail[sig])) && Latest(Entry(KindAwait, tag, mail[sig]))
        && host.disk.mail == mail - {sig}
      else
        && host.disk.mail == mail
        && if awaitDeadline.At? && awaitDeadline.t <= host.now then
             r == Told(TimedOut) && Latest(Entry(KindAwaitTimeout, tag, Empty))
           else r == Stop(Suspended)
    }

    ghost predicate Latest(e: Entry)
      reads this
    {
      journal != [] && journal[|journal| - 1] == e
    }

    /** A signal was there: record the decision first, acknowledge it afterwards. */
    method AwaitSignal(
        ghost code: Code, ghost obs: seq<Obs>, sig: Signal, payload: Payload, tag: string,
        ghost p0: Point, ghost s0: seq<Answer>)
      returns (r: Reply, ghost s: seq<Answer>)
      requires code(obs).Await? && code(obs).sig == sig
      requires Play(code, p0, s0) == Here(obs, Appending(Entry(KindAwait, tag, payload)))
      modifies `journal, `cursor, host`disk, host`log, host`faults
      ensures Play(code, p0, s) == There(obs, r)
      ensures r == Told(Got(payload)) || (r == Stop(StoreFault) && host.faults > old(host.faults))
      ensures journal == if r.Told? then old(journal) + [Entry(KindAwait, tag, payload)] else old(journal)
      ensures host.faults >= old(host.faults)
      ensures host.faults == old(host.faults) ==> host.disk.mail == old(host.disk.mail) - {sig}
    {
      ghost var p := Here(obs, Appending(Entry(KindAwait, tag, payload)));
      var ok := Commit(KindAwait, tag, payload);
      s := Commits(code, p0, s0, p, ok);
      if !ok {
        return Stop(StoreFault), s;
      }
      assert K(obs, Acking(payload)) == Committed(p.k, p.k.phase.e);
      p := Here(obs, Acking(payload));
      var acked := host.Ack(sig);
      s := Acks(code, p0, s, p, acked);
      return Told(Got(payload)), s;
    }

    /** There was none: a timeout that has passed is recorded, otherwise the run is suspended. */
    method AwaitTimeout(
        ghost code: Code, ghost obs: seq<Obs>, timeout: Time, tag: string, ghost p0: Point, ghost s0: seq<Answer>)
      returns (r: Reply, ghost s: seq<Answer>)
      requires code(obs).Await? && code(obs).timeout == timeout && awaitDeadline.At? == (timeout > 0)
      requires Play(code, p0, s0) == Here(obs, Timing)
      modifies `journal, `cursor, host`now, host`disk, host`log, host`faults
      ensures Play(code, p0, s) == There(obs, r)
      ensures host.now >= old(host.now) && host.disk.mail == old(host.disk.mail)
      ensures var due := awaitDeadline.At? && awaitDeadline.t <= host.now;
              if !due then r == Stop(Suspended)
              else r == Told(TimedOut) || (r == Stop(StoreFault) && host.faults > old(host.faults))
      ensures journal == if r.Told? then old(journal) + [Entry(KindAwaitTimeout, tag, Empty)] else old(journal)
      ensures host.faults >= old(host.faults)
    {
      ghost var p := Here(obs, Timing);
      if timeout <= 0 {
        s := Hangs(code, p0, s0, p);
        return Stop(Suspended), s;
      }
      var now := host.Now();
      s := Times(code, p0, s0, p, now, tag);
      if now < awaitDeadline.t {
        return Stop(Suspended), s;
      }
      p := Here(obs, Appending(Entry(KindAwaitTimeout, tag, Empty)));
      var ok := Commit(KindAwaitTimeout, tag, Empty);
      s := Commits(code, p0, s, p, ok);
      if !ok {
        return Stop(StoreFault), s;
      }
      assert After(obs, Told(TimedOut)) == Committed(p.k, p.k.phase.e);
      return Told(TimedOut), s;
    }

    /**
     * With no decision recorded and no failing operation, an Await takes the signal if the slot holds one, and
     * empties the slot; otherwise it times out if and only if its deadline has passed, and else suspends. A new
     * deadline lies the timeout after the call.
     */
    method Await(ghost code: Code, ghost obs: seq<Obs>, sig: Signal, timeout: Time, tag: string)
      returns (r: Reply, ghost s: seq<Answer>)
      requires code(obs) == Op.Await(sig, timeout)
      modifies `journal, `cursor, `awaitDeadline, host`now, host`disk, host`log, host`faults
      ensures Play(code, old(Here(obs, Call)), s) == There(obs, r)
      ensures Labelled(old(journal), journal, tag) && host.now >= old(host.now)
      ensures host.faults >= old(host.faults) && (r == Stop(StoreFault) ==> host.faults > old(host.faults))
      ensures old(Undecided(journal, cursor, timeout)) && host.faults == old(host.faults) ==>
                awaitDeadline.At? == (timeout > 0) && Decided(sig, old(host.disk.mail), r, tag)
      ensures timeout > 0 && old(cursor) >= |old(journal)| && |journal| > |old(journal)| ==>
                && awaitDeadline.At? && old(host.now) + timeout <= awaitDeadline.t <= host.now + timeout
                && journal[|old(journal)|] == Entry(KindAwaitDeadline, tag, Instant(awaitDeadline.t))
      ensures r == Stop(Suspended) ==> awaitDeadline == NoDeadline || host.now < awaitDeadline.t
    {
      ghost var p0 := Here(obs, Call);
      var fault, s1 := AwaitDeadline(code, obs, timeout, tag);
      if fault.Some? {
        return Stop(fault.value), s1;
      }
      ghost var s2;
      r, s2 := AwaitDecision(code, obs, sig, timeout, tag);
      PlayAppend(code, p0, s1, s2);
      s := s1 + s2;
    }
  }
}
