/** The kernel's steps against the persisted run and the world, and what the steps of each primitive come to. */
module Steps {
  import opened Model
  import opened Program
  import opened Kernel
  import opened Exactness
  import opened Protocol
  import opened Storage
  import opened Policy

  type Log = seq<Exchange>

  /** Where an attempt has got to: what is persisted, the attempt itself, and what it has exchanged with the world. */
  datatype Point = Point(disk: Disk, k: Kernel, log: Log)

  /** A primitive that computes a deadline. */
  predicate Dated(op: Op) {
    op.Sleep? || (op.Await? && op.timeout > 0)
  }

  /** What has been exchanged after one more step. */
  function Heard(code: Code, k: Kernel, x: Log, a: Answer): Log {
    match k.phase
    case Call => if k.cursor >= |k.journal| && Dated(code(k.obs)) then x + [TimeRead(a.now)] else x
    case Calling(failures) => if code(k.obs).Exec? then HeardCalling(code(k.obs), failures, x, a) else x
    case Appending(e) => x + [EntryStored(e, a.stored)]
    case Napping(_) => x + [TimeRead(a.now)]
    case Fetching => if code(k.obs).Await? then x + [SignalAsked(code(k.obs).sig, a.fetched)] else x
    case Timing => if code(k.obs).Await? && code(k.obs).timeout > 0 then x + [TimeRead(a.now)] else x
    case Acking(_) => if code(k.obs).Await? then x + [SignalAcked(code(k.obs).sig, a.acked)] else x
    case _ => x
  }

  /** One turn of the retry loop: the context, the function, and a pause if there will be another call. */
  function HeardCalling(op: Op, failures: nat, x: Log, a: Answer): Log
    requires op.Exec?
  {
    if a.cancelled then x + [ContextAsked(true)]
    else
      var called := x + [ContextAsked(false)] + [FnCalled(op.step, a.fn)];
      if a.fn.FnFail? && MayRetry(op.retry, failures + 1) then Paused(called, DelayAfter(op.retry, failures + 1))
      else called
  }

  function Paused(x: Log, delay: Time): Log {
    if delay > 0 then x + [Waited(delay)] else x
  }

  function Move(code: Code, p: Point, a: Answer): Point {
    Point(DiskAfter(code, p.disk, p.k, a), KernelOn(code, p.disk, p.k, a), Heard(code, p.k, p.log, a))
  }

  /** The steps of one attempt, or of a part of it. */
  function Play(code: Code, p: Point, s: seq<Answer>): Point {
    if s == [] then p else Move(code, Play(code, p, s[..|s| - 1]), s[|s| - 1])
  }

  /** One more step. */
  lemma Take(code: Code, p0: Point, s: seq<Answer>, p: Point, a: Answer) returns (s': seq<Answer>)
    requires Play(code, p0, s) == p
    ensures s' == s + [a] && Play(code, p0, s') == Move(code, p, a)
  {
    s' := s + [a];
    assert s'[..|s'| - 1] == s;
  }

  lemma {:induction false} PlayAppend(code: Code, p: Point, s1: seq<Answer>, s2: seq<Answer>)
    ensures Play(code, p, s1 + s2) == Play(code, Play(code, p, s1), s2)
  {
    if s2 == [] {
      assert s1 + s2 == s1;
    } else {
      PlayAppend(code, p, s1, s2[..|s2| - 1]);
      assert (s1 + s2)[..|s1 + s2| - 1] == s1 + s2[..|s2| - 1];
    }
  }

  lemma StepKeepsCopy(code: Code, d: Disk, k: Kernel, a: Answer)
    requires k.journal == d.log
    ensures var (d', k') := (DiskAfter(code, d, k, a), KernelOn(code, d, k, a));
            k'.journal == d'.log && d.log <= d'.log && d'.meta == d.meta && d'.lock == d.lock
  {
  }

  lemma {:induction false} PlayKeepsCopy(code: Code, p: Point, s: seq<Answer>)
    requires p.k.journal == p.disk.log
    ensures var p' := Play(code, p, s);
            && p'.k.journal == p'.disk.log && p.disk.log <= p'.disk.log
            && p'.disk.meta == p.disk.meta && p'.disk.lock == p.disk.lock
  {
    if s != [] {
      PlayKeepsCopy(code, p, s[..|s| - 1]);
      var p1 := Play(code, p, s[..|s| - 1]);
      StepKeepsCopy(code, p1.disk, p1.k, s[|s| - 1]);
    }
  }

  /** The script of the kernel behind the steps over the disk: the slot is what the mailbox holds. */
  function ScriptOf(code: Code, p: Point, s: seq<Answer>): seq<Answer> {
    if s == [] then []
    else
      var p' := Play(code, p, s[..|s| - 1]);
      ScriptOf(code, p, s[..|s| - 1]) + [s[|s| - 1].(slot := SlotFor(code, p'.disk, p'.k))]
  }

  /** An attempt's steps over the disk are a run of the kernel. */
  lemma {:induction false} PlayIsRun(code: Code, p: Point, s: seq<Answer>)
    ensures KRun(code, p.k, ScriptOf(code, p, s)) == Play(code, p, s).k
  {
    if s != [] {
      var s', a := s[..|s| - 1], s[|s| - 1];
      PlayIsRun(code, p, s');
      var p' := Play(code, p, s');
      Then(code, p.k, ScriptOf(code, p, s'), a.(slot := SlotFor(code, p'.disk, p'.k)));
    }
  }

  lemma EndsHere(code: Code, p: Point) returns (s: seq<Answer>)
    requires p.k.phase.Call? && Ends(code(p.k.obs))
    ensures Play(code, p, s) ==
            p.(k := End(p.k, if code(p.k.obs).Done? then Finished else Broke(code(p.k.obs).e)))
  {
    s := Take(code, p, [], p, QUIET);
  }

  // ---- what the steps of one primitive come to ----

  const QUIET := Answer(0, FnFail(""), None, "", false, false, false, false, None)

  /** The attempt after one successful commit. */
  function WithEntry(k: Kernel, e: Entry): Kernel {
    k.(journal := k.journal + [e], cursor := |k.journal| + 1)
  }

  /** An Append that may fail. */
  function Stored(p: Point, e: Entry, ok: bool): Point {
    Point(if ok then Logged(p.disk, e) else p.disk, if ok then WithEntry(p.k, e) else p.k, p.log + [EntryStored(e, ok)])
  }

  /** A deadline taken from the journal, or computed and recorded: what that leads to, and the deadline or a fault. */
  datatype Anchoring = Anchoring(p: Point, fault: Option<Outcome>, t: Time)

  function Anchored(p: Point, kind: Kind, now: Time, span: Time, tag: string, ok: bool): Anchoring {
    if p.k.cursor < |p.k.journal| then
      var e := p.k.journal[p.k.cursor];
      if e.kind != kind then Anchoring(p, Some(Mismatch), span)
      else
        var p' := p.(k := p.k.(cursor := p.k.cursor + 1));
        if e.payload.Instant? then Anchoring(p', None, e.payload.t) else Anchoring(p', Some(Broke(CODEC)), span)
    else
      var p' := Stored(p.(log := p.log + [TimeRead(now)]), Entry(kind, tag, Instant(now + span)), ok);
      Anchoring(p', if ok then None else Some(StoreFault), now + span)
  }

  lemma SleepAnchors(code: Code, p: Point, now: Time, tag: string, ok: bool) returns (s: seq<Answer>)
    requires p.k.phase.Call? && code(p.k.obs).Sleep?
    ensures var a := Anchored(p, KindSleep, now, code(p.k.obs).d, tag, ok);
            Play(code, p, s) == a.p.(k :=
              if a.fault.Some? then End(a.p.k, a.fault.value) else a.p.k.(sleepDl := At(a.t), phase := Napping(a.t)))
  {
    var t := now + code(p.k.obs).d;
    var a, b, e := QUIET.(now := now, tag := tag), QUIET.(stored := ok), Entry(KindSleep, tag, Instant(t));
    s := Take(code, p, [], p, a);
    if p.k.cursor >= |p.k.journal| {
      var p1 := Point(p.disk, p.k.(phase := Appending(e)), p.log + [TimeRead(now)]);
      assert Move(code, p, a) == p1;
      s := Take(code, p, s, p1, b);
      assert KernelOn(code, p.disk, p1.k, b) ==
             if ok then WithEntry(p.k, e).(sleepDl := At(t), phase := Napping(t)) else End(p.k, StoreFault);
    }
  }

  lemma AwaitAnchors(code: Code, p: Point, now: Time, tag: string, ok: bool) returns (s: seq<Answer>)
    requires p.k.phase.Call? && code(p.k.obs).Await? && code(p.k.obs).timeout > 0
    ensures var a := Anchored(p, KindAwaitDeadline, now, code(p.k.obs).timeout, tag, ok);
            Play(code, p, s) == a.p.(k :=
              if a.fault.Some? then End(a.p.k, a.fault.value) else a.p.k.(awaitDl := At(a.t), phase := Deciding))
  {
    var t := now + code(p.k.obs).timeout;
    var a, b, e := QUIET.(now := now, tag := tag), QUIET.(stored := ok), Entry(KindAwaitDeadline, tag, Instant(t));
    s := Take(code, p, [], p, a);
    if p.k.cursor >= |p.k.journal| {
      var p1 := Point(p.disk, p.k.(phase := Appending(e)), p.log + [TimeRead(now)]);
      assert Move(code, p, a) == p1;
      s := Take(code, p, s, p1, b);
      assert KernelOn(code, p.disk, p1.k, b) ==
             if ok then WithEntry(p.k, e).(awaitDl := At(t), phase := Deciding) else End(p.k, StoreFault);
    }
  }

  lemma Naps(code: Code, p0: Point, s: seq<Answer>, p: Point, now: Time) returns (s': seq<Answer>)
    requires Play(code, p0, s) == p && p.k.phase.Napping?
    ensures Play(code, p0, s') ==
            Point(p.disk, if p.k.phase.t <= now then See(p.k, Slept) else End(p.k, Sleeping), p.log + [TimeRead(now)])
  {
    s' := Take(code, p0, s, p, QUIET.(now := now));
  }

  lemma ExecReplays(code: Code, p: Point) returns (s: seq<Answer>)
    requires p.k.phase.Call? && code(p.k.obs).Exec? && p.k.cursor < |p.k.journal|
    ensures var (e, k') := (p.k.journal[p.k.cursor], p.k.(cursor := p.k.cursor + 1));
            Play(code, p, s) == p.(k :=
              if e.kind != KindExec then End(p.k, Mismatch)
              else if e.payload.Data? then See(k', Ran(e.payload.v))
              else End(k', Broke(CODEC)))
  {
    s := Take(code, p, [], p, QUIET);
  }

  lemma ExecBegins(code: Code, p: Point) returns (s: seq<Answer>)
    requires p.k.phase.Call? && code(p.k.obs).Exec? && p.k.cursor >= |p.k.journal|
    ensures Play(code, p, s) == p.(k := p.k.(phase := Calling(0)))
  {
    s := Take(code, p, [], p, QUIET);
  }

  /** An Execute whose calls of fn are over. */
  function Tried(k: Kernel, out: FnResult, tag: string): Kernel {
    match out
    case FnOk(v) => k.(phase := Appending(Entry(KindExec, tag, Data(v))))
    case FnUnencodable(e) => See(k, Erred(e))
    case FnFail(e) => See(k, Erred(e))
  }

  /** The discovery that the engine is being stopped. */
  lemma CallsNoMore(code: Code, p0: Point, s: seq<Answer>, p: Point) returns (s': seq<Answer>)
    requires Play(code, p0, s) == p && p.k.phase.Calling? && code(p.k.obs).Exec?
    ensures Play(code, p0, s') == Point(p.disk, See(p.k, Erred(CANCELLED)), p.log + [ContextAsked(true)])
  {
    s' := Take(code, p0, s, p, QUIET.(cancelled := true));
  }

  /** One call of fn, and what it leads to. */
  lemma Calls(code: Code, p0: Point, s: seq<Answer>, p: Point, out: FnResult, tag: string) returns (s': seq<Answer>)
    requires Play(code, p0, s) == p && p.k.phase.Calling? && code(p.k.obs).Exec?
    ensures var (op, n) := (code(p.k.obs), p.k.phase.failures + 1);
            var called := p.log + [ContextAsked(false)] + [FnCalled(op.step, out)];
            Play(code, p0, s') ==
            if out.FnFail? && MayRetry(op.retry, n) then
              Point(p.disk, p.k.(phase := Calling(n)), Paused(called, DelayAfter(op.retry, n)))
            else Point(p.disk, Tried(p.k, out, tag), called)
  {
    s' := Take(code, p0, s, p, QUIET.(fn := out, tag := tag));
  }

  /** A commit, and what the primitive makes of it. */
  lemma Commits(code: Code, p0: Point, s: seq<Answer>, p: Point, ok: bool) returns (s': seq<Answer>)
    requires Play(code, p0, s) == p && p.k.phase.Appending?
    ensures Play(code, p0, s') ==
            Point(if ok then Logged(p.disk, p.k.phase.e) else p.disk,
                  if ok then Committed(p.k, p.k.phase.e) else End(p.k, StoreFault),
                  p.log + [EntryStored(p.k.phase.e, ok)])
  {
    s' := Take(code, p0, s, p, QUIET.(stored := ok));
  }

  lemma ReturnReplays(code: Code, p: Point) returns (s: seq<Answer>)
    requires p.k.phase.Call? && code(p.k.obs).Return? && p.k.cursor < |p.k.journal|
    ensures var e := p.k.journal[p.k.cursor];
            Play(code, p, s) == p.(k :=
              if e.kind != KindReturn then End(p.k, Mismatch)
              else End(p.k.(cursor := p.k.cursor + 1, ret := e.payload), Returned))
  {
    s := Take(code, p, [], p, QUIET);
  }

  lemma ReturnRecords(code: Code, p: Point, arg: Option<Value>, tag: string) returns (s: seq<Answer>)
    requires p.k.phase.Call? && code(p.k.obs).Return? && p.k.cursor >= |p.k.journal|
    ensures Play(code, p, s) == p.(k :=
              if arg.None? then End(p.k, Broke(CODEC))
              else p.k.(phase := Appending(Entry(KindReturn, tag, Data(arg.value)))))
  {
    s := Take(code, p, [], p, QUIET.(arg := arg, tag := tag));
  }

  lemma AwaitsForever(code: Code, p: Point) returns (s: seq<Answer>)
    requires p.k.phase.Call? && code(p.k.obs).Await? && code(p.k.obs).timeout <= 0
    ensures Play(code, p, s) == p.(k := p.k.(awaitDl := NoDeadline, phase := Deciding))
  {
    s := Take(code, p, [], p, QUIET);
  }

  /** A decision found in the journal, or none yet. */
  function Decision(k: Kernel, timed: bool): Kernel {
    if k.cursor >= |k.journal| then k.(phase := Fetching)
    else
      var (e, k') := (k.journal[k.cursor], k.(cursor := k.cursor + 1));
      if e.kind == KindAwaitTimeout && timed then See(k', TimedOut)
      else if e.kind == KindAwait then See(k', Got(e.payload))
      else End(k, Mismatch)
  }

  lemma DecidingIsDecision(code: Code, k: Kernel)
    requires code(k.obs).Await?
    ensures DecidingStep(code, k) == Decision(k, code(k.obs).timeout > 0)
  {
  }

  lemma Decides(code: Code, p: Point) returns (s: seq<Answer>)
    requires p.k.phase.Deciding? && code(p.k.obs).Await?
    ensures Play(code, p, s) == p.(k := Decision(p.k, code(p.k.obs).timeout > 0))
  {
    DecidingIsDecision(code, p.k);
    s := Take(code, p, [], p, QUIET);
    assert KernelOn(code, p.disk, p.k, QUIET) == DecidingStep(code, p.k);
    assert DiskAfter(code, p.disk, p.k, QUIET) == p.disk;
  }

  lemma Fetches(code: Code, p0: Point, s: seq<Answer>, p: Point, ok: bool, tag: string) returns (s': seq<Answer>)
    requires Play(code, p0, s) == p && p.k.phase.Fetching? && code(p.k.obs).Await?
    ensures var slot := Fetched(p.disk, code(p.k.obs).sig);
            Play(code, p0, s') ==
            Point(p.disk,
                  if !ok then End(p.k, StoreFault)
                  else if slot.Some? then p.k.(phase := Appending(Entry(KindAwait, tag, slot.value)))
                  else p.k.(phase := Timing),
                  p.log + [SignalAsked(code(p.k.obs).sig, ok)])
  {
    s' := Take(code, p0, s, p, QUIET.(fetched := ok, tag := tag));
  }

  lemma Acks(code: Code, p0: Point, s: seq<Answer>, p: Point, ok: bool) returns (s': seq<Answer>)
    requires Play(code, p0, s) == p && p.k.phase.Acking? && code(p.k.obs).Await?
    ensures Play(code, p0, s') ==
            Point(if ok then Acked(p.disk, code(p.k.obs).sig) else p.disk, See(p.k, Got(p.k.phase.p)),
                  p.log + [SignalAcked(code(p.k.obs).sig, ok)])
  {
    s' := Take(code, p0, s, p, QUIET.(acked := ok));
  }

  /** Without a timeout there is nothing to time. */
  lemma Hangs(code: Code, p0: Point, s: seq<Answer>, p: Point) returns (s': seq<Answer>)
    requires Play(code, p0, s) == p && p.k.phase.Timing? && code(p.k.obs).Await? && code(p.k.obs).timeout <= 0
    ensures Play(code, p0, s') == p.(k := End(p.k, Suspended))
  {
    s' := Take(code, p0, s, p, QUIET);
  }

  lemma Times(code: Code, p0: Point, s: seq<Answer>, p: Point, now: Time, tag: string) returns (s': seq<Answer>)
    requires Play(code, p0, s) == p && p.k.phase.Timing? && code(p.k.obs).Await? && code(p.k.obs).timeout > 0
    requires p.k.awaitDl.At?
    ensures Play(code, p0, s') ==
            Point(p.disk,
                  if now >= p.k.awaitDl.t then p.k.(phase := Appending(Entry(KindAwaitTimeout, tag, Empty)))
                  else End(p.k, Suspended),
                  p.log + [TimeRead(now)])
  {
    s' := Take(code, p0, s, p, QUIET.(now := now, tag := tag));
  }
}
