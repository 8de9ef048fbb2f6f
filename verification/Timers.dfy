/**
 * The wake-up timers of one run beside the protocol: goroutines that wait, fire and clean up after themselves,
 * and clearTimer calls, by enqueue or by Cancel, that take the handle out in one step and cancel it in another.
 */
module Timers {
  import opened Model
  import opened Program
  import opened Kernel
  import opened Protocol
  import opened Safety

  /** A timer's goroutine. */
  datatype Goroutine =
    | Waiting       // in select
    | Firing        // about to dispatch
    | Leaving       // about to run its deferred cleanup
    | Over

  datatype Timer = Timer(at: Goroutine, cancelled: bool)

  /** Who is inside clearTimer. */
  datatype Caller = ByEnqueue(n: nat) | ByCancel(id: nat)

  datatype Bench = Bench(
    sys: Sys,
    table: Option<nat>,                    // the generation registered for the run
    timers: map<nat, Timer>,               // every generation so far
    pulled: map<Caller, Option<nat>>,      // clearTimer past its critical section: the handle it will cancel, if any
    stopped: bool)

  datatype Act =
    | Engine(e: Event)                     // any step that touches no timer of this engine
    | Register(id: nat, a: Ans, h: nat)    // a suspended run's wake-up is registered
    | Pull(c: Caller)                      // clearTimer, the critical section
    | Drop(c: Caller)                      // clearTimer, the cancel
    | Fire(h: nat)                         // the deadline has come
    | Quit(h: nat)                         // the cancellation is noticed
    | Dispatched(h: nat)                   // the run has been handed to the queue
    | Cleanup(h: nat)                      // clearTimerIf
    | Halt                                 // Stop, first: the engine's context is cancelled, and with it every timer
    | Sweep                                // Stop, last: the table is emptied

  predicate At(b: Bench, h: nat, g: Goroutine) {
    h in b.timers && b.timers[h].at == g
  }

  predicate Clearing(s: Sys, id: nat) {
    id in s.actors && s.actors[id].pc.Clearing?
  }

  /** An actor inside clearTimer does nothing else; a crash of the process would take the timers with it. */
  ghost predicate Possible(b: Bench, x: Act) {
    match x
    case Engine(e) => Enabled(b.sys, e) && ((e.Step? || e.Crash?) ==> ByCancel(e.id) !in b.pulled)
    case Register(id, _, h) => id in b.sys.actors && b.sys.actors[id].pc.Waking? && h !in b.timers
    case Pull(c) => c !in b.pulled && (c.ByCancel? ==> Clearing(b.sys, c.id))
    case Drop(c) => c in b.pulled
    case Fire(h) => At(b, h, Waiting)
    case Quit(h) => At(b, h, Waiting) && b.timers[h].cancelled
    case Dispatched(h) => At(b, h, Firing)
    case Cleanup(h) => At(b, h, Leaving)
    case Halt => true
    case Sweep => b.stopped
  }

  function CancelIn(timers: map<nat, Timer>, h: Option<nat>): map<nat, Timer> {
    if h.Some? && h.value in timers then timers[h.value := timers[h.value].(cancelled := true)] else timers
  }

  function Move(timers: map<nat, Timer>, h: nat, g: Goroutine): map<nat, Timer>
    requires h in timers
  {
    timers[h := timers[h].(at := g)]
  }

  const PLAIN := Ans(Answer(0, FnFail(""), None, "", false, false, false, false, None), true, None)

  ghost function Then(code: Code, lease: Time, b: Bench, x: Act): Bench
    requires Possible(b, x)
  {
    match x
    case Engine(e) => b.(sys := Next(code, lease, b.sys, e))
    case Register(id, a, h) =>
      b.(sys := StepActor(code, lease, b.sys, id, a),
         table := Some(h),
         timers := CancelIn(b.timers, b.table)[h := Timer(Waiting, b.stopped)])
    case Pull(c) => b.(table := None, pulled := b.pulled[c := b.table])
    case Drop(c) =>
      b.(sys := if c.ByCancel? && c.id in b.sys.actors then StepActor(code, lease, b.sys, c.id, PLAIN) else b.sys,
         timers := CancelIn(b.timers, b.pulled[c]),
         pulled := b.pulled - {c})
    case Fire(h) => b.(timers := Move(b.timers, h, Firing))
    case Quit(h) => b.(timers := Move(b.timers, h, Leaving))
    case Dispatched(h) => b.(timers := Move(b.timers, h, Leaving))
    case Cleanup(h) =>
      b.(table := if b.table == Some(h) then None else b.table,
         timers := if b.table == Some(h) then CancelIn(Move(b.timers, h, Over), Some(h)) else Move(b.timers, h, Over))
    case Halt => b.(stopped := true, timers := map h | h in b.timers :: b.timers[h].(cancelled := true))
    case Sweep => b.(table := None)
  }

  ghost predicate Opened(b: Bench) {
    Started(b.sys) && b.table == None && b.timers == map[] && b.pulled == map[] && !b.stopped
  }

  ghost predicate Course(code: Code, lease: Time, bs: seq<Bench>, xs: seq<Act>) {
    && |bs| == |xs| + 1 && lease > 0
    && Opened(bs[0])
    && forall i | 0 <= i < |xs| :: Possible(bs[i], xs[i]) && bs[i + 1] == Then(code, lease, bs[i], xs[i])
  }

  // ---- the invariant ----

  /** A timer that would still wake the run. */
  predicate Live(b: Bench, h: nat) {
    At(b, h, Waiting) && !b.timers[h].cancelled
  }

  /** A clearTimer call has the handle and will cancel it. */
  ghost predicate Doomed(b: Bench, h: nat) {
    exists c :: c in b.pulled && b.pulled[c] == Some(h)
  }

  ghost predicate TimersInv(b: Bench) {
    && (b.table.Some? ==>
          b.table.value in b.timers && !b.timers[b.table.value].at.Over? && (b.timers[b.table.value].cancelled ==>
            b.stopped))
    && (forall c | c in b.pulled && b.pulled[c].Some? :: b.pulled[c].value in b.timers && b.table != b.pulled[c])
    && (forall h | h in b.timers && Live(b, h) :: b.table == Some(h) || Doomed(b, h))
    && (b.stopped ==> forall h | h in b.timers :: b.timers[h].cancelled)
  }

  /** A Cancel of this engine between the two halves of its clearTimer: the table is empty and stays so. */
  ghost predicate CancelInv(b: Bench) {
    forall c | c in b.pulled && c.ByCancel? :: b.table == None && Clearing(b.sys, c.id)
  }

  ghost predicate BenchInv(code: Code, b: Bench) {
    Base(code, b.sys) && Licensed(b.sys) && TimersInv(b) && CancelInv(b)
  }

  /** What a step does to the protocol: nothing, or one of the protocol's own steps. */
  lemma SysMoves(code: Code, lease: Time, b: Bench, x: Act) returns (e: Option<Event>)
    requires lease > 0 && Possible(b, x) && Base(code, b.sys) && CancelInv(b)
    ensures e.None? ==> Then(code, lease, b, x).sys == b.sys
    ensures e.Some? ==> Enabled(b.sys, e.value) && Then(code, lease, b, x).sys == Next(code, lease, b.sys, e.value)
    ensures x.Engine? || x.Register? || (x.Drop? && x.c.ByCancel?) || e.None?
  {
    match x
    case Engine(ev) => e := Some(ev);
    case Register(id, a, _) => e := Some(Event.Step(id, a));
    case Drop(c) => e := if c.ByCancel? then Some(Event.Step(c.id, PLAIN)) else None;
    case _ => e := None;
  }

  lemma SysKeeps(code: Code, lease: Time, b: Bench, x: Act)
    requires lease > 0 && Possible(b, x) && BenchInv(code, b)
    ensures Base(code, Then(code, lease, b, x).sys) && Licensed(Then(code, lease, b, x).sys)
  {
    var e := SysMoves(code, lease, b, x);
    if e.Some? {
      NextExclusive(code, lease, b.sys, e.value);
      NextGrounded(code, lease, b.sys, e.value);
      NextLicensed(code, lease, b.sys, e.value);
    }
  }

  lemma CancelKeeps(code: Code, lease: Time, b: Bench, x: Act)
    requires lease > 0 && Possible(b, x) && BenchInv(code, b)
    ensures CancelInv(Then(code, lease, b, x))
  {
    var b' := Then(code, lease, b, x);
    forall c | c in b'.pulled && c.ByCancel? ensures b'.table == None && Clearing(b'.sys, c.id) {
      if x.Engine? && x.e.Step? {
        StepFrame(code, lease, b.sys, x.e.id, x.e.a);
      }
    }
  }

  lemma TimersKeep(code: Code, lease: Time, b: Bench, x: Act)
    requires Possible(b, x) && TimersInv(b)
    ensures TimersInv(Then(code, lease, b, x))
  {
    var b' := Then(code, lease, b, x);
    forall h | h in b'.timers && Live(b', h) ensures b'.table == Some(h) || Doomed(b', h) {
      if h in b.timers {
        assert Live(b, h);
        if Doomed(b, h) {
          var c :| c in b.pulled && b.pulled[c] == Some(h);
          assert c in b'.pulled && b'.pulled[c] == Some(h);
        } else if x.Pull? {
          assert x.c in b'.pulled && b'.pulled[x.c] == Some(h);
        }
      }
    }
  }

  lemma {:induction false} CourseInv(code: Code, lease: Time, bs: seq<Bench>, xs: seq<Act>, n: nat)
    requires Course(code, lease, bs, xs) && n < |bs|
    ensures BenchInv(code, bs[n])
  {
    if n > 0 {
      CourseInv(code, lease, bs, xs, n - 1);
      SysKeeps(code, lease, bs[n - 1], xs[n - 1]);
      CancelKeeps(code, lease, bs[n - 1], xs[n - 1]);
      TimersKeep(code, lease, bs[n - 1], xs[n - 1]);
    }
  }

  // ---- the main theorems ----

  /** At most one timer of the run is live, apart from those a clearTimer call is about to cancel. */
  lemma OneLiveTimer(code: Code, lease: Time, bs: seq<Bench>, xs: seq<Act>, n: nat, g: nat, h: nat)
    requires Course(code, lease, bs, xs) && n < |bs|
    requires Live(bs[n], g) && !Doomed(bs[n], g) && Live(bs[n], h) && !Doomed(bs[n], h)
    ensures g == h && bs[n].table == Some(h)
  {
    CourseInv(code, lease, bs, xs, n);
  }

  lemma RegistrationOfSuspended(b: Bench, x: Act)
    requires Possible(b, x) && Licensed(b.sys)
    ensures x.Register? ==> b.sys.disk.meta.status == Awaiting
  {
    if x.Register? {
      assert LicensedPc(b.sys.disk, b.sys.actors[x.id]);
    }
  }

  /**
   * Once a Cancel has been through clearTimer, the run has no registered timer, gets no new one, and no timer
   * that is still waiting escapes its cancellation.
   */
  lemma {:induction false} NoTimerAfterCancel(
      code: Code, lease: Time, bs: seq<Bench>, xs: seq<Act>, m: nat, n: nat, id: nat)
    requires Course(code, lease, bs, xs) && m < n < |bs| && xs[m] == Drop(ByCancel(id))
    ensures bs[n].sys.disk.meta.status == Cancelled
    ensures bs[n].table == None && bs[n].timers.Keys == bs[m].timers.Keys
    ensures forall h | h in bs[n].timers && Live(bs[n], h) :: Doomed(bs[n], h)
    decreases n
  {
    CourseInv(code, lease, bs, xs, n);
    CourseInv(code, lease, bs, xs, n - 1);
    if m == n - 1 {
      CancelClears(code, lease, bs[m], id);
    } else {
      NoTimerAfterCancel(code, lease, bs, xs, m, n - 1, id);
      StaysCleared(code, lease, bs[n - 1], xs[n - 1]);
    }
  }

  lemma CancelClears(code: Code, lease: Time, b: Bench, id: nat)
    requires BenchInv(code, b) && Possible(b, Drop(ByCancel(id)))
    ensures var b' := Then(code, lease, b, Drop(ByCancel(id)));
            b'.sys.disk.meta.status == Cancelled && b'.table == None && b'.timers.Keys == b.timers.Keys
  {
    assert Clearing(b.sys, id);
    assert LicensedPc(b.sys.disk, b.sys.actors[id]);
  }

  lemma StaysCleared(code: Code, lease: Time, b: Bench, x: Act)
    requires lease > 0 && BenchInv(code, b) && Possible(b, x)
    requires b.sys.disk.meta.status == Cancelled && b.table == None
    ensures var b' := Then(code, lease, b, x);
            b'.sys.disk.meta.status == Cancelled && b'.table == None && b'.timers.Keys == b.timers.Keys
  {
    RegistrationOfSuspended(b, x);
    var e := SysMoves(code, lease, b, x);
    if e.Some? {
      TerminalStep(code, lease, b.sys, e.value);
    }
  }

  /** Neither a dispatch, nor a Cancel, nor a newer registration, nor Stop. */
  predicate Leaves(x: Act) {
    !x.Register? && !x.Pull? && !x.Halt? && !x.Sweep?
  }

  lemma StepSurvives(code: Code, lease: Time, b: Bench, x: Act, h: nat)
    requires Possible(b, x) && TimersInv(b) && b.table == Some(h) && Live(b, h) && Leaves(x) && x != Fire(h)
    ensures Then(code, lease, b, x).table == Some(h) && Live(Then(code, lease, b, x), h)
  {
  }

  ghost predicate Fired(xs: seq<Act>, m: nat, n: nat, h: nat)
    requires m <= n <= |xs|
  {
    exists i :: m <= i < n && xs[i] == Fire(h)
  }

  /**
   * No timer is lost to a late cleanup: unless the run is dispatched or cancelled, registered anew or the
   * engine is stopped, a registered timer is still registered and live, or it has fired, whatever older
   * generations and their clearTimer calls do meanwhile.
   */
  lemma {:induction false} RegisteredTimerSurvives(
      code: Code, lease: Time, bs: seq<Bench>, xs: seq<Act>, m: nat, n: nat, h: nat)
    requires Course(code, lease, bs, xs) && m <= n < |bs|
    requires bs[m].table == Some(h) && Live(bs[m], h)
    requires forall i | m <= i < n :: Leaves(xs[i])
    ensures (bs[n].table == Some(h) && Live(bs[n], h)) || Fired(xs, m, n, h)
    decreases n
  {
    if m < n {
      RegisteredTimerSurvives(code, lease, bs, xs, m, n - 1, h);
      CourseInv(code, lease, bs, xs, n - 1);
      if Fired(xs, m, n - 1, h) {
        var i :| m <= i < n - 1 && xs[i] == Fire(h);
        assert m <= i < n && xs[i] == Fire(h);
      } else if xs[n - 1] == Fire(h) {
        assert m <= n - 1 < n && xs[n - 1] == Fire(h);
      } else {
        StepSurvives(code, lease, bs[n - 1], xs[n - 1], h);
      }
    }
  }

  /** What may take a registered generation out of the table. */
  predicate TakesOut(x: Act, h: nat) {
    x.Register? || x.Pull? || x.Sweep? || x == Cleanup(h)
  }

  ghost predicate TakenOut(xs: seq<Act>, m: nat, n: nat, h: nat)
    requires m <= n <= |xs|
  {
    exists i :: m <= i < n && TakesOut(xs[i], h)
  }

  lemma StaysInTable(code: Code, lease: Time, b: Bench, x: Act, h: nat)
    requires Possible(b, x) && b.table == Some(h) && !TakesOut(x, h)
    ensures Then(code, lease, b, x).table == Some(h)
  {
  }

  /**
   * Before it has fired and after: a registered generation leaves the table by its own cleanup, by a newer
   * registration, by a clearTimer (of a dispatch or of Cancel) or by Stop, and by nothing else.
   */
  lemma {:induction false} LeavesTheTable(code: Code, lease: Time, bs: seq<Bench>, xs: seq<Act>, m: nat, n: nat, h: nat)
    requires Course(code, lease, bs, xs) && m <= n < |bs| && bs[m].table == Some(h)
    ensures bs[n].table == Some(h) || TakenOut(xs, m, n, h)
    decreases n
  {
    if m < n {
      LeavesTheTable(code, lease, bs, xs, m, n - 1, h);
      if TakenOut(xs, m, n - 1, h) {
        var i :| m <= i < n - 1 && TakesOut(xs[i], h);
        assert m <= i < n && TakesOut(xs[i], h);
      } else if TakesOut(xs[n - 1], h) {
        assert m <= n - 1 < n;
      } else {
        StaysInTable(code, lease, bs[n - 1], xs[n - 1], h);
      }
    }
  }
}
