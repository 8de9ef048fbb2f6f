/**
 * WaitDone beside the protocol of one run, in the process whose engine does the work: registration first,
 * then the look at the status, then blocking; notify snapshots the registry and closes outside its mutex.
 */
module Waiting {
  import opened Model
  import opened Program
  import opened Kernel
  import opened Protocol
  import opened Safety

  /** Where a WaitDone call is. Its channel has the call's number. */
  datatype Wait =
    | Looking             // registered, about to call GetResult
    | Blocked             // in select
    | Woken               // the channel was closed; about to call GetResult again
    | Leaving             // returned, about to remove the registration
    | Gone

  datatype Office = Office(
    sys: Sys,
    waits: map<nat, Wait>,
    listed: set<nat>,               // the registry's list for this run
    closing: map<nat, set<nat>>,    // a notify past its mutex: the channels it has still to close
    closed: set<nat>,
    resets: nat,                    // history: how many times Retry has reset the run
    closedAt: map<nat, nat>,        // history: the number of resets when a channel was closed
    ended: Option<nat>)             // history: the number of resets when the run last became terminal

  datatype Happening =
    | Engine(e: Event)
    | Register(w: nat)              // waiters.add
    | Look(w: nat)                  // GetResult, then return or block
    | Wake(w: nat)                  // the closed channel is received from
    | Reread(w: nat)
    | LookFails(w: nat)             // GetResult fails, the first time or the second
    | GiveUp(w: nat)                // the caller's context or the engine ends the wait
    | Remove(w: nat)                // waiters.remove
    | Detach(id: nat)               // notify, under the mutex
    | Close(id: nat, w: nat)        // notify, one close outside the mutex

  /** A terminal status is written and its notify has not yet taken the list. */
  predicate Pending(o: Office, id: nat) {
    && id in o.sys.actors && id !in o.closing
    && (o.sys.actors[id].pc.Auditing? || o.sys.actors[id].pc.Clearing? || o.sys.actors[id].pc.Notifying?)
  }

  /** Notify returns only when it has closed its whole snapshot. A crash would take the waiters with it. */
  ghost predicate Possible(o: Office, h: Happening) {
    match h
    case Engine(e) =>
      && Enabled(o.sys, e) && !e.Crash?
      && (e.Step? && o.sys.actors[e.id].pc.Notifying? ==> e.id in o.closing && o.closing[e.id] == {})
    case Register(w) => w !in o.waits
    case Look(w) => w in o.waits && o.waits[w].Looking?
    case Wake(w) => w in o.waits && o.waits[w].Blocked? && w in o.closed
    case Reread(w) => w in o.waits && o.waits[w].Woken?
    case LookFails(w) => w in o.waits && (o.waits[w].Looking? || o.waits[w].Woken?)
    case GiveUp(w) => w in o.waits && o.waits[w].Blocked?
    case Remove(w) => w in o.waits && o.waits[w].Leaving?
    case Detach(id) => id in o.sys.actors && o.sys.actors[id].pc.Notifying? && id !in o.closing
    case Close(id, w) => id in o.closing && w in o.closing[id]
  }

  predicate Resets(s: Sys, e: Event) {
    e.Step? && e.id in s.actors && s.actors[e.id].pc == Marking(MarkReset) && e.a.ok
  }

  ghost predicate BecomesTerminal(code: Code, lease: Time, s: Sys, e: Event)
    requires Enabled(s, e)
  {
    !IsTerminal(s.disk.meta.status) && IsTerminal(Next(code, lease, s, e).disk.meta.status)
  }

  ghost function Then(code: Code, lease: Time, o: Office, h: Happening): Office
    requires Possible(o, h)
  {
    match h
    case Engine(e) =>
      o.(sys := Next(code, lease, o.sys, e),
         closing := if e.Step? && o.sys.actors[e.id].pc.Notifying? then o.closing - {e.id} else o.closing,
         resets := if Resets(o.sys, e) then o.resets + 1 else o.resets,
         ended := if BecomesTerminal(code, lease, o.sys, e) then Some(o.resets) else o.ended)
    case Register(w) => o.(waits := o.waits[w := Looking], listed := o.listed + {w})
    case Look(w) =>
      if IsTerminal(o.sys.disk.meta.status) then o.(waits := o.waits[w := Leaving])
      else o.(waits := o.waits[w := Blocked])
    case Wake(w) => o.(waits := o.waits[w := Woken])
    case Reread(w) => o.(waits := o.waits[w := Leaving])
    case LookFails(w) => o.(waits := o.waits[w := Leaving])
    case GiveUp(w) => o.(waits := o.waits[w := Leaving])
    case Remove(w) => o.(waits := o.waits[w := Gone], listed := o.listed - {w})
    case Detach(id) => o.(closing := o.closing[id := o.listed], listed := {})
    case Close(id, w) =>
      o.(closing := o.closing[id := o.closing[id] - {w}], closed := o.closed + {w},
        closedAt := o.closedAt[w := o.resets])
  }

  ghost predicate Opened(o: Office) {
    Started(o.sys) && o.waits == map[] && o.listed == {} && o.closing == map[] && o.closed == {}
      && o.closedAt == map[] && o.ended == None
  }

  ghost predicate Course(code: Code, lease: Time, offices: seq<Office>, happenings: seq<Happening>) {
    && |offices| == |happenings| + 1 && lease > 0
    && Opened(offices[0])
    && forall i | 0 <= i < |happenings| ::
         Possible(offices[i], happenings[i]) && offices[i + 1] == Then(code, lease, offices[i], happenings[i])
  }

  // ---- the invariant ----

  /** A channel is in at most one place: listed, in one snapshot, or closed. */
  ghost predicate OnePlace(o: Office) {
    && (forall w | w in o.listed :: w in o.waits && w !in o.closed)
    && (forall w | w in o.closed :: w in o.waits && w in o.closedAt && o.closedAt[w] <= o.resets)
    && (forall i, w | i in o.closing && w in o.closing[i] :: w in o.waits && w !in o.listed && w !in o.closed)
    && (forall i, j, w | i in o.closing && j in o.closing && w in o.closing[i] && w in o.closing[j] :: i == j)
  }

  /** Snapshots belong to actors at their notify. */
  ghost predicate Closers(o: Office) {
    forall i | i in o.closing :: i in o.sys.actors && o.sys.actors[i].pc.Notifying?
  }

  ghost predicate InSnapshot(o: Office, w: nat) {
    exists i :: i in o.closing && w in o.closing[i]
  }

  ghost predicate HasPending(o: Office) {
    exists i :: Pending(o, i)
  }

  /** A waiting call has not been forgotten. */
  ghost predicate Remembered(o: Office, w: nat)
    requires w in o.waits
  {
    && (o.waits[w].Looking? || o.waits[w].Blocked? ==> w in o.listed || w in o.closed || InSnapshot(o, w))
    && (o.waits[w].Blocked? && w in o.listed && IsTerminal(o.sys.disk.meta.status) ==> HasPending(o))
    && (o.waits[w].Woken? ==> w in o.closed)
  }

  /** The run is terminal exactly if it has not been reset since it last became so. */
  ghost predicate EndedOk(o: Office) {
    && (o.ended.Some? ==> o.ended.value <= o.resets)
    && (IsTerminal(o.sys.disk.meta.status) <==> o.ended == Some(o.resets))
    && (forall w | w in o.closed && w in o.closedAt :: o.ended.Some? && o.closedAt[w] <= o.ended.value)
  }

  ghost predicate OfficeInv(code: Code, o: Office) {
    && Base(code, o.sys) && Licensed(o.sys)
    && OnePlace(o) && Closers(o) && EndedOk(o)
    && forall w | w in o.waits :: Remembered(o, w)
  }

  // ---- steps of the engine ----

  lemma StatusBecomesTerminal(code: Code, lease: Time, s: Sys, e: Event)
    requires Licensed(s) && Enabled(s, e) && !e.Crash?
    requires !IsTerminal(s.disk.meta.status) && IsTerminal(Next(code, lease, s, e).disk.meta.status)
    ensures e.Step? && e.id in Next(code, lease, s, e).actors && s.actors[e.id].pc.Marking?
    ensures var pc := Next(code, lease, s, e).actors[e.id].pc; pc.Auditing? || pc.Notifying?
  {
    if e.Step? {
      assert LicensedPc(s.disk, s.actors[e.id]);
    }
  }

  lemma StatusStaysTerminal(code: Code, lease: Time, s: Sys, e: Event)
    requires Licensed(s) && Enabled(s, e) && IsTerminal(s.disk.meta.status) && !Resets(s, e)
    ensures IsTerminal(Next(code, lease, s, e).disk.meta.status)
  {
    TerminalStep(code, lease, s, e);
    if e.Step? {
      assert LicensedPc(s.disk, s.actors[e.id]);
    }
  }

  lemma PendingStays(code: Code, lease: Time, o: Office, e: Event, i: nat)
    requires Base(code, o.sys) && Licensed(o.sys) && lease > 0 && Possible(o, Engine(e)) && Pending(o, i)
    ensures Pending(Then(code, lease, o, Engine(e)), i)
  {
    if e.Step? {
      StepFrame(code, lease, o.sys, e.id, e.a);
      assert LicensedPc(o.sys.disk, o.sys.actors[e.id]);
    }
  }

  lemma EndedKept(code: Code, lease: Time, o: Office, e: Event)
    requires Licensed(o.sys) && EndedOk(o) && Possible(o, Engine(e))
    ensures EndedOk(Then(code, lease, o, Engine(e)))
  {
    if IsTerminal(o.sys.disk.meta.status) && !Resets(o.sys, e) {
      StatusStaysTerminal(code, lease, o.sys, e);
    } else if Resets(o.sys, e) {
      assert LicensedPc(o.sys.disk, o.sys.actors[e.id]);
    }
  }

  lemma EngineKeeps(code: Code, lease: Time, o: Office, e: Event)
    requires lease > 0 && OfficeInv(code, o) && Possible(o, Engine(e))
    ensures OfficeInv(code, Then(code, lease, o, Engine(e)))
  {
    var o' := Then(code, lease, o, Engine(e));
    NextExclusive(code, lease, o.sys, e);
    NextGrounded(code, lease, o.sys, e);
    NextLicensed(code, lease, o.sys, e);
    if e.Step? {
      StepFrame(code, lease, o.sys, e.id, e.a);
    }
    EndedKept(code, lease, o, e);
    forall w | w in o'.waits ensures Remembered(o', w) {
      assert Remembered(o, w);
      if InSnapshot(o, w) {
        var i :| i in o.closing && w in o.closing[i];
        assert i in o'.closing;
      }
      if o.waits[w].Blocked? && w in o.listed && IsTerminal(o'.sys.disk.meta.status) {
        EnginePending(code, lease, o, e, w);
      }
    }
  }

  lemma EnginePending(code: Code, lease: Time, o: Office, e: Event, w: nat)
    requires lease > 0 && OfficeInv(code, o) && Possible(o, Engine(e))
    requires w in o.waits && o.waits[w].Blocked? && w in o.listed
    requires IsTerminal(Then(code, lease, o, Engine(e)).sys.disk.meta.status)
    ensures HasPending(Then(code, lease, o, Engine(e)))
  {
    if IsTerminal(o.sys.disk.meta.status) {
      assert Remembered(o, w);
      var i :| Pending(o, i);
      PendingStays(code, lease, o, e, i);
    } else {
      StatusBecomesTerminal(code, lease, o.sys, e);
      assert e.id !in o.closing;
      assert Pending(Then(code, lease, o, Engine(e)), e.id);
    }
  }

  // ---- steps of waiters and notify ----

  lemma WaiterKeeps(code: Code, lease: Time, o: Office, h: Happening)
    requires OfficeInv(code, o) && Possible(o, h) && !h.Engine? && !h.Detach? && !h.Close?
    ensures OfficeInv(code, Then(code, lease, o, h))
  {
    var o' := Then(code, lease, o, h);
    assert OnePlace(o') && Closers(o') && EndedOk(o');
    forall w | w in o'.waits ensures Remembered(o', w) {
      WaiterRemembered(code, lease, o, h, w);
    }
  }

  lemma WaiterRemembered(code: Code, lease: Time, o: Office, h: Happening, w: nat)
    requires OfficeInv(code, o) && Possible(o, h) && !h.Engine? && !h.Detach? && !h.Close?
    requires w in Then(code, lease, o, h).waits
    ensures Remembered(Then(code, lease, o, h), w)
  {
    var o' := Then(code, lease, o, h);
    if w in o.waits && o'.waits[w] == o.waits[w] {
      StaysRemembered(o, o', w);
    } else if w in o.waits {
      assert Remembered(o, w);
    }
  }

  /** Another waiter's doings. */
  lemma StaysRemembered(o: Office, o': Office, w: nat)
    requires w in o.waits && w in o'.waits && o'.waits[w] == o.waits[w] && Remembered(o, w)
    requires o'.sys == o.sys && o'.closing == o.closing && o'.closed == o.closed
    requires o.waits[w].Looking? || o.waits[w].Blocked? ==> (w in o.listed <==> w in o'.listed)
    ensures Remembered(o', w)
  {
    assert InSnapshot(o, w) ==> InSnapshot(o', w);
    if HasPending(o) {
      var i :| Pending(o, i);
      assert Pending(o', i);
    }
  }

  lemma DetachKeeps(code: Code, lease: Time, o: Office, id: nat)
    requires OfficeInv(code, o) && Possible(o, Detach(id))
    ensures OfficeInv(code, Then(code, lease, o, Detach(id)))
  {
    var o' := Then(code, lease, o, Detach(id));
    forall w | w in o'.waits ensures Remembered(o', w) {
      assert Remembered(o, w);
      if w in o.listed {
        assert id in o'.closing && w in o'.closing[id];
      }
    }
  }

  lemma CloseKeeps(code: Code, lease: Time, o: Office, id: nat, c: nat)
    requires OfficeInv(code, o) && Possible(o, Close(id, c))
    ensures OfficeInv(code, Then(code, lease, o, Close(id, c)))
  {
    var o' := Then(code, lease, o, Close(id, c));
    assert LicensedPc(o.sys.disk, o.sys.actors[id]);
    forall w | w in o'.waits ensures Remembered(o', w) {
      CloseRemembers(code, lease, o, id, c, w);
    }
  }

  lemma CloseRemembers(code: Code, lease: Time, o: Office, id: nat, c: nat, w: nat)
    requires OfficeInv(code, o) && Possible(o, Close(id, c)) && w in o.waits
    ensures Remembered(Then(code, lease, o, Close(id, c)), w)
  {
    var o' := Then(code, lease, o, Close(id, c));
    assert Remembered(o, w);
    if InSnapshot(o, w) {
      var i :| i in o.closing && w in o.closing[i];
      assert w == c || (i in o'.closing && w in o'.closing[i]);
    }
    if HasPending(o) {
      var i :| Pending(o, i);
      assert Pending(o', i);
    }
  }

  lemma {:induction false} CourseInv(code: Code, lease: Time, offices: seq<Office>, happenings: seq<Happening>, n: nat)
    requires Course(code, lease, offices, happenings) && n < |offices|
    ensures OfficeInv(code, offices[n])
  {
    if n > 0 {
      CourseInv(code, lease, offices, happenings, n - 1);
      var h := happenings[n - 1];
      if h.Engine? {
        EngineKeeps(code, lease, offices[n - 1], h.e);
      } else if h.Detach? {
        DetachKeeps(code, lease, offices[n - 1], h.id);
      } else if h.Close? {
        CloseKeeps(code, lease, offices[n - 1], h.id, h.w);
      } else {
        WaiterKeeps(code, lease, offices[n - 1], h);
      }
    }
  }

  // ---- the main theorems ----

  /**
   * No missed wake-up: a blocked call whose channel is open, in a terminal run, has a notify coming: one
   * that has not taken the list yet, or one that has the channel in its snapshot.
   */
  lemma NoMissedWakeUp(code: Code, lease: Time, offices: seq<Office>, happenings: seq<Happening>, n: nat, w: nat)
    requires Course(code, lease, offices, happenings) && n < |offices|
    requires w in offices[n].waits && offices[n].waits[w].Blocked? && w !in offices[n].closed
    requires IsTerminal(offices[n].sys.disk.meta.status)
    ensures HasPending(offices[n]) || InSnapshot(offices[n], w)
  {
    CourseInv(code, lease, offices, happenings, n);
    assert Remembered(offices[n], w);
  }

  /**
   * What a woken call reads, exactly: a terminal status if and only if Retry has not reset the run since it
   * last became terminal, which it had done when the call's channel was closed or later.
   */
  lemma WakeReadsTerminal(code: Code, lease: Time, offices: seq<Office>, happenings: seq<Happening>, n: nat, w: nat)
    requires Course(code, lease, offices, happenings) && n < |offices|
    requires w in offices[n].waits && offices[n].waits[w].Woken?
    ensures w in offices[n].closedAt && offices[n].ended.Some?
    ensures offices[n].closedAt[w] <= offices[n].ended.value <= offices[n].resets
    ensures IsTerminal(offices[n].sys.disk.meta.status) <==> offices[n].ended.value == offices[n].resets
  {
    CourseInv(code, lease, offices, happenings, n);
    assert Remembered(offices[n], w);
  }

  /** Each channel is closed at most once, and only while nobody else can reach it through the list. */
  lemma ClosedAtMostOnce(code: Code, lease: Time, offices: seq<Office>, happenings: seq<Happening>, n: nat)
    requires Course(code, lease, offices, happenings) && n < |happenings| && happenings[n].Close?
    ensures happenings[n].w !in offices[n].closed && happenings[n].w !in offices[n].listed
    ensures !InSnapshot(offices[n + 1], happenings[n].w)
  {
    CourseInv(code, lease, offices, happenings, n);
  }
}
