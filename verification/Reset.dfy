/** A WaitDone call that is woken by a failure and reads a run that Retry has set going again. */
module Reset {
  import opened Model
  import opened Program
  import opened Kernel
  import opened Protocol
  import opened Waiting

  const LEASE: Time := 1

  function Finisher(obs: seq<Obs>): Op {
    Done
  }

  /** Nothing is registered under the run's name, so that its attempt fails before it begins. */
  const UNKNOWN: Ans := Ans(Answer(0, FnOk(""), None, "", true, true, true, false, None), true, None)

  ghost predicate Reachable(o: Office) {
    exists offices, happenings :: Course(Finisher, LEASE, offices, happenings) && offices[|happenings|] == o
  }

  lemma Go(o: Office, h: Happening, o': Office)
    requires Reachable(o) && Possible(o, h) && o' == Then(Finisher, LEASE, o, h)
    ensures Reachable(o')
  {
    var offices, happenings :| Course(Finisher, LEASE, offices, happenings) && offices[|happenings|] == o;
    var offices', happenings' := offices + [o'], happenings + [h];
    forall i | 0 <= i < |happenings'|
      ensures Possible(offices'[i], happenings'[i])
              && offices'[i + 1] == Then(Finisher, LEASE, offices'[i], happenings'[i])
    {
      assert offices'[i] == offices[i];
    }
    assert Course(Finisher, LEASE, offices', happenings') && offices'[|happenings'|] == o';
  }

  /** A step of the engine, away from notify and from the reset. */
  lemma GoEngine(o: Office, e: Event, s: Sys)
    requires Reachable(o) && Enabled(o.sys, e) && !e.Crash? && s == Next(Finisher, LEASE, o.sys, e)
    requires e.Step? ==> !o.sys.actors[e.id].pc.Notifying? && !Resets(o.sys, e)
    requires !BecomesTerminal(Finisher, LEASE, o.sys, e)
    ensures Reachable(o.(sys := s))
  {
    Go(o, Engine(e), o.(sys := s));
  }

  /** The engine's side: status, error, lock and the one actor, if there is one. */
  function Side(status: Status, err: Fault, actor: Option<Actor>): Sys {
    var lock := if actor.Some? && actor.value.until > 0 then Some(LEASE) else None;
    Sys(Disk(Meta("w", "v", Empty, status, Empty, err), [], map[], lock),
        0, if actor.Some? then map[0 := actor.value] else map[], [])
  }

  function Runs(pc: Pc): Option<Actor> {
    Some(Actor(Run, pc, if pc.Entering? then 0 else LEASE))
  }

  function Resetting(pc: Pc): Option<Actor> {
    Some(Actor(Job.Retry, pc, if pc.Entering? then 0 else LEASE))
  }

  const FAILS: Pc := Marking(MarkFailed(NOT_REGISTERED))

  /** The waiting call, whose channel is number 0, before and after that channel is closed. */
  function Before(sys: Sys): Office {
    Office(sys, map[0 := Blocked], {0}, map[], {}, 0, map[], if sys.disk.meta.status == Failed then Some(0) else None)
  }

  function After(sys: Sys): Office {
    Office(sys, map[0 := Blocked], {}, map[], {0}, 0, map[0 := 0], Some(0))
  }

  lemma Blocks()
    ensures Reachable(Before(Side(Running, "", None)))
  {
    var s := Side(Running, "", None);
    var o0 := Office(s, map[], {}, map[], {}, 0, map[], None);
    var none: seq<Happening> := [];
    assert Course(Finisher, LEASE, [o0], none) && [o0][|none|] == o0;
    var o1 := Office(s, map[0 := Looking], {0}, map[], {}, 0, map[], None);
    Go(o0, Register(0), o1);
    Go(o1, Look(0), Before(s));
  }

  lemma Enters()
    ensures Reachable(Before(Side(Running, "", Runs(Entering))))
  {
    Blocks();
    GoEngine(Before(Side(Running, "", None)), Spawn(0, Run), Side(Running, "", Runs(Entering)));
  }

  lemma Locks()
    ensures Reachable(Before(Side(Running, "", Runs(Locked))))
  {
    Enters();
    GoEngine(Before(Side(Running, "", Runs(Entering))), Step(0, UNKNOWN), Side(Running, "", Runs(Locked)));
  }

  lemma Decides()
    ensures Reachable(Before(Side(Running, "", Runs(FAILS))))
  {
    Locks();
    GoEngine(Before(Side(Running, "", Runs(Locked))), Step(0, UNKNOWN), Side(Running, "", Runs(FAILS)));
  }

  lemma Fails()
    ensures Reachable(Before(Side(Failed, NOT_REGISTERED, Runs(Notifying))))
  {
    Decides();
    Go(Before(Side(Running, "", Runs(FAILS))), Engine(Step(0, UNKNOWN)),
       Before(Side(Failed, NOT_REGISTERED, Runs(Notifying))));
  }

  /** notify takes the list and closes the channel. */
  lemma Notifies()
    ensures Reachable(After(Side(Failed, NOT_REGISTERED, Runs(Notifying))).(closing := map[0 := {}]))
  {
    Fails();
    var s := Side(Failed, NOT_REGISTERED, Runs(Notifying));
    var o := Before(s).(listed := {}, closing := map[0 := {0}]);
    Go(Before(s), Detach(0), o);
    var o' := Then(Finisher, LEASE, o, Close(0, 0));
    var none: set<nat> := {};
    assert o.closing[0] - {0} == none;
    assert o'.closing == map[0 := none] && o'.closed == {0};
    Go(o, Close(0, 0), o');
  }

  lemma Returns()
    ensures Reachable(After(Side(Failed, NOT_REGISTERED, Runs(Releasing))))
  {
    Notifies();
    var o := After(Side(Failed, NOT_REGISTERED, Runs(Notifying))).(closing := map[0 := {}]);
    var o' := Then(Finisher, LEASE, o, Engine(Step(0, UNKNOWN)));
    assert o'.closing == map[];
    Go(o, Engine(Step(0, UNKNOWN)), o');
  }

  lemma Releases()
    ensures Reachable(After(Side(Failed, NOT_REGISTERED, None)))
  {
    Returns();
    var s := Side(Failed, NOT_REGISTERED, None);
    var s' := Next(Finisher, LEASE, Side(Failed, NOT_REGISTERED, Runs(Releasing)), Step(0, UNKNOWN));
    assert s'.actors == s.actors;
    GoEngine(After(Side(Failed, NOT_REGISTERED, Runs(Releasing))), Step(0, UNKNOWN), s);
  }

  lemma Retries()
    ensures Reachable(After(Side(Failed, NOT_REGISTERED, Resetting(Entering))))
  {
    Releases();
    GoEngine(After(Side(Failed, NOT_REGISTERED, None)), Spawn(0, Job.Retry),
             Side(Failed, NOT_REGISTERED, Resetting(Entering)));
  }

  lemma Checks()
    ensures Reachable(After(Side(Failed, NOT_REGISTERED, Resetting(Locked))))
  {
    Retries();
    GoEngine(After(Side(Failed, NOT_REGISTERED, Resetting(Entering))), Step(0, UNKNOWN),
             Side(Failed, NOT_REGISTERED, Resetting(Locked)));
  }

  lemma Agrees()
    ensures Reachable(After(Side(Failed, NOT_REGISTERED, Resetting(Marking(MarkReset)))))
  {
    Checks();
    GoEngine(After(Side(Failed, NOT_REGISTERED, Resetting(Locked))), Step(0, UNKNOWN),
             Side(Failed, NOT_REGISTERED, Resetting(Marking(MarkReset))));
  }

  lemma Resumes()
    ensures Reachable(After(Side(Running, "", Resetting(Releasing))).(resets := 1))
  {
    Agrees();
    Go(After(Side(Failed, NOT_REGISTERED, Resetting(Marking(MarkReset)))), Engine(Step(0, UNKNOWN)),
       After(Side(Running, "", Resetting(Releasing))).(resets := 1));
  }

  /** The call is woken, its channel was closed after the failure was stored, and what it reads is Running. */
  lemma WokenByAResetRun()
    ensures exists o: Office ::
              Reachable(o) && 0 in o.waits && o.waits[0].Woken? && !IsTerminal(o.sys.disk.meta.status)
  {
    Resumes();
    var o := After(Side(Running, "", Resetting(Releasing))).(resets := 1);
    Go(o, Wake(0), o.(waits := map[0 := Woken]));
  }
}
