/** The one way to lose a signal: a push between an Await's Fetch and its Ack of the same signal. */
module Loss {
  import opened Model
  import opened Program
  import opened Kernel
  import opened Protocol
  import opened Signals

  /** A workflow that waits for one signal and is done. */
  function Waiter(obs: seq<Obs>): Op {
    if obs == [] then Await("go", 0) else Done
  }

  const LEASE: Time := 1
  const FINE: Ans := Ans(Answer(0, FnOk(""), Some(""), "", true, true, true, false, None), true, Some("v"))

  ghost predicate Reachable(s: Sys) {
    exists states, events :: Execution(Waiter, LEASE, states, events) && states[|events|] == s
  }

  lemma Go(s: Sys, e: Event, s': Sys)
    requires Reachable(s) && Enabled(s, e) && s' == Next(Waiter, LEASE, s, e)
    ensures Reachable(s')
  {
    var states, events :| Execution(Waiter, LEASE, states, events) && states[|events|] == s;
    var states', events' := states + [s'], events + [e];
    forall i | 0 <= i < |events'|
      ensures Enabled(states'[i], events'[i]) && states'[i + 1] == Next(Waiter, LEASE, states'[i], events'[i])
    {
      assert states'[i] == states[i];
    }
    assert Execution(Waiter, LEASE, states', events') && states'[|events'|] == s';
  }

  function On(pc: Pc): Actor {
    Actor(Run, pc, LEASE)
  }

  function State(actors: map<nat, Actor>, log: seq<Entry>, mail: map<Signal, Payload>, lock: Option<Time>): Sys {
    Sys(Disk(Meta("w", "v", Empty, Running, Empty, ""), log, mail, lock), 0, actors, [])
  }

  /** The runner at a phase of its Await, holding the lock. */
  function Waits(phase: Phase, log: seq<Entry>, mail: map<Signal, Payload>): Sys {
    State(map[0 := On(Active(Kernel([], log, |log|, NoDeadline, NoDeadline, Empty, phase)))], log, mail, Some(LEASE))
  }

  function With(s: Sys, sender: Actor): Sys {
    s.(actors := s.actors[1 := sender])
  }

  const A: Payload := Data("first")
  const B: Payload := Data("second")

  lemma ToLock()
    ensures Reachable(State(map[0 := On(Locked)], [], map[], Some(LEASE)))
  {
    var s0 := State(map[], [], map[], None);
    var none: seq<Event> := [];
    assert Execution(Waiter, LEASE, [s0], none) && [s0][|none|] == s0;
    var s1 := State(map[0 := Actor(Run, Entering, 0)], [], map[], None);
    Go(s0, Spawn(0, Run), s1);
    Go(s1, Step(0, FINE), State(map[0 := On(Locked)], [], map[], Some(LEASE)));
  }

  lemma ToGate()
    ensures Reachable(State(map[0 := On(Reading)], [], map[], Some(LEASE)))
  {
    ToLock();
    Go(State(map[0 := On(Locked)], [], map[], Some(LEASE)), Step(0, FINE),
       State(map[0 := On(Reading)], [], map[], Some(LEASE)));
  }

  lemma ToRead()
    ensures Reachable(State(map[0 := On(Loaded(Fresh([])))], [], map[], Some(LEASE)))
  {
    ToGate();
    Go(State(map[0 := On(Reading)], [], map[], Some(LEASE)), Step(0, FINE),
       State(map[0 := On(Loaded(Fresh([])))], [], map[], Some(LEASE)));
  }

  lemma ToAwait()
    ensures Reachable(Waits(Call, [], map[]))
  {
    ToRead();
    Go(State(map[0 := On(Loaded(Fresh([])))], [], map[], Some(LEASE)), Step(0, FINE), Waits(Call, [], map[]));
  }

  lemma ToFetch()
    ensures Reachable(Waits(Fetching, [], map[]))
  {
    ToAwait();
    Go(Waits(Call, [], map[]), Step(0, FINE), Waits(Deciding, [], map[]));
    Go(Waits(Deciding, [], map[]), Step(0, FINE), Waits(Fetching, [], map[]));
  }

  /** A Signal call beside the waiting runner, up to its push. */
  lemma SenderReady(s: Sys, p: Payload)
    requires Reachable(s) && s.actors.Keys == {0} && s.disk.meta.status == Running
    ensures Reachable(With(s, First(Send("go", p)).(pc := Pushing)))
  {
    var s1, s2 := With(s, First(Send("go", p))), With(s, First(Send("go", p)).(pc := Pushing));
    Go(s, Spawn(1, Send("go", p)), s1);
    assert Goto(s1, 1, Pushing) == s2;
    Go(s1, Step(1, FINE), s2);
  }

  lemma PushedBy(s: Sys, p: Payload)
    requires s.actors.Keys == {0}
    ensures var ready := With(s, First(Send("go", p)).(pc := Pushing));
            && Next(Waiter, LEASE, ready, Step(1, FINE)) == s.(disk := s.disk.(mail := s.disk.mail["go" := p]))
            && Pushes(ready, Step(1, FINE), "go", p)
  {
    assert With(s, First(Send("go", p)).(pc := Pushing)).actors - {1} == s.actors;
  }

  const DECISION: Entry := Entry(KindAwait, "", A)
  const HELD: map<Signal, Payload> := map["go" := A]

  lemma ToSlot()
    ensures Reachable(Waits(Fetching, [], HELD))
  {
    ToFetch();
    var s := Waits(Fetching, [], map[]);
    SenderReady(s, A);
    PushedBy(s, A);
    Go(With(s, First(Send("go", A)).(pc := Pushing)), Step(1, FINE), Waits(Fetching, [], HELD));
  }

  lemma ToCommit()
    ensures Reachable(Waits(Appending(DECISION), [], HELD))
  {
    ToSlot();
    Go(Waits(Fetching, [], HELD), Step(0, FINE), Waits(Appending(DECISION), [], HELD));
  }

  /** The first signal arrives, is fetched and committed; the slot still holds it. */
  lemma ToAck()
    ensures Reachable(Waits(Acking(A), [DECISION], HELD))
  {
    ToCommit();
    assert [] + [DECISION] == [DECISION];
    Go(Waits(Appending(DECISION), [], HELD), Step(0, FINE), Waits(Acking(A), [DECISION], HELD));
  }

  /** The second signal is pushed now; the Ack of the first one takes it away. */
  lemma AckTakes()
    ensures var s := Waits(Acking(A), [DECISION], map["go" := B]);
            && Next(Waiter, LEASE, s, Step(0, FINE)).disk.mail == map[]
            && (forall p :: !Commits(Waiter, s, Step(0, FINE), "go", p) && !Pushes(s, Step(0, FINE), "go", p))
  {
  }

  lemma More(states: seq<Sys>, events: seq<Event>, e: Event, s': Sys)
    requires Execution(Waiter, LEASE, states, events)
    requires Enabled(states[|events|], e) && s' == Next(Waiter, LEASE, states[|events|], e)
    ensures Execution(Waiter, LEASE, states + [s'], events + [e])
  {
    var states', events' := states + [s'], events + [e];
    forall i | 0 <= i < |events'|
      ensures Enabled(states'[i], events'[i]) && states'[i + 1] == Next(Waiter, LEASE, states'[i], events'[i])
    {
      assert states'[i] == states[i];
    }
  }

  /**
   * Signal conservation fails for a push between a Fetch and its Ack: an execution in which the second payload
   * was not overwritten, is in no slot and has been consumed by nobody.
   */
  lemma WindowPushIsLost()
    ensures exists states, events, m: nat, n: nat ::
              && Execution(Waiter, LEASE, states, events) && m < n <= |events|
              && Pushes(states[m], events[m], "go", B) && Latest(states, events, m, n, "go")
              && Forgotten(Waiter, states, events, m, n, "go", B)
  {
    ToAck();
    SenderReady(Waits(Acking(A), [DECISION], HELD), B);
    var states, events :| Execution(Waiter, LEASE, states, events) && states[|events|] == READY;
    var states', events' := PushAndAck(states, events);
  }

  const READY: Sys := With(Waits(Acking(A), [DECISION], HELD), First(Send("go", B)).(pc := Pushing))

  lemma PushAndAck(states: seq<Sys>, events: seq<Event>) returns (states': seq<Sys>, events': seq<Event>)
    requires Execution(Waiter, LEASE, states, events) && states[|events|] == READY
    ensures var m, n := |events|, |events| + 2;
            && Execution(Waiter, LEASE, states', events') && n <= |events'|
            && Pushes(states'[m], events'[m], "go", B) && Latest(states', events', m, n, "go")
            && Forgotten(Waiter, states', events', m, n, "go", B)
  {
    PushedBy(Waits(Acking(A), [DECISION], HELD), B);
    AckTakes();
    var e, e' := Step(1, FINE), Step(0, FINE);
    var s1 := Waits(Acking(A), [DECISION], map["go" := B]);
    var s2 := Next(Waiter, LEASE, s1, e');
    More(states, events, e, s1);
    More(states + [s1], events + [e], e', s2);
    states', events' := states + [s1] + [s2], events + [e] + [e'];
    Forgets(states', events', |events|);
  }

  lemma Forgets(states: seq<Sys>, events: seq<Event>, m: nat)
    requires |events| == m + 2 && |states| == m + 3 && events[m + 1] == Step(0, FINE)
    requires states[m + 1] == Waits(Acking(A), [DECISION], map["go" := B]) && states[m + 2].disk.mail == map[]
    ensures Latest(states, events, m, m + 2, "go") && Forgotten(Waiter, states, events, m, m + 2, "go", B)
  {
    AckTakes();
  }
}
