/**
 * Crash-replay equivalence under a clock that does not go back: if the attempts of a run read one clock after
 * the other, then so can the one execution that leaves the same journal, and it is done no later.
 */
module Timely {
  import opened Model
  import opened Program
  import opened Kernel
  import opened Worlds
  import opened Replay
  import opened Exactness
  import opened Attempt
  import opened Origin
  import opened Progress

  // ---- the times a journal admits ----

  /** The earliest times at which the last entry can have been written and the next primitive can be called. */
  datatype Tick = Tick(at: Time, next: Time)

  function Ticked(code: Code, w: Where, h: Time, e: Entry): Option<Tick> {
    if Program.Advance(code, w, e) == Lost then None
    else
      match w
      case Ready(obs) => (
        match code(obs)
        case Sleep(d) =>
          var at := DecodeTime(e.payload).value - d;
          if at >= h then Some(Tick(at, Max(at, at + d))) else None
        case Await(_, timeout) =>
          if timeout > 0 then
            var at := DecodeTime(e.payload).value - timeout;
            if at >= h then Some(Tick(at, at)) else None
          else Some(Tick(h, h))
        case _ => Some(Tick(h, h)))
      case Deadlined(_, dl) =>
        if e.kind == KindAwaitTimeout then Some(Tick(Max(h, dl), Max(h, dl))) else Some(Tick(h, h))
      case _ => None
  }

  /** None if no execution that starts at `o` under a clock that does not go back can have left the journal. */
  function Clockwork(code: Code, o: Time, j: seq<Entry>): Option<Tick> {
    if j == [] then Some(Tick(o, o))
    else
      match Clockwork(code, o, j[..|j| - 1])
      case None => None
      case Some(t) => Ticked(code, Walk(code, j[..|j| - 1]), t.next, j[|j| - 1])
  }

  lemma ClockworkSnoc(code: Code, o: Time, j: seq<Entry>, e: Entry)
    ensures Clockwork(code, o, j + [e]) ==
            match Clockwork(code, o, j) case None => None case Some(t) => Ticked(code, Walk(code, j), t.next, e)
  {
    assert (j + [e])[..|j + [e]| - 1] == j;
  }

  // ---- what the attempts keep ----

  ghost predicate OnTime(code: Code, o: Time, k: Kernel, c: Time) {
    && Clockwork(code, o, k.journal).Some? && Clockwork(code, o, k.journal).value.at <= c
    && (k.phase.Appending? ==>
          Clockwork(code, o, k.journal + [k.phase.e]).Some?
            && Clockwork(code, o, k.journal + [k.phase.e]).value.at <= c)
  }

  /** An attempt at the end of its journal has slept through all of it. */
  lemma NextReached(code: Code, o: Time, k: Kernel, c: Time)
    requires Clockwork(code, o, k.journal).Some? && Clockwork(code, o, k.journal).value.at <= c
    requires Awake(k, c) && k.cursor == |k.journal| && !k.phase.Napping? && k.phase != Ended(Sleeping)
    ensures Clockwork(code, o, k.journal).value.next <= c
  {
    var j := k.journal;
    if j != [] {
      var w, e := Walk(code, j[..|j| - 1]), j[|j| - 1];
      assert IsSleep(e) ==> e.payload.t <= c;
    }
  }

  /** Where an attempt at the end of its journal stands, when its primitive is not the end. */
  lemma StandsNeutral(code: Code, k: Kernel)
    requires ErrorNeutral(code) && Faithful(code, k) && k.cursor == |k.journal| && !Ends(code(k.obs))
    ensures k.phase.Call? || k.phase.Calling? ==> Walk(code, k.journal) == Ready(Erase(k.obs))
    ensures k.phase.Fetching? || k.phase.Timing? ==>
              Walk(code, k.journal) ==
                if k.awaitDl.At? then Deadlined(Erase(k.obs), k.awaitDl.t) else Ready(Erase(k.obs))
    ensures k.phase.Call? || k.phase.Calling? || k.phase.Fetching? || k.phase.Timing? ==>
              CallOf(code(k.obs)) == CallOf(code(Erase(k.obs)))
  {
    assert k.journal[..k.cursor] == k.journal;
    NeutralIsBlind(code);
    if k.phase.Call? || k.phase.Calling? {
      RecordedFeasible(code, k.obs, k.journal);
      SameCall(code, k.obs);
      StandsAt(code, k);
    } else if k.phase.Fetching? || k.phase.Timing? {
      AwaitFeasible(code, k.obs, k.journal);
      SameCall(code, k.obs);
      StandsAt(code, k);
    }
  }

  /** What the primitive in progress writes at `c` when it has to compute a deadline. */
  predicate WrittenAt(op: Op, e: Entry, c: Time) {
    match op
    case Sleep(d) => e.payload == Instant(c + d)
    case Await(_, timeout) => timeout > 0 ==> e.payload == Instant(c + timeout)
    case _ => true
  }

  lemma WritesOnTime(code: Code, o: Time, j: seq<Entry>, op: Op, obs: seq<Obs>, e: Entry, c: Time)
    requires Walk(code, j) == Ready(obs) && Program.Advance(code, Ready(obs), e) != Lost
    requires CallOf(op) == CallOf(code(obs)) && WrittenAt(op, e, c)
    requires Clockwork(code, o, j).Some? && Clockwork(code, o, j).value.next <= c
    ensures Clockwork(code, o, j + [e]).Some? && Clockwork(code, o, j + [e]).value.at <= c
  {
    ClockworkSnoc(code, o, j, e);
  }

  lemma CallWrites(code: Code, k: Kernel, a: Answer)
    requires Faithful(code, k) && (k.phase.Call? || k.phase.Calling?) && KStep(code, k, a).phase.Appending?
    ensures k.cursor == |k.journal| && !Ends(code(k.obs))
    ensures KStep(code, k, a).journal == k.journal && KStep(code, k, a).obs == k.obs
    ensures WrittenAt(code(k.obs), KStep(code, k, a).phase.e, a.now)
  {
  }

  lemma CallOnTime(code: Code, o: Time, k: Kernel, a: Answer)
    requires ErrorNeutral(code) && Faithful(code, k) && (k.phase.Call? || k.phase.Calling?)
    requires OnTime(code, o, k, a.now) && Awake(k, a.now)
    ensures OnTime(code, o, KStep(code, k, a), a.now)
  {
    var k' := KStep(code, k, a);
    StepKeepsJournal(code, k, a);
    if k'.phase.Appending? {
      CallWrites(code, k, a);
      StepFaithful(code, k, a);
      StandsWriting(code, k');
      StandsNeutral(code, k);
      NextReached(code, o, k, a.now);
      WritesOnTime(code, o, k.journal, code(k.obs), Erase(k.obs), k'.phase.e, a.now);
    }
  }

  lemma AwaitOnTime(code: Code, o: Time, k: Kernel, a: Answer)
    requires ErrorNeutral(code) && Faithful(code, k) && (k.phase.Fetching? || k.phase.Timing?)
    requires OnTime(code, o, k, a.now) && Awake(k, a.now)
    ensures OnTime(code, o, KStep(code, k, a), a.now)
  {
    var k' := KStep(code, k, a);
    StepKeepsJournal(code, k, a);
    if k'.phase.Appending? {
      StepFaithful(code, k, a);
      StandsWriting(code, k');
      StandsNeutral(code, k);
      NextReached(code, o, k, a.now);
      ClockworkSnoc(code, o, k.journal, k'.phase.e);
    }
  }

  lemma StepOnTime(code: Code, o: Time, k: Kernel, a: Answer)
    requires ErrorNeutral(code) && Faithful(code, k) && OnTime(code, o, k, a.now) && Awake(k, a.now)
    ensures OnTime(code, o, KStep(code, k, a), a.now)
  {
    if k.phase.Call? || k.phase.Calling? {
      CallOnTime(code, o, k, a);
    } else if k.phase.Fetching? || k.phase.Timing? {
      AwaitOnTime(code, o, k, a);
    }
  }

  lemma {:induction false} RunOnTime(code: Code, o: Time, j: seq<Entry>, s: seq<Answer>, lo: Time, hi: Time)
    requires ErrorNeutral(code) && Clocked(s, lo, hi)
    requires Clockwork(code, o, j).Some? && Clockwork(code, o, j).value.at <= lo
    ensures OnTime(code, o, KRun(code, Fresh(j), s), hi) && Awake(KRun(code, Fresh(j), s), hi)
  {
    ClockedReads(s, lo, hi);
    RunAwake(code, j, s, hi);
    if s != [] {
      var s', a := s[..|s| - 1], s[|s| - 1];
      RunOnTime(code, o, j, s', lo, a.now);
      RunFaithful(code, j, s');
      StepOnTime(code, o, KRun(code, Fresh(j), s'), a);
    }
  }

  /** One attempt after the other, under one clock: attempt i between cs[i] and cs[i + 1]. */
  predicate Scheduled(runs: seq<seq<Answer>>, cs: seq<Time>) {
    |cs| == |runs| + 1 && forall i | 0 <= i < |runs| :: Clocked(runs[i], cs[i], cs[i + 1])
  }

  lemma {:induction false} JournalOnTime(code: Code, runs: seq<seq<Answer>>, cs: seq<Time>)
    requires ErrorNeutral(code) && Scheduled(runs, cs)
    ensures Clockwork(code, cs[0], Journal(code, runs)).Some?
    ensures Clockwork(code, cs[0], Journal(code, runs)).value.at <= cs[|runs|]
  {
    if runs != [] {
      var n := |runs| - 1;
      JournalOnTime(code, runs[..n], cs[..n + 1]);
      RunOnTime(code, cs[0], Journal(code, runs[..n]), runs[n], cs[n], cs[n + 1]);
    }
  }

  // ---- the execution that is not interrupted ----

  lemma ClockworkPrefix(code: Code, o: Time, j: seq<Entry>, n: nat)
    requires Clockwork(code, o, j).Some? && n <= |j|
    ensures Clockwork(code, o, j[..n]).Some?
    decreases |j|
  {
    if n < |j| {
      ClockworkPrefix(code, o, j[..|j| - 1], n);
      assert j[..|j| - 1][..n] == j[..n];
    } else {
      assert j[..n] == j;
    }
  }

  /** The times of the entries of one result are those of the script that obtains it. */
  lemma ResultOnTime(
      code: Code, start: Time, op: Op, shown: seq<Obs>, o: Obs, j: seq<Entry>, es: seq<Entry>, all: seq<Entry>)
    requires Walk(code, j) == Ready(shown) && CallOf(op) == CallOf(code(shown)) && Emits(op, o, es)
    requires all == j + es && Clockwork(code, start, j).Some? && Clockwork(code, start, all).Some?
    ensures var h := Clockwork(code, start, j).value.next;
            Punctual(op, es, h) && HadAt(op, o, es, h) == Clockwork(code, start, all).value.next
  {
    if |es| == 0 {
      assert all == j;
    } else if |es| == 1 {
      SingleOnTime(code, start, op, shown, o, j, es, all);
    } else {
      PairOnTime(code, start, op, shown, o, j, es, all);
    }
  }

  lemma SingleOnTime(
      code: Code, start: Time, op: Op, shown: seq<Obs>, o: Obs, j: seq<Entry>, es: seq<Entry>, all: seq<Entry>)
    requires Walk(code, j) == Ready(shown) && CallOf(op) == CallOf(code(shown)) && Emits(op, o, es)
    requires all == j + es && Clockwork(code, start, j).Some? && Clockwork(code, start, all).Some?
    requires |es| == 1
    ensures var h := Clockwork(code, start, j).value.next;
            Punctual(op, es, h) && HadAt(op, o, es, h) == Clockwork(code, start, all).value.next
  {
    assert es == [es[0]];
    ClockworkSnoc(code, start, j, es[0]);
  }

  lemma PairOnTime(
      code: Code, start: Time, op: Op, shown: seq<Obs>, o: Obs, j: seq<Entry>, es: seq<Entry>, all: seq<Entry>)
    requires Walk(code, j) == Ready(shown) && CallOf(op) == CallOf(code(shown)) && Emits(op, o, es)
    requires all == j + es && Clockwork(code, start, j).Some? && Clockwork(code, start, all).Some?
    requires |es| == 2
    ensures var h := Clockwork(code, start, j).value.next;
            Punctual(op, es, h) && HadAt(op, o, es, h) == Clockwork(code, start, all).value.next
  {
    assert all == j + [es[0]] + [es[1]];
    ClockworkSnoc(code, start, j, es[0]);
    WalkSnoc(code, j, es[0]);
    ClockworkSnoc(code, start, j + [es[0]], es[1]);
  }

  /** Attempt.Reenact, on time. */
  lemma {:induction false} ReenactOnTime(w: World, code: Code, start: Time, obs: seq<Obs>, j: seq<Entry>)
    returns (s: seq<Answer>)
    requires ErrorNeutral(code) && Recorded(code, obs, j) && Authored(j)
    requires Clockwork(code, start, j).Some?
    ensures Arrives(code, s, obs) && KRun(code, Fresh([]), s).journal == j
    ensures Clocked(s, start, Clockwork(code, start, j).value.next)
    ensures Backed(w, code, obs) ==> HonestRun(w, code, Fresh([]), s)
    decreases |obs|
  {
    if obs == [] {
      s := [];
    } else {
      var before, o := obs[..|obs| - 1], obs[|obs| - 1];
      assert before + [o] == obs;
      BackedSnoc(w, code, before, o);
      var j', es := LastResult(code, obs, j);
      NeutralIsBlind(code);
      StandsReady(code, Fresh(j'), before, j');
      RecordedFeasible(code, before, j');
      SameCall(code, before);
      ClockworkPrefix(code, start, j, |j'|);
      assert j[..|j'|] == j';
      ResultOnTime(code, start, code(before), Erase(before), o, j', es, j);
      s := ReenactOnTime(w, code, start, before, j');
      s := DriveOn(w, code, s, o, es, start, Clockwork(code, start, j').value.next);
    }
  }

  lemma {:induction false} ClockedLater(s: seq<Answer>, lo: Time, hi: Time, hi': Time)
    requires Clocked(s, lo, hi) && hi <= hi'
    ensures Clocked(s, lo, hi')
  {
  }

  /**
   * Crash-replay equivalence, on time: if a run's attempts were made under one clock, the journal and the
   * output of its success are those of one execution that starts when the first attempt did, is neither
   * interrupted nor suspended under a clock that never goes back, is done no later than the last attempt, and
   * takes its answers from the attempts' world.
   */
  lemma OneTimelyExecution(
      w: World, code: Code, runs: seq<seq<Answer>>, cs: seq<Time>, script: seq<Answer>, end: Time, cancelled: bool)
    requires ErrorNeutral(code) && HonestRuns(w, code, runs)
    requires Scheduled(runs, cs) && Clocked(script, cs[|runs|], end)
    requires var k := KRun(code, Fresh(Journal(code, runs)), script);
             && HonestRun(w, code, Fresh(Journal(code, runs)), script)
             && k.phase.Ended? && Judge(k, cancelled).Succeed?
    ensures var k := KRun(code, Fresh(Journal(code, runs)), script);
            exists u, obs :: Clocked(u, cs[0], end) && Erase(obs) == Erase(k.obs) &&
              Genuinely(w, code, u, obs, k.journal, Judge(k, cancelled).out)
  {
    var j := Journal(code, runs);
    var k := KRun(code, Fresh(j), script);
    DriftGuardSound(code, j, script, cancelled);
    JournalAuthored(code, runs);
    AttemptAuthored(code, j, script);
    JournalOnTime(code, runs, cs);
    JournalVouched(w, code, runs);
    RunOnTime(code, cs[0], j, script, cs[|runs|], end);
    RunSincere(w, code, j, script);
    RunFaithful(code, j, script);
    var u, obs := SuccessOnTime(w, code, cs[0], k, end, cancelled);
  }

  lemma SuccessOnTime(w: World, code: Code, start: Time, k: Kernel, end: Time, cancelled: bool)
    returns (u: seq<Answer>, obs: seq<Obs>)
    requires ErrorNeutral(code) && Faithful(code, k) && Sincere(w, code, k) && Authored(k.journal)
    requires OnTime(code, start, k, end) && Awake(k, end)
    requires k.phase.Ended? && Judge(k, cancelled).Succeed? && Trace(code, k.obs, k.journal, Judge(k, cancelled).out)
    ensures Clocked(u, start, end) && Erase(obs) == Erase(k.obs)
    ensures Genuinely(w, code, u, obs, k.journal, Judge(k, cancelled).out)
  {
    NextReached(code, start, k, end);
    obs := WhoReturned(w, code, k, Judge(k, cancelled).out);
    u := TraceOnTime(w, code, start, obs, k.journal, Judge(k, cancelled).out, end);
  }

  /** Done by then: the journal admits it. */
  predicate DoneBy(code: Code, start: Time, j: seq<Entry>, end: Time) {
    && Clockwork(code, start, j).Some?
    && Clockwork(code, start, j).value.at <= end && Clockwork(code, start, j).value.next <= end
  }

  /** A complete trace is left by one execution under a clock that does not go back. */
  lemma TraceOnTime(w: World, code: Code, start: Time, obs: seq<Obs>, j: seq<Entry>, out: Payload, end: Time)
    returns (u: seq<Answer>)
    requires ErrorNeutral(code) && Trace(code, obs, j, out) && Authored(j) && DoneBy(code, start, j, end)
    requires Backed(w, code, obs) && Offered(w, code, obs, out)
    ensures Clocked(u, start, end) && Genuinely(w, code, u, obs, j, out)
  {
    var body := if code(obs).Done? then j else j[..|j| - 1];
    BodyOnTime(code, start, obs, j, out, end);
    var s := ReenactOnTime(w, code, start, obs, body);
    ClockedLater(s, start, Clockwork(code, start, body).value.next, end);
    u := Conclude(w, code, s, obs, j, out, end);
  }

  lemma BodyOnTime(code: Code, start: Time, obs: seq<Obs>, j: seq<Entry>, out: Payload, end: Time)
    requires ErrorNeutral(code) && Trace(code, obs, j, out) && DoneBy(code, start, j, end)
    ensures var body := if code(obs).Done? then j else j[..|j| - 1];
            Clockwork(code, start, body).Some? && Clockwork(code, start, body).value.next <= end
  {
    if code(obs).Return? {
      var body := j[..|j| - 1];
      NeutralIsBlind(code);
      RecordedFeasible(code, obs, body);
      SameCall(code, obs);
      StandsReady(code, Fresh(body), obs, body);
    }
  }
}
