/** The deadlines an attempt hands to the scheduler, and why timers cannot run a workflow in circles. */
module Progress {
  import opened Model
  import opened Program
  import opened Kernel
  import opened Replay
  import opened Exactness
  import opened Attempt
  import opened Independence

  predicate ReadsFrom(s: seq<Answer>, c: Time) {
    forall a | a in s :: c <= a.now
  }

  predicate ReadsUpTo(s: seq<Answer>, c: Time) {
    forall a | a in s :: a.now <= c
  }

  /**
   * The deadline handed over belongs to the primitive that has just suspended: it is the entry right behind
   * the cursor, or none for an Await without timeout; it is never one left over from an earlier primitive.
   */
  lemma DeadlineIsOfTheSuspendedPrimitive(code: Code, j: seq<Entry>, s: seq<Answer>)
    requires Parked(KRun(code, Fresh(j), s))
    ensures var k := KRun(code, Fresh(j), s);
            match code(k.obs)
            case Sleep(_) =>
              && 0 < k.cursor <= |k.journal| && k.journal[k.cursor - 1].kind == KindSleep
              && k.journal[k.cursor - 1].payload.Instant? && WakeAt(k) == At(k.journal[k.cursor - 1].payload.t)
            case Await(_, timeout) =>
              && k.cursor == |k.journal|
              && if timeout > 0 then
                   && 0 < k.cursor && k.journal[k.cursor - 1].kind == KindAwaitDeadline
                   && k.journal[k.cursor - 1].payload.Instant? && WakeAt(k) == At(k.journal[k.cursor - 1].payload.t)
                 else WakeAt(k) == NoDeadline
            case _ => false
  {
    RunFaithful(code, j, s);
  }

  /** The step that suspends an attempt has read the clock and found the deadline ahead. */
  lemma SuspendsBefore(code: Code, k: Kernel, a: Answer)
    requires Faithful(code, k) && !k.phase.Ended? && Parked(KStep(code, k, a))
    ensures WakeAt(KStep(code, k, a)).At? ==> a.now < WakeAt(KStep(code, k, a)).t
  {
    OnlyThenParks(code, k, a);
  }

  lemma OnlyThenParks(code: Code, k: Kernel, a: Answer)
    requires !k.phase.Ended? && Parked(KStep(code, k, a))
    ensures k.phase.Napping? || k.phase.Timing?
  {
  }

  lemma {:induction false} ClockedReads(s: seq<Answer>, lo: Time, hi: Time)
    requires Clocked(s, lo, hi)
    ensures lo <= hi && ReadsUpTo(s, hi)
  {
    if s != [] {
      ClockedReads(s[..|s| - 1], lo, s[|s| - 1].now);
      assert forall a | a in s :: a in s[..|s| - 1] || a == s[|s| - 1];
    }
  }

  /** The script is the whole attempt and no more: its last answer is what ended it. */
  predicate StopsThere(code: Code, j: seq<Entry>, s: seq<Answer>) {
    s != [] && !KRun(code, Fresh(j), s[..|s| - 1]).phase.Ended? && KRun(code, Fresh(j), s).phase.Ended?
  }

  /** And under a clock that does not go back it lies ahead of every reading that the attempt has made. */
  lemma DeadlineIsAhead(code: Code, j: seq<Entry>, s: seq<Answer>, lo: Time, hi: Time)
    requires StopsThere(code, j, s) && Clocked(s, lo, hi)
    requires Parked(KRun(code, Fresh(j), s)) && WakeAt(KRun(code, Fresh(j), s)).At?
    ensures forall a | a in s :: a.now < WakeAt(KRun(code, Fresh(j), s)).t
  {
    var s', a := s[..|s| - 1], s[|s| - 1];
    RunFaithful(code, j, s');
    SuspendsBefore(code, KRun(code, Fresh(j), s'), a);
    ClockedReads(s', lo, a.now);
    assert forall b | b in s :: b in s' || b == a;
  }

  /** Whatever the clock did, it lies ahead of at least one reading: of every lower bound of them. */
  lemma {:induction false} DeadlineIsAheadOfTheStart(code: Code, j: seq<Entry>, s: seq<Answer>, c: Time)
    requires Parked(KRun(code, Fresh(j), s)) && ReadsFrom(s, c) && WakeAt(KRun(code, Fresh(j), s)).At?
    ensures c < WakeAt(KRun(code, Fresh(j), s)).t
  {
    var s', a := s[..|s| - 1], s[|s| - 1];
    var k := KRun(code, Fresh(j), s');
    assert a in s;
    if Parked(k) {
      assert ReadsFrom(s', c) by {
        forall b | b in s' ensures c <= b.now {
          assert b in s;
        }
      }
      DeadlineIsAheadOfTheStart(code, j, s', c);
    } else {
      RunFaithful(code, j, s');
    }
  }

  /** Sleep entries that an attempt has slept through have deadlines that one of its readings had reached. */
  predicate Awake(k: Kernel, c: Time) {
    var n := if k.phase.Napping? || k.phase == Ended(Sleeping) then k.cursor - 1 else k.cursor;
    forall i | 0 <= i < n && i < |k.journal| :: IsSleep(k.journal[i]) ==> k.journal[i].payload.t <= c
  }

  predicate IsSleep(e: Entry) {
    e.kind == KindSleep && e.payload.Instant?
  }

  lemma StepAwake(code: Code, k: Kernel, a: Answer, c: Time)
    requires Faithful(code, k) && Awake(k, c) && a.now <= c
    ensures Awake(KStep(code, k, a), c)
  {
    match k.phase
    case Call => CallAwake(code, k, a, c);
    case Appending(e) =>
      if a.stored {
        var k' := Committed(k, e);
        assert forall i | 0 <= i < |k.journal| :: k'.journal[i] == k.journal[i];
      }
    case _ =>
  }

  lemma CallAwake(code: Code, k: Kernel, a: Answer, c: Time)
    requires Faithful(code, k) && Awake(k, c) && k.phase.Call?
    ensures Awake(CallStep(code, k, a), c)
  {
    var k' := CallStep(code, k, a);
    assert k'.journal == k.journal;
    assert k'.cursor == k.cursor || k'.phase.Napping? || !IsSleep(k.journal[k.cursor]);
  }

  lemma {:induction false} RunAwake(code: Code, j: seq<Entry>, s: seq<Answer>, c: Time)
    requires ReadsUpTo(s, c)
    ensures Awake(KRun(code, Fresh(j), s), c)
  {
    if s != [] {
      var s', a := s[..|s| - 1], s[|s| - 1];
      assert a in s;
      assert ReadsUpTo(s', c) by {
        forall b | b in s' ensures b.now <= c {
          assert b in s;
        }
      }
      RunAwake(code, j, s', c);
      RunFaithful(code, j, s');
      StepAwake(code, KRun(code, Fresh(j), s'), a, c);
    }
  }

  /** A history fixes how many entries it takes. */
  lemma {:induction false} SameLength(code: Code, obs: seq<Obs>, j: seq<Entry>, j': seq<Entry>)
    requires Recorded(code, obs, j) && Recorded(code, obs, j')
    ensures |j| == |j'|
    decreases |obs|
  {
    if obs != [] {
      var before, o := obs[..|obs| - 1], obs[|obs| - 1];
      if o.Erred? {
        SameLength(code, before, j, j');
      } else if (o.Got? || o.TimedOut?) && code(before).timeout > 0 {
        SameLength(code, before, j[..|j| - 1][..|j| - 2], j'[..|j'| - 1][..|j'| - 2]);
      } else {
        SameLength(code, before, j[..|j| - 1], j'[..|j'| - 1]);
      }
    }
  }

  /** Where the first attempt was suspended, read off its journal. */
  lemma ParkedAt(code: Code, k: Kernel)
    requires Faithful(code, k) && Parked(k) && (ErrorBlind(code) || !HasErr(k.obs))
    ensures k.phase.o.Sleeping? ==>
            Walk(code, k.journal[..k.cursor]) == Ready(Erase(k.obs) + [Slept]) && code(Erase(k.obs)).Sleep?
    ensures k.phase.o.Suspended? && k.awaitDl.At? ==>
              k.cursor == |k.journal| && Walk(code, k.journal) == Deadlined(Erase(k.obs), k.awaitDl.t)
                && code(Erase(k.obs)).Await?
  {
    if k.phase.o.Sleeping? {
      HasErrSnoc(k.obs, Slept);
      EraseSnoc(k.obs, Slept);
      var all := k.obs + [Slept];
      assert all[..|all| - 1] == k.obs;
      StandsReady(code, k, all, k.journal[..k.cursor]);
      RecordedFeasible(code, all, k.journal[..k.cursor]);
      FeasiblePrefix(code, all, |k.obs|);
      BlindAtHolds(code, k.obs);
      SameShape(code(k.obs), code(Erase(k.obs)));
    } else {
      assert k.journal[..k.cursor] == k.journal;
      StandsInAwait(code, k);
      AwaitFeasible(code, k.obs, k.journal);
      BlindAtHolds(code, k.obs);
      SameShape(code(k.obs), code(Erase(k.obs)));
    }
  }

  lemma {:induction false} EraseLonger(obs: seq<Obs>, n: nat)
    requires n <= |obs|
    ensures |Erase(obs[..n])| <= |Erase(obs)|
  {
    if n < |obs| {
      assert obs[..|obs| - 1][..n] == obs[..n];
      EraseLonger(obs[..|obs| - 1], n);
    } else {
      assert obs[..n] == obs;
    }
  }

  /** Getting past a recorded or suspended primitive counts, whatever errors were seen on the way. */
  lemma PastCounts(code: Code, e: seq<Obs>, obs: seq<Obs>)
    requires Feasible(code, obs) && e < obs && !HasErr(e) && !code(e).Exec?
    ensures |e| < |Erase(obs)|
  {
    var n := |e|;
    assert obs[..n] == e;
    assert Answers(code(obs[..n]), obs[n]);
    assert obs[..n + 1] == e + [obs[n]];
    EraseSnoc(e, obs[n]);
    EraseClean(e);
    EraseLonger(obs, n + 1);
  }

  lemma ParkedFeasible(code: Code, k: Kernel)
    requires Faithful(code, k) && Parked(k)
    ensures Feasible(code, k.obs)
  {
    if k.phase.o.Sleeping? {
      var all := k.obs + [Slept];
      RecordedFeasible(code, all, k.journal[..k.cursor]);
      FeasiblePrefix(code, all, |k.obs|);
      assert all[..|k.obs|] == k.obs;
    } else {
      AwaitFeasible(code, k.obs, k.journal[..k.cursor]);
    }
  }

  /**
   * A later attempt that is suspended again, with all its readings at or past the deadline of the earlier one
   * and past that one's own readings, has moved past the primitive that suspended the earlier one.
   */
  lemma {:induction false} TimerProgress(code: Code, j: seq<Entry>, s: seq<Answer>, t: seq<Answer>, c: Time)
    requires var k := KRun(code, Fresh(j), s);
             && Parked(k) && WakeAt(k).At? && ReadsUpTo(s, c) && (ErrorBlind(code) || !HasErr(k.obs))
             && ReadsFrom(t, c) && ReadsFrom(t, WakeAt(k).t) && Parked(KRun(code, Fresh(k.journal), t))
    ensures var k := KRun(code, Fresh(j), s);
            && Erase(k.obs) < KRun(code, Fresh(k.journal), t).obs
            && |Erase(k.obs)| < |Erase(KRun(code, Fresh(k.journal), t).obs)|
  {
    var k := KRun(code, Fresh(j), s);
    var k' := KRun(code, Fresh(k.journal), t);
    RunFaithful(code, j, s);
    RunFaithful(code, k.journal, t);
    RunAwake(code, j, s, c);
    RunObeys(code, k.journal, t);
    ParkedAt(code, k);
    EraseHasNoErr(k.obs);
    if k.phase.o.Sleeping? {
      PastSleep(code, k, k', t, c);
    } else {
      PastAwait(code, k, k', t, c);
    }
    ParkedFeasible(code, k');
    PastCounts(code, Erase(k.obs), k'.obs);
  }

  /** What is known of a second attempt when it is suspended. */
  ghost predicate Second(code: Code, k: Kernel, k': Kernel, t: seq<Answer>, c: Time) {
    && Faithful(code, k) && Parked(k) && WakeAt(k).At? && Awake(k, c)
    && Faithful(code, k') && Parked(k') && Obeys(code, k.journal, k')
    && k' == KRun(code, Fresh(k.journal), t)
    && ReadsFrom(t, c) && ReadsFrom(t, WakeAt(k).t)
  }

  /** A Sleep that suspends the second attempt was not consumed by the first. */
  lemma SleepsLater(code: Code, k: Kernel, k': Kernel, t: seq<Answer>, c: Time)
    requires Second(code, k, k', t, c) && k'.phase.o.Sleeping?
    ensures k'.cursor > k.cursor
  {
    DeadlineIsAheadOfTheStart(code, k.journal, t, c);
    DeadlineIsAheadOfTheStart(code, k.journal, t, WakeAt(k).t);
    NotSlept(code, k, k', c);
  }

  lemma NotSlept(code: Code, k: Kernel, k': Kernel, c: Time)
    requires Faithful(code, k) && Parked(k) && WakeAt(k).At? && Awake(k, c) && k.journal <= k'.journal
    requires k'.sleepDl.At? && NapOpen(code, k', k'.sleepDl.t) && c < k'.sleepDl.t && WakeAt(k).t < k'.sleepDl.t
    ensures k'.cursor > k.cursor
  {
    assert k.journal == k'.journal[..|k.journal|];
    assert IsSleep(k'.journal[k'.cursor - 1]);
  }

  lemma SuspendedTold(code: Code, j: seq<Entry>, k': Kernel)
    requires Faithful(code, k') && Obeys(code, j, k') && Parked(k') && k'.phase.o.Suspended?
    ensures Told(code, j) <= k'.obs
  {
    if k'.cursor == |j| && !HasErr(k'.obs) {
      assert k'.journal[..k'.cursor] == j;
      StandsInAwait(code, k');
      EraseClean(k'.obs);
    }
  }

  lemma PastSleep(code: Code, k: Kernel, k': Kernel, t: seq<Answer>, c: Time)
    requires Second(code, k, k', t, c) && k.phase.o.Sleeping?
    requires Walk(code, k.journal[..k.cursor]) == Ready(Erase(k.obs) + [Slept])
    ensures Erase(k.obs) < k'.obs
  {
    ToldGrows(code, k.journal, k.cursor);
    assert Erase(k.obs) < Told(code, k.journal);
    if k'.phase.o.Suspended? {
      SuspendedTold(code, k.journal, k');
    } else {
      SleepsLater(code, k, k', t, c);
      if k'.cursor <= |k.journal| && !HasErr(k'.obs) {
        NapWithin(code, k.journal, k', k.cursor);
      }
    }
  }

  /** A recorded Sleep that suspends an attempt comes after all that the entries before it tell. */
  lemma NapWithin(code: Code, j: seq<Entry>, k: Kernel, n: nat)
    requires k.sleepDl.At? && NapOpen(code, k, k.sleepDl.t) && j <= k.journal && n < k.cursor <= |j| && !HasErr(k.obs)
    ensures Told(code, j[..n]) <= k.obs
  {
    var before := j[..k.cursor - 1];
    var all := k.obs + [Slept];
    var upTo := k.journal[..k.cursor];
    assert all[..|all| - 1] == k.obs && all[|all| - 1] == Slept;
    assert upTo[..|upTo| - 1] == before;
    RecordedIffWalk(code, k.obs, before);
    assert before[..n] == j[..n];
    ToldGrows(code, before, n);
  }

  lemma ProperPrefix(a: seq<Obs>, b: seq<Obs>)
    requires a <= b && a != b
    ensures a < b
  {
    assert b[..|a|] == a;
    assert b[..|b|] == b;
  }

  lemma PastAwait(code: Code, k: Kernel, k': Kernel, t: seq<Answer>, c: Time)
    requires Second(code, k, k', t, c) && k.phase.o.Suspended?
    requires k.cursor == |k.journal| && Walk(code, k.journal) == Deadlined(Erase(k.obs), k.awaitDl.t)
    requires code(Erase(k.obs)).Await? && !HasErr(Erase(k.obs))
    ensures Erase(k.obs) < k'.obs
  {
    assert Told(code, k.journal) == Erase(k.obs);
    if k'.phase.o.Sleeping? {
      SleepsLater(code, k, k', t, c);
      assert k'.obs != Erase(k.obs);
      ProperPrefix(Erase(k.obs), k'.obs);
    } else {
      SuspendedTold(code, k.journal, k');
      if k'.obs == Erase(k.obs) {
        WalkRecorded(code, k.journal);
        SameAwait(code, k, k');
        DeadlineIsAheadOfTheStart(code, k.journal, t, WakeAt(k).t);
      }
    }
  }

  /** Suspended at the same Await over the same journal means suspended with the same deadline. */
  lemma SameAwait(code: Code, k: Kernel, k': Kernel)
    requires AwaitOpen(code, k') && k'.cursor == |k'.journal| && k.journal <= k'.journal && k.awaitDl.At?
    requires Walk(code, k.journal) == Deadlined(k'.obs, k.awaitDl.t)
    requires RecordedDeadline(code, k'.obs, k.journal) && code(k'.obs).timeout > 0 && k.journal != []
    requires DecodeTime(k.journal[|k.journal| - 1].payload) == Some(k.awaitDl.t)
    ensures k'.awaitDl == k.awaitDl
  {
    assert k'.journal[..k'.cursor] == k'.journal;
    SameLength(code, k'.obs, k'.journal[..|k'.journal| - 1], k.journal[..|k.journal| - 1]);
    assert k'.journal == k.journal;
  }

  // ---- bounded re-runs ----

  /** No history of the code is longer than `depth` before it ends. */
  ghost predicate Bounded(code: Code, depth: nat) {
    forall obs :: Feasible(code, obs) && |Erase(obs)| >= depth ==> Ends(code(obs)) || code(obs).Return?
  }

  /** Attempts that follow one another: each starts from the journal of the one before. */
  function After(code: Code, j: seq<Entry>, ss: seq<seq<Answer>>): Kernel
    requires ss != []
  {
    var start := if |ss| == 1 then j else After(code, j, ss[..|ss| - 1]).journal;
    KRun(code, Fresh(start), ss[|ss| - 1])
  }

  /** Each attempt is suspended, and each but the first runs after the deadline and the readings of the one before. */
  predicate TimerDriven(code: Code, j: seq<Entry>, ss: seq<seq<Answer>>, cs: seq<Time>)
    requires ss != [] && |cs| == |ss|
  {
    var last := |ss| - 1;
    && Parked(After(code, j, ss)) && ReadsUpTo(ss[last], cs[last])
    && (last > 0 ==>
          && TimerDriven(code, j, ss[..last], cs[..last])
          && WakeAt(After(code, j, ss[..last])).At?
          && ReadsFrom(ss[last], cs[last - 1]) && ReadsFrom(ss[last], WakeAt(After(code, j, ss[..last])).t))
  }

  lemma {:induction false} TimerRunsCount(code: Code, j: seq<Entry>, ss: seq<seq<Answer>>, cs: seq<Time>)
    requires ss != [] && |cs| == |ss| && ErrorBlind(code) && TimerDriven(code, j, ss, cs)
    ensures |Erase(After(code, j, ss).obs)| >= |ss| - 1
  {
    var last := |ss| - 1;
    if last > 0 {
      TimerRunsCount(code, j, ss[..last], cs[..last]);
      var start := if last == 1 then j else After(code, j, ss[..last][..last - 1]).journal;
      TimerProgress(code, start, ss[last - 1], ss[last], cs[last - 1]);
    }
  }

  /** Timers do not drive a workflow in circles: the suspended attempts are no more than the depth of the code. */
  lemma {:induction false} TimerRunsBounded(code: Code, depth: nat, j: seq<Entry>, ss: seq<seq<Answer>>, cs: seq<Time>)
    requires ss != [] && |cs| == |ss| && ErrorBlind(code) && TimerDriven(code, j, ss, cs) && Bounded(code, depth)
    ensures |ss| <= depth
  {
    TimerRunsCount(code, j, ss, cs);
    var k := After(code, j, ss);
    var start := if |ss| == 1 then j else After(code, j, ss[..|ss| - 1]).journal;
    RunFaithful(code, start, ss[|ss| - 1]);
    ParkedFeasible(code, k);
  }
}
