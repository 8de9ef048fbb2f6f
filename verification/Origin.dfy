/**
 * Crash-replay equivalence with the origin of every result accounted for: what replay hands to a call is what
 * an attempt of that very call produced.
 */
module Origin {
  import opened Model
  import opened Program
  import opened Kernel
  import opened Worlds
  import opened Replay
  import opened Exactness
  import opened Attempt

  /** Some attempt with the history `rec` called Return with this output, right behind the entries `body`. */
  predicate Called(w: World, code: Code, rec: seq<Obs>, body: seq<Entry>, out: Payload) {
    && code(rec).Return? && Recorded(code, rec, body) && Backed(w, code, rec)
    && out.Data? && w.offers(rec, out.v)
  }

  /** What the journal tells its code comes from this world, each result from the call that is told it. */
  ghost predicate Vouched(w: World, code: Code, j: seq<Entry>) {
    match Walk(code, j)
    case Ready(obs) => Backed(w, code, obs)
    case Deadlined(obs, _) => Backed(w, code, obs)
    case Closed(obs, out) =>
      && j != [] && Backed(w, code, obs)
      && exists rec :: Erase(rec) == obs && Called(w, code, rec, j[..|j| - 1], out)
    case Lost => false
  }

  lemma {:induction false} VouchedPrefix(w: World, code: Code, j: seq<Entry>, n: nat)
    requires Vouched(w, code, j) && n <= |j|
    ensures Vouched(w, code, j[..n])
    decreases |j|
  {
    if n == |j| {
      assert j[..n] == j;
    } else {
      VouchedBefore(w, code, j);
      VouchedPrefix(w, code, j[..|j| - 1], n);
      assert j[..|j| - 1][..n] == j[..n];
    }
  }

  lemma VouchedBefore(w: World, code: Code, j: seq<Entry>)
    requires Vouched(w, code, j) && j != []
    ensures Vouched(w, code, j[..|j| - 1])
  {
    var v, v' := Walk(code, j[..|j| - 1]), Walk(code, j);
    if v'.Ready? && v'.obs != v.obs {
      BackedSnoc(w, code, v.obs, v'.obs[|v'.obs| - 1]);
    }
  }

  /** The attempt has only seen and only recorded what its world can produce. */
  ghost predicate Sincere(w: World, code: Code, k: Kernel) {
    && Vouched(w, code, k.journal) && Backed(w, code, k.obs)
    && (k.phase.Appending? ==> Vouched(w, code, k.journal + [k.phase.e]))
  }

  lemma SameCall(code: Code, obs: seq<Obs>)
    requires ErrorNeutral(code) && Feasible(code, obs) && !Ends(code(obs))
    ensures CallOf(code(obs)) == CallOf(code(Erase(obs)))
  {
  }

  /** One more result, taken from the journal or just recorded. */
  lemma ToldSincerely(w: World, code: Code, k: Kernel, before: seq<Obs>, o: Obs)
    requires ErrorNeutral(code) && Faithful(code, k) && k.phase.Call? && k.obs == before + [o] && !o.Erred?
    requires Vouched(w, code, k.journal) && Backed(w, code, before)
    ensures Backed(w, code, k.obs)
  {
    NeutralIsBlind(code);
    StandsAt(code, k);
    EraseSnoc(before, o);
    VouchedPrefix(w, code, k.journal, k.cursor);
    BackedSnoc(w, code, Erase(before), o);
    RecordedFeasible(code, k.obs, k.journal[..k.cursor]);
    assert k.obs[..|before|] == before && k.obs[|before|] == o;
    FeasiblePrefix(code, k.obs, |before|);
    SameCall(code, before);
    BackedSnoc(w, code, before, o);
  }

  /** The entry about to be written holds what this world gave the primitive in progress. */
  predicate Genuine(w: World, code: Code, k: Kernel, e: Entry) {
    match code(k.obs)
    case Exec(step, _) => e.payload.Data? && w.gives(step, e.payload.v)
    case Await(sig, _) => e.kind == KindAwait ==> w.sends(sig, e.payload)
    case Return => e.payload.Data? && w.offers(k.obs, e.payload.v)
    case _ => true
  }

  lemma StandsWriting(code: Code, k: Kernel)
    requires ErrorNeutral(code) && Faithful(code, k) && k.phase.Appending?
    ensures Walk(code, k.journal + [k.phase.e]) == Program.Advance(code, Walk(code, k.journal), k.phase.e) != Lost
    ensures CallOf(code(k.obs)) == CallOf(code(Erase(k.obs)))
    ensures Walk(code, k.journal) == Ready(Erase(k.obs)) ||
            (code(k.obs).Await? && Walk(code, k.journal).Deadlined? && Walk(code, k.journal).obs == Erase(k.obs))
  {
    NeutralIsBlind(code);
    StandsAppending(code, k);
    WalkSnoc(code, k.journal, k.phase.e);
    if k.phase.e.kind == KindAwait || k.phase.e.kind == KindAwaitTimeout {
      StandsInAwait(code, k);
      AwaitFeasible(code, k.obs, k.journal);
    } else {
      StandsReady(code, k, k.obs, k.journal);
      RecordedFeasible(code, k.obs, k.journal);
    }
    SameCall(code, k.obs);
  }

  lemma WritesSincerely(w: World, code: Code, k: Kernel)
    requires ErrorNeutral(code) && Faithful(code, k) && k.phase.Appending?
    requires Vouched(w, code, k.journal) && Backed(w, code, k.obs) && Genuine(w, code, k, k.phase.e)
    ensures Vouched(w, code, k.journal + [k.phase.e])
  {
    StandsWriting(code, k);
    if code(k.obs).Return? {
      var j := k.journal + [k.phase.e];
      assert j[..|j| - 1] == k.journal;
      assert Called(w, code, k.obs, j[..|j| - 1], k.phase.e.payload);
    } else {
      VouchedAdd(w, code, k.journal, k.phase.e, k.(obs := Erase(k.obs)));
    }
  }

  lemma VouchedAdd(w: World, code: Code, j: seq<Entry>, e: Entry, k: Kernel)
    requires Vouched(w, code, j) && Walk(code, j + [e]) == Program.Advance(code, Walk(code, j), e) != Lost
    requires Walk(code, j) == Ready(k.obs) ||
             (code(k.obs).Await? && Walk(code, j).Deadlined? && Walk(code, j).obs == k.obs)
    requires Genuine(w, code, k, e) && !code(k.obs).Return?
    ensures Vouched(w, code, j + [e])
  {
    var v' := Walk(code, j + [e]);
    if v'.Ready? && v'.obs != k.obs {
      BackedSnoc(w, code, k.obs, v'.obs[|k.obs|]);
      assert v'.obs == k.obs + [v'.obs[|k.obs|]];
    }
  }

  lemma HonestIsGenuine(w: World, code: Code, k: Kernel, a: Answer)
    requires Faithful(code, k) && !k.phase.Appending? && KStep(code, k, a).phase.Appending? && Honest(w, code, k, a)
    ensures KStep(code, k, a).obs == k.obs && KStep(code, k, a).journal == k.journal
    ensures Genuine(w, code, KStep(code, k, a), KStep(code, k, a).phase.e)
  {
  }

  /** What a step adds to the history: nothing, or one result. */
  lemma StepTells(code: Code, k: Kernel, a: Answer)
    requires Faithful(code, k) && KStep(code, k, a).obs != k.obs
    ensures var k' := KStep(code, k, a);
            k'.phase.Call? && |k'.obs| == |k.obs| + 1 && k'.obs[..|k.obs|] == k.obs
    ensures KStep(code, k, a).obs[|k.obs|].Erred? ==> k.phase.Calling?
  {
  }

  lemma StepKeepsJournal(code: Code, k: Kernel, a: Answer)
    ensures KStep(code, k, a).journal == if k.phase.Appending? && a.stored then k.journal + [k.phase.e] else k.journal
    ensures k.phase.Appending? ==> !KStep(code, k, a).phase.Appending? || k.phase.e.kind == KindCancel
  {
  }

  /** An Execute that gives up reports an error of its own. */
  lemma GivesUpSincerely(w: World, code: Code, k: Kernel, a: Answer)
    requires Faithful(code, k) && k.phase.Calling? && KStep(code, k, a).obs != k.obs
    requires Honest(w, code, k, a) && Backed(w, code, k.obs)
    ensures Backed(w, code, KStep(code, k, a).obs)
  {
    var o := KStep(code, k, a).obs[|k.obs|];
    assert KStep(code, k, a).obs == k.obs + [o];
    BackedSnoc(w, code, k.obs, o);
  }

  lemma StepSincere(w: World, code: Code, k: Kernel, a: Answer)
    requires ErrorNeutral(code) && Faithful(code, k) && Sincere(w, code, k) && Honest(w, code, k, a)
    ensures Sincere(w, code, KStep(code, k, a))
  {
    var k' := KStep(code, k, a);
    StepFaithful(code, k, a);
    StepKeepsJournal(code, k, a);
    if k'.obs != k.obs {
      StepTells(code, k, a);
      if k'.obs[|k.obs|].Erred? {
        GivesUpSincerely(w, code, k, a);
      } else {
        ToldSincerely(w, code, k', k.obs, k'.obs[|k.obs|]);
      }
    }
    if k'.phase.Appending? {
      HonestIsGenuine(w, code, k, a);
      WritesSincerely(w, code, k');
    }
  }

  lemma {:induction false} RunSincere(w: World, code: Code, j: seq<Entry>, s: seq<Answer>)
    requires ErrorNeutral(code) && Vouched(w, code, j) && HonestRun(w, code, Fresh(j), s)
    ensures Sincere(w, code, KRun(code, Fresh(j), s))
  {
    if s != [] {
      var s', a := s[..|s| - 1], s[|s| - 1];
      assert s' + [a] == s;
      HonestSnoc(w, code, Fresh(j), s', a);
      RunSincere(w, code, j, s');
      RunFaithful(code, j, s');
      StepSincere(w, code, KRun(code, Fresh(j), s'), a);
    }
  }

  // ---- over all the attempts of a run ----

  /** Every attempt takes its answers from the same world. */
  predicate HonestRuns(w: World, code: Code, runs: seq<seq<Answer>>) {
    forall i | 0 <= i < |runs| :: HonestRun(w, code, Fresh(Journal(code, runs[..i])), runs[i])
  }

  lemma {:induction false} JournalVouched(w: World, code: Code, runs: seq<seq<Answer>>)
    requires ErrorNeutral(code) && HonestRuns(w, code, runs)
    ensures Vouched(w, code, Journal(code, runs))
  {
    if runs != [] {
      var n := |runs| - 1;
      forall i | 0 <= i < n ensures runs[..n][..i] == runs[..i] {
      }
      JournalVouched(w, code, runs[..n]);
      RunSincere(w, code, Journal(code, runs[..n]), runs[n]);
    }
  }

  /** The history with which the output was recorded. */
  lemma WhoReturned(w: World, code: Code, k: Kernel, out: Payload) returns (rec: seq<Obs>)
    requires ErrorNeutral(code) && Faithful(code, k) && Sincere(w, code, k) && Trace(code, k.obs, k.journal, out)
    ensures Erase(rec) == Erase(k.obs) && Trace(code, rec, k.journal, out)
    ensures Backed(w, code, rec) && Offered(w, code, rec, out)
  {
    rec := k.obs;
    if code(k.obs).Return? {
      var body, last := k.journal[..|k.journal| - 1], k.journal[|k.journal| - 1];
      NeutralIsBlind(code);
      StandsReady(code, k, k.obs, body);
      RecordedFeasible(code, k.obs, body);
      SameCall(code, k.obs);
      assert Walk(code, k.journal) == Closed(Erase(k.obs), last.payload);
      rec :| Erase(rec) == Erase(k.obs) && Called(w, code, rec, body, out);
    }
  }

  /** One execution from nothing, neither interrupted nor suspended, with results of the same world. */
  predicate Genuinely(w: World, code: Code, u: seq<Answer>, obs: seq<Obs>, j: seq<Entry>, out: Payload) {
    Uninterrupted(code, u, obs, j, out) && HonestRun(w, code, Fresh([]), u)
  }

  /**
   * Crash-replay equivalence. After any number of attempts cut off anywhere, an attempt of error-neutral code
   * extends the journal, never fails for a mismatch, and when it succeeds, its journal and output are those of
   * one uninterrupted execution in which every Execute returns what that Execute returned in some attempt and
   * every Await is told what was sent for its signal, and Return is called with what it was called with after
   * that very history: whatever world the attempts took their answers from, the execution takes its own from
   * there. It sees the recorded results that the attempt saw.
   */
  lemma CrashReplayEquivalence(w: World, code: Code, runs: seq<seq<Answer>>, script: seq<Answer>, cancelled: bool)
    requires ErrorNeutral(code) && HonestRuns(w, code, runs)
    requires HonestRun(w, code, Fresh(Journal(code, runs)), script)
    requires KRun(code, Fresh(Journal(code, runs)), script).phase.Ended?
    ensures var k := KRun(code, Fresh(Journal(code, runs)), script);
            && Journal(code, runs) <= k.journal && Backed(w, code, k.obs)
            && !k.phase.o.Mismatch?
            && (k.phase.o.Finished? || k.phase.o.Returned? ==> Judge(k, cancelled).Succeed?)
            && (Judge(k, cancelled).Succeed? ==>
                  exists u, obs :: Erase(obs) == Erase(k.obs) &&
                    Genuinely(w, code, u, obs, k.journal, Judge(k, cancelled).out))
  {
    var j := Journal(code, runs);
    var k := KRun(code, Fresh(j), script);
    NeutralIsBlind(code);
    NeverMismatches(code, runs, script, cancelled);
    JournalVouched(w, code, runs);
    RunSincere(w, code, j, script);
    RunFaithful(code, j, script);
    if Judge(k, cancelled).Succeed? {
      DriftGuardSound(code, j, script, cancelled);
      JournalAuthored(code, runs);
      AttemptAuthored(code, j, script);
      SuccessIsGenuine(w, code, k, Judge(k, cancelled).out);
    }
  }

  lemma SuccessIsGenuine(w: World, code: Code, k: Kernel, out: Payload)
    requires ErrorNeutral(code) && Faithful(code, k) && Sincere(w, code, k)
    requires Trace(code, k.obs, k.journal, out) && Authored(k.journal)
    ensures exists u, obs :: Erase(obs) == Erase(k.obs) && Genuinely(w, code, u, obs, k.journal, out)
  {
    var rec := WhoReturned(w, code, k, out);
    TraceIsAnExecution(w, code, rec, k.journal, out);
    var u :| Uninterrupted(code, u, rec, k.journal, out) &&
             (Backed(w, code, rec) && Offered(w, code, rec, out) ==> HonestRun(w, code, Fresh([]), u));
    assert Genuinely(w, code, u, rec, k.journal, out);
  }
}
