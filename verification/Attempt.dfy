/** How an attempt ends: the outcome switch of the runner, and what its successes are worth. */
module Attempt {
  import opened Model
  import opened Program
  import opened Kernel
  import opened Worlds
  import opened Replay
  import opened Exactness

  const MISMATCH: Fault := "journal mismatch on replay"

  datatype Verdict =
    | Succeed(out: Payload)
    | Fail(err: Fault)
    | Park(dl: Deadline)
    | Leave                 // stays Running, for Recover

  /** The outcome switch, with the drift guard: a terminal return must not leave recorded entries behind. */
  function Judge(k: Kernel, cancelled: bool): Verdict
    requires k.phase.Ended?
  {
    match k.phase.o
    case Finished => if k.cursor == |k.journal| then Succeed(Empty) else Fail(MISMATCH)
    case Returned => if k.cursor == |k.journal| then Succeed(k.ret) else Fail(MISMATCH)
    case Sleeping => Park(k.sleepDl)
    case Suspended => Park(k.awaitDl)
    case Mismatch => if cancelled then Leave else Fail(MISMATCH)
    case StoreFault => Leave
    case Broke(e) => if cancelled then Leave else Fail(e)
  }

  predicate Parked(k: Kernel) {
    k.phase.Ended? && (k.phase.o.Sleeping? || k.phase.o.Suspended?)
  }

  /** The deadline the outcome switch hands to scheduleWakeup. */
  function WakeAt(k: Kernel): Deadline
    requires Parked(k)
  {
    if k.phase.o.Sleeping? then k.sleepDl else k.awaitDl
  }

  /**
   * `j` and `out` are what one complete execution of `code` with results `obs` leaves behind: entry by
   * entry, in order, with nothing left over.
   */
  predicate Trace(code: Code, obs: seq<Obs>, j: seq<Entry>, out: Payload) {
    match code(obs)
    case Done => Recorded(code, obs, j) && out == Empty
    case Return =>
      && j != [] && Recorded(code, obs, j[..|j| - 1])
      && j[|j| - 1].kind == KindReturn && j[|j| - 1].payload == out
    case _ => false
  }

  lemma {:induction false} OnlyExtends(code: Code, j: seq<Entry>, script: seq<Answer>)
    ensures j <= KRun(code, Fresh(j), script).journal
  {
    if script != [] {
      OnlyExtends(code, j, script[..|script| - 1]);
    }
  }

  /**
   * Soundness of the drift guard: whatever code ran and whatever journal it was given, an attempt is
   * judged a success only if the final journal is a complete trace of the primitives it went through.
   */
  lemma DriftGuardSound(code: Code, j: seq<Entry>, script: seq<Answer>, cancelled: bool)
    requires KRun(code, Fresh(j), script).phase.Ended?
    requires Judge(KRun(code, Fresh(j), script), cancelled).Succeed?
    ensures var k := KRun(code, Fresh(j), script);
            j <= k.journal && Trace(code, k.obs, k.journal, Judge(k, cancelled).out)
  {
    var k := KRun(code, Fresh(j), script);
    RunFaithful(code, j, script);
    OnlyExtends(code, j, script);
    assert k.journal[..k.cursor] == k.journal;
  }

  /** Entries as the engine writes them: a Return has an encoded argument, a timeout decision is empty. */
  predicate Authored(j: seq<Entry>) {
    forall i | 0 <= i < |j| ::
      && (j[i].kind == KindReturn ==> j[i].payload.Data?)
      && (j[i].kind == KindAwaitTimeout ==> j[i].payload == Empty)
  }

  /** A recorded history taken apart: the entries of its last result, and what came before. */
  lemma LastResult(code: Code, obs: seq<Obs>, j: seq<Entry>) returns (j': seq<Entry>, es: seq<Entry>)
    requires obs != [] && Recorded(code, obs, j) && Authored(j)
    ensures j' + es == j && Authored(j') && Recorded(code, obs[..|obs| - 1], j')
    ensures Emits(code(obs[..|obs| - 1]), obs[|obs| - 1], es)
  {
    var before, o := obs[..|obs| - 1], obs[|obs| - 1];
    var timed := code(before).Await? && code(before).timeout > 0;
    var width := if o.Erred? then 0 else if timed then 2 else 1;
    j', es := j[..|j| - width], j[|j| - width..];
    assert j' + es == j;
    if timed {
      assert j[..|j| - 1][..|j| - 2] == j';
      assert es == [j[|j| - 2], j[|j| - 1]];
    } else if o.Erred? {
      assert j' == j && es == [];
    } else {
      assert es == [j[|j| - 1]];
    }
  }

  /**
   * A recorded history can be executed from nothing, without interruption, to the very same journal; honestly
   * if every one of its results is one that its primitive can have.
   */
  lemma {:induction false} Reenact(w: World, code: Code, obs: seq<Obs>, j: seq<Entry>) returns (s: seq<Answer>)
    requires Recorded(code, obs, j) && Authored(j)
    ensures Arrives(code, s, obs) && KRun(code, Fresh([]), s).journal == j
    ensures Backed(w, code, obs) ==> HonestRun(w, code, Fresh([]), s)
    decreases |obs|
  {
    if obs == [] {
      s := [];
    } else {
      var before, o := obs[..|obs| - 1], obs[|obs| - 1];
      assert before + [o] == obs;
      BackedSnoc(w, code, before, o);
      var j', es := LastResult(code, obs, j);
      s := Reenact(w, code, before, j');
      s := DriveOn(w, code, s, o, es, 0, 0);
    }
  }

  /** `u` is one execution from an empty journal that runs through to success. */
  predicate Uninterrupted(code: Code, u: seq<Answer>, obs: seq<Obs>, j: seq<Entry>, out: Payload) {
    var k := KRun(code, Fresh([]), u);
    k.phase.Ended? && k.obs == obs && k.journal == j && Judge(k, false) == Succeed(out)
  }

  /** The output of a Return is a value it can be called with after this history. */
  predicate Offered(w: World, code: Code, obs: seq<Obs>, out: Payload) {
    code(obs).Return? ==> out.Data? && w.offers(obs, out.v)
  }

  /** The last steps of an execution, all at the same time: the end of the code, or its Return. */
  lemma Conclude(w: World, code: Code, s: seq<Answer>, obs: seq<Obs>, j: seq<Entry>, out: Payload, now: Time)
    returns (u: seq<Answer>)
    requires Trace(code, obs, j, out) && Authored(j) && Arrives(code, s, obs)
    requires KRun(code, Fresh([]), s).journal == if code(obs).Done? then j else j[..|j| - 1]
    ensures Uninterrupted(code, u, obs, j, out)
    ensures forall lo :: Clocked(s, lo, now) ==> Clocked(u, lo, now)
    ensures HonestRun(w, code, Fresh([]), s) && Offered(w, code, obs, out) ==> HonestRun(w, code, Fresh([]), u)
  {
    if code(obs).Done? {
      u := s + [Look(now)];
      Finishes(w, code, Fresh([]), s, Look(now));
      ClockedOnce(s, Look(now));
    } else {
      u := ConcludeReturn(w, code, s, obs, j, out, now);
    }
  }

  lemma ConcludeReturn(w: World, code: Code, s: seq<Answer>, obs: seq<Obs>, j: seq<Entry>, out: Payload, now: Time)
    returns (u: seq<Answer>)
    requires Trace(code, obs, j, out) && Authored(j) && Arrives(code, s, obs) && code(obs).Return?
    requires KRun(code, Fresh([]), s).journal == j[..|j| - 1]
    ensures Uninterrupted(code, u, obs, j, out)
    ensures forall lo :: Clocked(s, lo, now) ==> Clocked(u, lo, now)
    ensures HonestRun(w, code, Fresh([]), s) && Offered(w, code, obs, out) ==> HonestRun(w, code, Fresh([]), u)
  {
    var last := j[|j| - 1];
    var a := Answer(now, FnOk(""), Some(last.payload.v), last.tag, true, true, true, false, None);
    assert j[..|j| - 1] + [last] == j;
    u := s + [a] + [a];
    Returns(w, code, s, last, a);
    ClockedTwice(s, a);
  }

  lemma ClockedOnce(s: seq<Answer>, a: Answer)
    ensures forall lo :: Clocked(s, lo, a.now) ==> Clocked(s + [a], lo, a.now)
  {
    forall lo | Clocked(s, lo, a.now) ensures Clocked(s + [a], lo, a.now) {
      ClockedSnoc(s, a, lo);
    }
  }

  lemma Finishes(w: World, code: Code, k0: Kernel, s: seq<Answer>, a: Answer)
    requires AtEnd(KRun(code, k0, s)) && code(KRun(code, k0, s).obs).Done?
    ensures KRun(code, k0, s + [a]) == End(KRun(code, k0, s), Finished)
    ensures HonestRun(w, code, k0, s) ==> HonestRun(w, code, k0, s + [a])
  {
    Then(code, k0, s, a);
    HonestSnoc(w, code, k0, s, a);
  }

  lemma ClockedTwice(s: seq<Answer>, a: Answer)
    ensures forall lo :: Clocked(s, lo, a.now) ==> Clocked(s + [a] + [a], lo, a.now)
  {
    ClockedOnce(s, a);
    ClockedOnce(s + [a], a);
  }

  lemma Returns(w: World, code: Code, s: seq<Answer>, e: Entry, a: Answer)
    requires AtEnd(KRun(code, Fresh([]), s)) && code(KRun(code, Fresh([]), s).obs).Return?
    requires e.kind == KindReturn && e.payload.Data? && a.arg == Some(e.payload.v) && a.tag == e.tag && a.stored
    ensures KRun(code, Fresh([]), s + [a] + [a]) == Returned(KRun(code, Fresh([]), s), e)
    ensures HonestRun(w, code, Fresh([]), s) && w.offers(KRun(code, Fresh([]), s).obs, e.payload.v)
            ==> HonestRun(w, code, Fresh([]), s + [a] + [a])
  {
    var k := KRun(code, Fresh([]), s);
    ReturnSteps(w, code, k, e, a);
    Twice(w, code, Fresh([]), s, k, k.(phase := Appending(e)), a);
  }

  function Returned(k: Kernel, e: Entry): Kernel {
    End(k.(journal := k.journal + [e], cursor := |k.journal| + 1, ret := e.payload), Outcome.Returned)
  }

  lemma ReturnSteps(w: World, code: Code, k: Kernel, e: Entry, a: Answer)
    requires AtEnd(k) && code(k.obs).Return?
    requires e.kind == KindReturn && e.payload.Data? && a.arg == Some(e.payload.v) && a.tag == e.tag && a.stored
    ensures KStep(code, k, a) == k.(phase := Appending(e))
            && KStep(code, k.(phase := Appending(e)), a) == Returned(k, e)
    ensures w.offers(k.obs, e.payload.v) ==> Honest(w, code, k, a)
    ensures Honest(w, code, k.(phase := Appending(e)), a)
  {
  }

  lemma Twice(w: World, code: Code, k0: Kernel, s: seq<Answer>, k: Kernel, k1: Kernel, a: Answer)
    requires KRun(code, k0, s) == k && KStep(code, k, a) == k1
    ensures KRun(code, k0, s + [a] + [a]) == KStep(code, k1, a)
    ensures HonestRun(w, code, k0, s) && Honest(w, code, k, a) && Honest(w, code, k1, a)
            ==> HonestRun(w, code, k0, s + [a] + [a])
  {
    Then(code, k0, s, a);
    Then(code, k0, s + [a], a);
    HonestSnoc(w, code, k0, s, a);
    HonestSnoc(w, code, k0, s + [a], a);
  }

  /**
   * The partner of the drift guard: every complete trace is left by one execution that starts from an empty
   * journal and is neither interrupted nor suspended.
   */
  lemma TraceIsAnExecution(w: World, code: Code, obs: seq<Obs>, j: seq<Entry>, out: Payload)
    requires Trace(code, obs, j, out) && Authored(j)
    ensures exists u :: Uninterrupted(code, u, obs, j, out) &&
              (Backed(w, code, obs) && Offered(w, code, obs, out) ==> HonestRun(w, code, Fresh([]), u))
  {
    var s := Reenact(w, code, obs, if code(obs).Done? then j else j[..|j| - 1]);
    var u := Conclude(w, code, s, obs, j, out, 0);
  }

  // ---- over all the attempts of a run ----

  lemma {:induction false} AttemptAuthored(code: Code, j: seq<Entry>, script: seq<Answer>)
    requires Authored(j)
    ensures Authored(KRun(code, Fresh(j), script).journal)
  {
    if script != [] {
      var s := script[..|script| - 1];
      AttemptAuthored(code, j, s);
      RunFaithful(code, j, s);
    }
  }

  lemma {:induction false} JournalAuthored(code: Code, runs: seq<seq<Answer>>)
    ensures Authored(Journal(code, runs))
  {
    if runs != [] {
      JournalAuthored(code, runs[..|runs| - 1]);
      AttemptAuthored(code, Journal(code, runs[..|runs| - 1]), runs[|runs| - 1]);
    }
  }

  /**
   * After any number of attempts cut off anywhere, an attempt of error-blind code extends the journal, never
   * fails for a mismatch, and succeeds if it returns: the kinds always fit. Whether each entry also goes back
   * to the call that wrote it is another matter.
   */
  lemma NeverMismatches(code: Code, runs: seq<seq<Answer>>, script: seq<Answer>, cancelled: bool)
    requires ErrorBlind(code)
    requires KRun(code, Fresh(Journal(code, runs)), script).phase.Ended?
    ensures var k := KRun(code, Fresh(Journal(code, runs)), script);
            && Journal(code, runs) <= k.journal
            && !k.phase.o.Mismatch?
            && (k.phase.o.Finished? || k.phase.o.Returned? ==> Judge(k, cancelled).Succeed?)
            && (Judge(k, cancelled).Succeed? ==>
                  exists u :: Uninterrupted(code, u, k.obs, k.journal, Judge(k, cancelled).out))
  {
    var j := Journal(code, runs);
    var k := KRun(code, Fresh(j), script);
    OnlyExtends(code, j, script);
    if RanToEnd(k) {
      BlindIsSafe(code);
      assert k.cursor == |k.journal|;
      RunFaithful(code, j, script);
    }
    if Judge(k, cancelled).Succeed? {
      DriftGuardSound(code, j, script, cancelled);
      JournalAuthored(code, runs);
      AttemptAuthored(code, j, script);
      TraceIsAnExecution(ANYTHING, code, k.obs, k.journal, Judge(k, cancelled).out);
    }
  }
}
