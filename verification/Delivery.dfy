/** Which call reads an entry back: the exact law for business code that looks at errors. */
module Delivery {
  import opened Model
  import opened Program
  import opened Kernel
  import opened Worlds
  import opened Replay
  import opened Exactness
  import opened Attempt
  import opened Origin

  // ---- who wrote what ----

  /** The calls that the entries appended by an attempt belong to. */
  function Writes(code: Code, k: Kernel, s: seq<Answer>): seq<Op> {
    if s == [] then []
    else
      var k' := KRun(code, k, s[..|s| - 1]);
      Writes(code, k, s[..|s| - 1]) + if k'.phase.Appending? && s[|s| - 1].stored then [code(k'.obs)] else []
  }

  /** The calls that the entries of the journal belong to, after any number of attempts. */
  function Writers(code: Code, runs: seq<seq<Answer>>): seq<Op> {
    if runs == [] then []
    else
      var before := runs[..|runs| - 1];
      Writers(code, before) + Writes(code, Fresh(Journal(code, before)), runs[|runs| - 1])
  }

  /** The step takes an entry from the journal. */
  predicate Consumes(k: Kernel, k': Kernel) {
    k'.cursor == k.cursor + 1 && k'.journal == k.journal
  }

  /** Every entry that an attempt takes from its journal was written by the very call that takes it. */
  ghost predicate ReturnsHome(code: Code) {
    forall runs, s, a ::
      var k := KRun(code, Fresh(Journal(code, runs)), s);
      Consumes(k, KStep(code, k, a)) ==> WroteNext(code, runs, k)
  }

  /** The next entry was written by the call that is in progress. */
  predicate WroteNext(code: Code, runs: seq<seq<Answer>>, k: Kernel) {
    k.cursor < |Writers(code, runs)| && CallOf(Writers(code, runs)[k.cursor]) == CallOf(code(k.obs))
  }

  lemma WritesThen(code: Code, k: Kernel, s: seq<Answer>, a: Answer)
    ensures var k' := KRun(code, k, s);
            Writes(code, k, s + [a]) ==
            Writes(code, k, s) + if k'.phase.Appending? && a.stored then [code(k'.obs)] else []
  {
    assert (s + [a])[..|s + [a]| - 1] == s;
  }

  // ---- error-neutral code ----

  /** Each entry was written by the call that the journal before it leads to. */
  predicate Signed(code: Code, j: seq<Entry>, ops: seq<Op>) {
    && Walk(code, j) != Lost && |ops| == |j|
    && forall i | 0 <= i < |j| :: SignedAt(code, Walk(code, j[..i]), ops[i])
  }

  predicate SignedAt(code: Code, v: Where, op: Op) {
    (v.Ready? || v.Deadlined?) && CallOf(op) == CallOf(code(v.obs))
  }

  lemma SignedSnoc(code: Code, j: seq<Entry>, ops: seq<Op>, e: Entry, op: Op)
    requires Signed(code, j, ops) && Walk(code, j + [e]) != Lost && SignedAt(code, Walk(code, j), op)
    ensures Signed(code, j + [e], ops + [op])
  {
    var j', ops' := j + [e], ops + [op];
    forall i | 0 <= i < |j'| ensures SignedAt(code, Walk(code, j'[..i]), ops'[i]) {
      if i < |j| {
        assert j'[..i] == j[..i];
      } else {
        assert j'[..i] == j;
      }
    }
  }

  lemma {:induction false} RunSigned(code: Code, j: seq<Entry>, ops: seq<Op>, s: seq<Answer>)
    requires ErrorNeutral(code) && Signed(code, j, ops)
    ensures Signed(code, KRun(code, Fresh(j), s).journal, ops + Writes(code, Fresh(j), s))
  {
    if s == [] {
      assert ops + [] == ops;
    } else {
      var s', a := s[..|s| - 1], s[|s| - 1];
      var k := KRun(code, Fresh(j), s');
      RunSigned(code, j, ops, s');
      RunFaithful(code, j, s');
      StepKeepsJournal(code, k, a);
      if k.phase.Appending? && a.stored {
        StandsWriting(code, k);
        SignedSnoc(code, k.journal, ops + Writes(code, Fresh(j), s'), k.phase.e, code(k.obs));
        assert ops + Writes(code, Fresh(j), s') + [code(k.obs)] == ops + Writes(code, Fresh(j), s);
      } else {
        assert Writes(code, Fresh(j), s) == Writes(code, Fresh(j), s');
      }
    }
  }

  lemma {:induction false} JournalSigned(code: Code, runs: seq<seq<Answer>>)
    requires ErrorNeutral(code)
    ensures Signed(code, Journal(code, runs), Writers(code, runs))
  {
    if runs != [] {
      var before := runs[..|runs| - 1];
      JournalSigned(code, before);
      RunSigned(code, Journal(code, before), Writers(code, before), runs[|runs| - 1]);
    }
  }

  /** An attempt that has not come to the end of its journal has added nothing to it. */
  lemma {:induction false} ReadsOnly(code: Code, j: seq<Entry>, s: seq<Answer>)
    ensures var k := KRun(code, Fresh(j), s); k.cursor < |k.journal| ==> k.journal == j
  {
    if s != [] {
      ReadsOnly(code, j, s[..|s| - 1]);
      RunFaithful(code, j, s[..|s| - 1]);
      StepKeepsJournal(code, KRun(code, Fresh(j), s[..|s| - 1]), s[|s| - 1]);
      CursorBehind(code, KRun(code, Fresh(j), s[..|s| - 1]), s[|s| - 1]);
    }
  }

  lemma CursorBehind(code: Code, k: Kernel, a: Answer)
    requires Faithful(code, k)
    ensures k.cursor == |k.journal| ==> KStep(code, k, a).cursor == |KStep(code, k, a).journal|
  {
  }

  /** Who takes an entry stands where the journal before it leads to. */
  lemma ConsumerStands(code: Code, k: Kernel, a: Answer)
    requires ErrorNeutral(code) && Faithful(code, k) && Consumes(k, KStep(code, k, a))
    ensures k.cursor < |k.journal|
    ensures SignedAt(code, Walk(code, k.journal[..k.cursor]), code(k.obs))
  {
    NeutralIsBlind(code);
    ConsumerReads(code, k, a);
    StandsAt(code, k);
    if k.phase.Call? {
      RecordedFeasible(code, k.obs, k.journal[..k.cursor]);
    } else {
      AwaitFeasible(code, k.obs, k.journal[..k.cursor]);
    }
    SameCall(code, k.obs);
  }

  lemma ConsumerReads(code: Code, k: Kernel, a: Answer)
    requires Faithful(code, k) && Consumes(k, KStep(code, k, a))
    ensures k.cursor < |k.journal| && (k.phase.Call? || k.phase.Deciding?) && !Ends(code(k.obs))
  {
  }

  lemma NeutralReturnsHome(code: Code)
    requires ErrorNeutral(code)
    ensures ReturnsHome(code)
  {
    forall runs, s, a
      | var k := KRun(code, Fresh(Journal(code, runs)), s); Consumes(k, KStep(code, k, a))
      ensures WroteNext(code, runs, KRun(code, Fresh(Journal(code, runs)), s))
    {
      var j := Journal(code, runs);
      var k := KRun(code, Fresh(j), s);
      JournalSigned(code, runs);
      RunFaithful(code, j, s);
      ReadsOnly(code, j, s);
      ConsumerStands(code, k, a);
      assert SignedAt(code, Walk(code, j[..k.cursor]), Writers(code, runs)[k.cursor]);
    }
  }

  // ---- and only error-neutral code ----

  lemma {:induction false} WritesCount(code: Code, k: Kernel, s: seq<Answer>)
    requires !k.phase.Appending? || k.phase.e.kind != KindCancel
    ensures |KRun(code, k, s).journal| == |k.journal| + |Writes(code, k, s)|
  {
    if s != [] {
      WritesCount(code, k, s[..|s| - 1]);
      StepKeepsJournal(code, KRun(code, k, s[..|s| - 1]), s[|s| - 1]);
    }
  }

  const GO: Answer := Say(0, FnOk(""), "", Some(Empty))

  /** The script has come to `k'`, and the entries written on the way belong to `ops`. */
  predicate Wrote(code: Code, k: Kernel, s: seq<Answer>, ops: seq<Op>, k': Kernel) {
    KRun(code, k, s) == k' && Writes(code, k, s) == ops
  }

  lemma Quietly(code: Code, k: Kernel, s: seq<Answer>, ops: seq<Op>, k1: Kernel, k2: Kernel) returns (s': seq<Answer>)
    requires Wrote(code, k, s, ops, k1) && !k1.phase.Appending? && KStep(code, k1, GO) == k2
    ensures Wrote(code, k, s', ops, k2)
  {
    Then(code, k, s, GO);
    WritesThen(code, k, s, GO);
    s' := s + [GO];
  }

  /** From the end of the journal to the first entry of the next primitive, before it has any result. */
  lemma ToWrite(code: Code, k0: Kernel, s0: seq<Answer>, ops: seq<Op>, k: Kernel) returns (s: seq<Answer>, e: Entry)
    requires Wrote(code, k0, s0, ops, k) && AtEnd(k) && !Ends(code(k.obs))
    ensures FirstKind(code(k.obs)) == Some(e.kind)
    ensures exists k' ::
              Wrote(code, k0, s, ops, k') && k'.phase == Appending(e) && k'.obs == k.obs && k'.journal == k.journal
  {
    var k1 := KStep(code, k, GO);
    s := Quietly(code, k0, s0, ops, k, k1);
    if k1.phase.Appending? {
      e := k1.phase.e;
      assert Wrote(code, k0, s, ops, k1);
    } else if k1.phase.Calling? {
      e := Entry(KindExec, "", Data(""));
      s := Quietly(code, k0, s, ops, k1, k.(phase := Appending(e)));
    } else {
      e := Entry(KindAwait, "", Empty);
      var k2 := k.(awaitDl := NoDeadline);
      s := Quietly(code, k0, s, ops, k1, k2.(phase := Fetching));
      s := Quietly(code, k0, s, ops, k2.(phase := Fetching), k2.(phase := Appending(e)));
    }
  }

  lemma WriteFirst(code: Code, k0: Kernel, s0: seq<Answer>, ops: seq<Op>, k: Kernel) returns (s: seq<Answer>, e: Entry)
    requires Wrote(code, k0, s0, ops, k) && AtEnd(k) && !Ends(code(k.obs))
    ensures FirstKind(code(k.obs)) == Some(e.kind)
    ensures KRun(code, k0, s).journal == k.journal + [e] && Writes(code, k0, s) == ops + [code(k.obs)]
  {
    s, e := ToWrite(code, k0, s0, ops, k);
    var k' :| Wrote(code, k0, s, ops, k') && k'.phase == Appending(e) && k'.obs == k.obs && k'.journal == k.journal;
    Then(code, k0, s, GO);
    WritesThen(code, k0, s, GO);
    StepKeepsJournal(code, k', GO);
    s := s + [GO];
  }

  /** An attempt takes the next entry if its kind is the one its primitive looks for first. */
  lemma Takes(code: Code, k: Kernel) returns (s: seq<Answer>)
    requires k.phase.Call? && k.cursor < |k.journal| && FirstKind(code(k.obs)) == Some(k.journal[k.cursor].kind)
    ensures KRun(code, k, s).cursor == k.cursor && KRun(code, k, s).obs == k.obs
    ensures Consumes(KRun(code, k, s), KStep(code, KRun(code, k, s), Look(0)))
  {
    s := [];
    if code(k.obs).Await? && code(k.obs).timeout <= 0 {
      One(code, k, k.(awaitDl := NoDeadline, phase := Deciding), Look(0));
      s := [Look(0)];
    }
  }

  /** A first attempt that makes a different call after an error leaves an entry for the wrong reader. */
  lemma Misdelivers(code: Code, obs: seq<Obs>) returns (runs: seq<seq<Answer>>, s: seq<Answer>)
    requires ErrorBlind(code) && Feasible(code, obs) && !Ends(code(obs))
    ensures var k := KRun(code, Fresh(Journal(code, runs)), s);
            && Consumes(k, KStep(code, k, Look(0))) && k.obs == Erase(obs)
            && k.cursor < |Writers(code, runs)| && Writers(code, runs)[k.cursor] == code(obs)
  {
    var u := DriveAll(code, obs);
    var k := KRun(code, Fresh([]), u);
    RunFaithful(code, [], u);
    assert k.journal[..k.cursor] == k.journal;
    StandsReady(code, k, obs, k.journal);
    var t, e := WriteFirst(code, Fresh([]), u, Writes(code, Fresh([]), u), k);
    var m := |k.journal|;
    WritesCount(code, Fresh([]), u);
    runs := [t];
    OneRun(code, t);
    var j := Journal(code, runs);
    assert j == k.journal + [e] && j[..m] == k.journal;
    s := Reread(code, j, m, Horizon(j));
    SameFirst(code, obs);
    var v := Takes(code, KRun(code, Fresh(j), s));
    RunAppend(code, Fresh(j), s, v);
    s := s + v;
  }

  lemma OneRun(code: Code, s: seq<Answer>)
    ensures Journal(code, [s]) == KRun(code, Fresh([]), s).journal && Writers(code, [s]) == Writes(code, Fresh([]), s)
  {
    assert [s][..0] == [];
  }

  lemma SameFirst(code: Code, obs: seq<Obs>)
    requires ErrorBlind(code) && Feasible(code, obs) && !Ends(code(obs))
    ensures FirstKind(code(obs)) == FirstKind(code(Erase(obs)))
  {
    assert BlindAt(code, obs);
    SameShape(code(obs), code(Erase(obs)));
  }

  /**
   * The exact law. Re-execution reads every entry, and each is read by the very call that wrote it, if and only
   * if the business code, after a failed Execute, ends or makes the call it would have made without the failure.
   */
  lemma HomeIffErrorNeutral(code: Code)
    ensures ReplaySafe(code) && ReturnsHome(code) <==> ErrorNeutral(code)
  {
    if ErrorNeutral(code) {
      NeutralIsBlind(code);
      BlindIsSafe(code);
      NeutralReturnsHome(code);
    } else if ErrorBlind(code) {
      var obs :| Feasible(code, obs) && !Ends(code(obs)) && CallOf(code(obs)) != CallOf(code(Erase(obs)));
      var runs, s := Misdelivers(code, obs);
      assert !WroteNext(code, runs, KRun(code, Fresh(Journal(code, runs)), s));
    } else {
      ReplaySafeIffErrorBlind(code);
    }
  }
}
