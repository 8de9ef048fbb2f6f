/**
 * Business code that falls back to another Execute when the first one fails. Re-execution never meets a
 * mismatch, and yet hands the result of the fallback to the call that failed.
 */
module Fallback {
  import opened Model
  import opened Program
  import opened Kernel
  import opened Worlds
  import opened Replay
  import opened Exactness
  import opened Attempt
  import opened Origin
  import opened Delivery

  function Charge(obs: seq<Obs>): Op {
    if obs == [] then Exec("card", NoRetry)
    else if obs[|obs| - 1].Ran? then Return
    else if |obs| == 1 then Exec("invoice", NoRetry)
    else Raise("both failed")
  }

  lemma Histories(obs: seq<Obs>)
    requires Feasible(Charge, obs)
    ensures |obs| <= 2 && (|obs| == 2 ==> obs[0].Erred? && (obs[1].Ran? || obs[1].Erred?))
    ensures |obs| == 1 ==> obs[0].Ran? || obs[0].Erred?
  {
    if |obs| >= 1 {
      assert Answers(Charge(obs[..0]), obs[0]);
      if |obs| >= 2 {
        assert Answers(Charge(obs[..1]), obs[1]);
        assert forall o :: !Answers(Charge(obs[..2]), o);
      }
    }
  }

  lemma BlindTo(obs: seq<Obs>)
    requires Feasible(Charge, obs)
    ensures Ends(Charge(obs)) || ShapeOf(Charge(obs)) == ShapeOf(Charge(Erase(obs)))
  {
    Histories(obs);
    if obs != [] {
      var before, o := obs[..|obs| - 1], obs[|obs| - 1];
      assert before + [o] == obs;
      EraseSnoc(before, o);
      if |obs| == 1 {
        assert before == [];
      } else {
        assert o.Erred? ==> Ends(Charge(obs));
        assert o.Ran? ==> Charge(obs) == Return && Erase(obs) == Erase(before) + [o];
      }
    }
  }

  lemma Blind()
    ensures ErrorBlind(Charge)
  {
    forall obs: seq<Obs> | Feasible(Charge, obs)
      ensures Ends(Charge(obs)) || ShapeOf(Charge(obs)) == ShapeOf(Charge(Erase(obs)))
    {
      BlindTo(obs);
    }
  }

  lemma NotNeutral()
    ensures !ErrorNeutral(Charge)
  {
    var obs := [Erred("down")];
    FeasibleSnoc(Charge, [], Erred("down"));
    EraseSnoc([], Erred("down"));
    assert [] + [Erred("down")] == obs;
    assert CallOf(Charge(obs)) != CallOf(Charge(Erase(obs)));
  }

  /** Kinds always fit, calls do not. */
  lemma BlindButNotNeutral()
    ensures ErrorBlind(Charge) && ReplaySafe(Charge) && !ErrorNeutral(Charge) && !ReturnsHome(Charge)
  {
    Blind();
    NotNeutral();
    ReplaySafeIffErrorBlind(Charge);
    HomeIffErrorNeutral(Charge);
  }

  // ---- what a first execution can leave, for any code ----

  /** An attempt that began with nothing: all it has seen it has made happen itself. */
  predicate AllOwn(w: World, code: Code, k: Kernel) {
    k.cursor == |k.journal| && Backed(w, code, k.obs) && OwnPhase(w, code, k)
  }

  predicate OwnPhase(w: World, code: Code, k: Kernel) {
    match k.phase
    case Appending(e) => Genuine(w, code, k, e)
    case Acking(p) => code(k.obs).Await? && w.sends(code(k.obs).sig, p)
    case Ended(o) => o == Outcome.Returned ==> code(k.obs).Return? && k.ret.Data? && w.offers(k.obs, k.ret.v)
    case _ => true
  }

  lemma OwnNext(w: World, code: Code, k: Kernel, a: Answer)
    requires Faithful(code, k) && k.cursor == |k.journal| && OwnPhase(w, code, k) && Honest(w, code, k, a)
    ensures OwnPhase(w, code, KStep(code, k, a))
  {
  }

  lemma OwnResult(w: World, code: Code, k: Kernel, a: Answer, o: Obs)
    requires Faithful(code, k) && k.cursor == |k.journal| && OwnPhase(w, code, k) && Honest(w, code, k, a)
    requires KStep(code, k, a).obs == k.obs + [o]
    ensures Answers(code(k.obs), o) && Honours(w, code(k.obs), o)
  {
    assert KStep(code, k, a).obs[|k.obs|] == o;
  }

  lemma StepOwn(w: World, code: Code, k: Kernel, a: Answer)
    requires Faithful(code, k) && AllOwn(w, code, k) && Honest(w, code, k, a)
    ensures AllOwn(w, code, KStep(code, k, a))
  {
    CursorBehind(code, k, a);
    OwnNext(w, code, k, a);
    var obs := KStep(code, k, a).obs;
    if obs != k.obs {
      StepTells(code, k, a);
      assert obs == k.obs + [obs[|k.obs|]];
      OwnResult(w, code, k, a, obs[|k.obs|]);
      BackedSnoc(w, code, k.obs, obs[|k.obs|]);
    }
  }

  lemma {:induction false} FirstRunOwn(w: World, code: Code, u: seq<Answer>)
    requires HonestRun(w, code, Fresh([]), u)
    ensures AllOwn(w, code, KRun(code, Fresh([]), u))
  {
    if u != [] {
      var s, a := u[..|u| - 1], u[|u| - 1];
      assert s + [a] == u;
      HonestSnoc(w, code, Fresh([]), s, a);
      FirstRunOwn(w, code, s);
      RunFaithful(code, [], s);
      var k := KRun(code, Fresh([]), s);
      assert KRun(code, Fresh([]), u) == KStep(code, k, a);
      StepOwn(w, code, k, a);
    }
  }

  // ---- the two attempts ----

  /** The card is always down, the invoice always comes back; Return is told who was charged. */
  const TILL: World := World(
    (step, v) => step == "invoice" && v == "sent",
    (step, e) => step == "card" && e == "down",
    (sig, p) => false,
    (obs, v) => v == if |obs| == 1 then "charged by card" else "charged by invoice")

  function Answering(fn: FnResult, arg: Value): Answer {
    Answer(0, fn, Some(arg), "", true, true, true, false, None)
  }

  const DOWN: Answer := Answering(FnFail("down"), "")
  const SENT: Answer := Answering(FnOk("sent"), "")
  const PAID: Answer := Answering(FnOk(""), "charged by card")

  /** The first attempt is told that the card is down, sends the invoice, records it and dies. */
  const FIRST: seq<Answer> := [DOWN, DOWN, SENT, SENT, SENT]
  const INVOICE: Entry := Entry(KindExec, "", Data("sent"))
  const RECEIPT: Entry := Entry(KindReturn, "", Data("charged by card"))

  /** The second attempt is handed the invoice as the answer of the card. */
  const SECOND: seq<Answer> := [PAID, PAID, PAID]

  lemma Go(k0: Kernel, s: seq<Answer>, k: Kernel, a: Answer, k': Kernel)
    requires KRun(Charge, k0, s) == k && HonestRun(TILL, Charge, k0, s)
    requires KStep(Charge, k, a) == k' && Honest(TILL, Charge, k, a)
    ensures KRun(Charge, k0, s + [a]) == k' && HonestRun(TILL, Charge, k0, s + [a])
  {
    Then(Charge, k0, s, a);
    HonestSnoc(TILL, Charge, k0, s, a);
  }

  lemma FirstAttempt()
    ensures HonestRun(TILL, Charge, Fresh([]), FIRST) && KRun(Charge, Fresh([]), FIRST).journal == [INVOICE]
  {
    var k0 := Fresh([]);
    var k1 := k0.(phase := Calling(0));
    Go(k0, [], k0, DOWN, k1);
    var k2 := k0.(obs := [Erred("down")]);
    Go(k0, [] + [DOWN], k1, DOWN, k2);
    var k3 := k2.(phase := Calling(0));
    Go(k0, [] + [DOWN] + [DOWN], k2, SENT, k3);
    var k4 := k2.(phase := Appending(INVOICE));
    Go(k0, [] + [DOWN] + [DOWN] + [SENT], k3, SENT, k4);
    Go(k0, [] + [DOWN] + [DOWN] + [SENT] + [SENT], k4, SENT, KStep(Charge, k4, SENT));
    assert [] + [DOWN] + [DOWN] + [SENT] + [SENT] + [SENT] == FIRST;
  }

  const READ: Kernel := Fresh([INVOICE]).(obs := [Ran("sent")], cursor := 1)

  lemma Misread()
    ensures KRun(Charge, Fresh([INVOICE]), [PAID]) == READ && HonestRun(TILL, Charge, Fresh([INVOICE]), [PAID])
  {
    Go(Fresh([INVOICE]), [], Fresh([INVOICE]), PAID, READ);
    assert [] + [PAID] == [PAID];
  }

  lemma SecondAttempt()
    ensures HonestRun(TILL, Charge, Fresh([INVOICE]), SECOND)
    ensures var k := KRun(Charge, Fresh([INVOICE]), SECOND);
            && k.obs == [Ran("sent")] && k.journal == [INVOICE, RECEIPT] && k.phase.Ended?
            && Judge(k, false) == Verdict.Succeed(RECEIPT.payload)
  {
    Misread();
    var k2 := READ.(phase := Appending(RECEIPT));
    Go(Fresh([INVOICE]), [PAID], READ, PAID, k2);
    assert [PAID] + [PAID] == [PAID, PAID] && [INVOICE] + [RECEIPT] == [INVOICE, RECEIPT];
    var k3 := End(READ.(journal := [INVOICE, RECEIPT], cursor := 2, ret := RECEIPT.payload), Outcome.Returned);
    Go(Fresh([INVOICE]), [PAID, PAID], k2, PAID, k3);
    assert [PAID, PAID] + [PAID] == SECOND;
  }

  /** No execution from nothing ends with a receipt for the card. */
  lemma NobodyPaysByCard(u: seq<Answer>, obs: seq<Obs>, j: seq<Entry>)
    requires HonestRun(TILL, Charge, Fresh([]), u)
    ensures !Uninterrupted(Charge, u, obs, j, RECEIPT.payload)
  {
    FirstRunOwn(TILL, Charge, u);
    RunFaithful(Charge, [], u);
    var k := KRun(Charge, Fresh([]), u);
    if k.phase == Ended(Outcome.Returned) {
      ByInvoice(k);
    }
  }

  lemma ByInvoice(k: Kernel)
    requires Faithful(Charge, k) && AllOwn(TILL, Charge, k) && k.phase == Ended(Outcome.Returned)
    ensures k.ret == Data("charged by invoice")
  {
    RecordedFeasible(Charge, k.obs, k.journal[..k.cursor - 1]);
    Histories(k.obs);
    if |k.obs| == 1 {
      CardNeverRuns(k.obs);
    }
  }

  lemma CardNeverRuns(obs: seq<Obs>)
    requires Backed(TILL, Charge, obs) && |obs| == 1
    ensures !obs[0].Ran?
  {
    assert Honours(TILL, Charge(obs[..0]), obs[0]);
  }

  /**
   * Error-blind is not enough: two attempts with answers from one world, the second one judged a success, and
   * no uninterrupted execution in that world gives its output.
   */
  lemma MisdeliveredResult()
    ensures HonestRuns(TILL, Charge, [FIRST]) && HonestRun(TILL, Charge, Fresh(Journal(Charge, [FIRST])), SECOND)
    ensures var k := KRun(Charge, Fresh(Journal(Charge, [FIRST])), SECOND);
            && k.phase.Ended? && Judge(k, false) == Verdict.Succeed(RECEIPT.payload)
            && forall u, obs :: !Genuinely(TILL, Charge, u, obs, k.journal, RECEIPT.payload)
  {
    FirstAttempt();
    SecondAttempt();
    OneRun(Charge, FIRST);
    assert [FIRST][..0] == [] && Journal(Charge, [FIRST]) == [INVOICE];
    var k := KRun(Charge, Fresh([INVOICE]), SECOND);
    forall u, obs ensures !Genuinely(TILL, Charge, u, obs, k.journal, RECEIPT.payload) {
      if HonestRun(TILL, Charge, Fresh([]), u) {
        NobodyPaysByCard(u, obs, k.journal);
      }
    }
  }
}
