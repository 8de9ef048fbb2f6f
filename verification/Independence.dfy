/** A journal decides what its replay observes; mailbox, clock, labels, fn results and arguments do not. */
module Independence {
  import opened Model
  import opened Program
  import opened Kernel
  import opened Replay
  import opened Exactness

  /** The results a journal tells its code, up to the first entry the code cannot place. */
  function Told(code: Code, j: seq<Entry>): seq<Obs> {
    var w := Walk(code, j);
    if w == Lost && j != [] then Told(code, j[..|j| - 1]) else if w == Lost then [] else w.obs
  }

  lemma {:induction false} ToldGrows(code: Code, j: seq<Entry>, n: nat)
    requires n <= |j|
    ensures Told(code, j[..n]) <= Told(code, j)
  {
    if n < |j| {
      var j' := j[..|j| - 1];
      assert j'[..n] == j[..n];
      ToldGrows(code, j', n);
    } else {
      assert j[..n] == j;
    }
  }

  /** What an attempt over `j` has observed is part of what `j` tells, or goes on from it. */
  ghost predicate Obeys(code: Code, j: seq<Entry>, k: Kernel) {
    && j <= k.journal
    && (k.cursor < |j| ==> !HasErr(k.obs) && k.obs <= Told(code, j))
    && (k.cursor == |j| ==> Told(code, j) <= k.obs || (k.obs <= Told(code, j) && (k.phase.Napping? || k.phase.Ended?)))
    && (k.cursor > |j| ==> Told(code, j) <= k.obs)
    && (HasErr(k.obs) ==> Told(code, j) <= k.obs)
    && (k.phase.Acking? ==> k.cursor > |j|)
  }

  /** While an attempt is within the journal it was given, the journal determines what it has observed. */
  lemma WithinJournal(code: Code, j: seq<Entry>, k: Kernel)
    requires Faithful(code, k) && j <= k.journal && k.cursor <= |j| && !HasErr(k.obs) && !k.phase.Ended?
    ensures k.obs <= Told(code, j)
    ensures k.cursor == |j| && !k.phase.Napping? && !k.phase.Acking? ==> Told(code, j) == k.obs
  {
    EraseClean(k.obs);
    ToldGrows(code, j, k.cursor);
    if k.phase.Appending? {
      AppendingWithin(code, j, k);
    } else {
      ReadingWithin(code, j, k);
      assert j[..|j|] == j;
    }
  }

  lemma ReadingWithin(code: Code, j: seq<Entry>, k: Kernel)
    requires Faithful(code, k) && j <= k.journal && k.cursor <= |j| && !HasErr(k.obs)
    requires !k.phase.Ended? && !k.phase.Appending?
    ensures k.obs <= Told(code, j[..k.cursor])
    ensures !k.phase.Napping? && !k.phase.Acking? ==> Told(code, j[..k.cursor]) == k.obs
  {
    EraseClean(k.obs);
    assert k.journal[..k.cursor] == j[..k.cursor];
    StandsAt(code, k);
  }

  lemma AppendingWithin(code: Code, j: seq<Entry>, k: Kernel)
    requires Faithful(code, k) && j <= k.journal && k.cursor <= |j| && !HasErr(k.obs) && k.phase.Appending?
    ensures j == k.journal && Told(code, j) == k.obs
  {
    EraseClean(k.obs);
    assert k.journal[..k.cursor] == j == k.journal;
    if k.phase.e.kind == KindAwait || k.phase.e.kind == KindAwaitTimeout {
      StandsInAwait(code, k);
    } else {
      StandsReady(code, k, k.obs, k.journal);
    }
  }

  /** What any one step may do to cursor, journal and history. */
  predicate Moves(k: Kernel, k': Kernel) {
    && k.obs <= k'.obs && |k'.obs| <= |k.obs| + 1 && k.journal <= k'.journal
    && k.cursor <= k'.cursor <= k.cursor + 1
    && (k'.cursor == k.cursor ==> k'.journal == k.journal)
    && (k'.phase.Acking? ==> k.phase.Appending? && k'.cursor > k.cursor == |k.journal|)
    && (k'.phase.Ended? ==> k'.obs == k.obs)
    && (k'.obs != k.obs ==> k'.phase.Call?)
    && (k.phase.Napping? ==> k'.cursor == k.cursor)
    && (k'.obs != k.obs && k'.obs[|k.obs|].Erred? ==> k.phase.Calling?)
  }

  lemma StepMoves(code: Code, k: Kernel, a: Answer)
    requires Faithful(code, k) && !k.phase.Ended?
    ensures Moves(k, KStep(code, k, a))
  {
    match k.phase
    case Call => CallMoves(code, k, a);
    case Calling(_) =>
    case Appending(e) => CommitMoves(code, k, a);
    case _ =>
  }

  lemma CallMoves(code: Code, k: Kernel, a: Answer)
    requires k.cursor <= |k.journal| && k.phase.Call?
    ensures Moves(k, CallStep(code, k, a))
  {
  }

  lemma CommitMoves(code: Code, k: Kernel, a: Answer)
    requires Faithful(code, k) && k.phase.Appending?
    ensures Moves(k, KStep(code, k, a))
  {
  }

  lemma MovesErr(k: Kernel, k': Kernel)
    requires Moves(k, k') && HasErr(k'.obs) && !HasErr(k.obs)
    ensures k.phase.Calling?
  {
    var o := k'.obs[|k.obs|];
    assert k'.obs == k.obs + [o];
    HasErrSnoc(k.obs, o);
  }

  lemma StepObeys(code: Code, j: seq<Entry>, k: Kernel, a: Answer)
    requires Faithful(code, k) && Obeys(code, j, k)
    ensures Obeys(code, j, KStep(code, k, a))
  {
    if !k.phase.Ended? {
      StepFaithful(code, k, a);
      StepMoves(code, k, a);
      MovesObey(code, j, k, KStep(code, k, a));
    }
  }

  lemma MovesObey(code: Code, j: seq<Entry>, k: Kernel, k': Kernel)
    requires Faithful(code, k) && Faithful(code, k') && Obeys(code, j, k) && !k.phase.Ended? && Moves(k, k')
    ensures Obeys(code, j, k')
  {
    if HasErr(k'.obs) && !HasErr(k.obs) {
      MovesErr(k, k');
    }
    if !HasErr(k'.obs) && k'.cursor <= |j| && !k'.phase.Ended? {
      WithinJournal(code, j, k');
    }
  }

  lemma {:induction false} RunObeys(code: Code, j: seq<Entry>, script: seq<Answer>)
    ensures Obeys(code, j, KRun(code, Fresh(j), script))
  {
    if script == [] {
      assert j[..0] == [];
      ToldGrows(code, j, 0);
      WithinJournal(code, j, Fresh(j));
    } else {
      var s := script[..|script| - 1];
      RunObeys(code, j, s);
      RunFaithful(code, j, s);
      StepObeys(code, j, KRun(code, Fresh(j), s), script[|script| - 1]);
    }
  }

  /**
   * Replay independence: two attempts over the same journal, whatever the world answers to each of them,
   * agree on every result the journal tells.
   */
  lemma ReplayIndependence(code: Code, j: seq<Entry>, s: seq<Answer>, t: seq<Answer>, i: nat)
    requires i < |Told(code, j)|
    requires i < |KRun(code, Fresh(j), s).obs| && i < |KRun(code, Fresh(j), t).obs|
    ensures KRun(code, Fresh(j), s).obs[i] == KRun(code, Fresh(j), t).obs[i] == Told(code, j)[i]
  {
    RunObeys(code, j, s);
    RunObeys(code, j, t);
  }

  /** No attempt calls fn, appends or asks the mailbox before it has observed all that its journal tells. */
  lemma NothingNewBeforeTheEnd(code: Code, j: seq<Entry>, s: seq<Answer>)
    requires var k := KRun(code, Fresh(j), s); k.phase.Calling? || k.phase.Appending? || k.phase.Fetching?
    ensures KRun(code, Fresh(j), s).cursor == |KRun(code, Fresh(j), s).journal|
    ensures Told(code, j) <= KRun(code, Fresh(j), s).obs
  {
    RunObeys(code, j, s);
    RunFaithful(code, j, s);
  }

  /** A signal that arrives after the timeout was recorded cannot flip the decision. */
  lemma LateSignal(code: Code, j: seq<Entry>, decision: Entry, later: seq<Entry>, s: seq<Answer>)
    requires Walk(code, j).Deadlined? && decision.kind == KindAwaitTimeout
    requires |KRun(code, Fresh(j + [decision] + later), s).obs| > |Walk(code, j).obs|
    ensures KRun(code, Fresh(j + [decision] + later), s).obs[|Walk(code, j).obs|] == TimedOut
  {
    var all := j + [decision] + later;
    assert all[..|j| + 1] == j + [decision];
    WalkSnoc(code, j, decision);
    ToldGrows(code, all, |j| + 1);
    RunObeys(code, all, s);
  }
}
