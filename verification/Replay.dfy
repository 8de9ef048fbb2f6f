/** What journals mean, and why re-execution cannot be told apart from the first execution. */
module Replay {
  import opened Model
  import opened Program
  import opened Kernel

  // ---- histories ----

  lemma {:induction false} EraseClean(obs: seq<Obs>)
    requires !HasErr(obs)
    ensures Erase(obs) == obs
  {
    if obs != [] {
      var before, o := obs[..|obs| - 1], obs[|obs| - 1];
      assert obs == before + [o];
      HasErrSnoc(before, o);
      EraseClean(before);
    }
  }

  lemma {:induction false} EraseHasNoErr(obs: seq<Obs>)
    ensures !HasErr(Erase(obs))
  {
    if obs != [] {
      var before, o := obs[..|obs| - 1], obs[|obs| - 1];
      EraseHasNoErr(before);
      HasErrSnoc(Erase(before), o);
    }
  }

  lemma EraseSnoc(obs: seq<Obs>, o: Obs)
    ensures Erase(obs + [o]) == if o.Erred? then Erase(obs) else Erase(obs) + [o]
  {
    var all := obs + [o];
    assert all[..|all| - 1] == obs && all[|all| - 1] == o;
  }

  lemma FeasiblePrefix(code: Code, obs: seq<Obs>, n: nat)
    requires Feasible(code, obs) && n <= |obs|
    ensures Feasible(code, obs[..n])
  {
    var p := obs[..n];
    forall i | 0 <= i < |p| ensures Answers(code(p[..i]), p[i]) {
      assert p[..i] == obs[..i];
    }
  }

  lemma FeasibleSnoc(code: Code, obs: seq<Obs>, o: Obs)
    requires Feasible(code, obs) && Answers(code(obs), o)
    ensures Feasible(code, obs + [o])
  {
    var all := obs + [o];
    forall i | 0 <= i < |all| ensures Answers(code(all[..i]), all[i]) {
      if i < |obs| {
        assert all[..i] == obs[..i];
      } else {
        assert all[..i] == obs;
      }
    }
  }

  lemma {:induction false} RecordedFeasible(code: Code, obs: seq<Obs>, j: seq<Entry>)
    requires Recorded(code, obs, j)
    ensures Feasible(code, obs)
  {
    if obs != [] {
      var before, o := obs[..|obs| - 1], obs[|obs| - 1];
      var j' := j[..if j == [] then 0 else |j| - 1];
      if o.Erred? {
        RecordedFeasible(code, before, j);
      } else if (o.Got? || o.TimedOut?) && code(before).timeout > 0 {
        RecordedFeasible(code, before, j'[..|j'| - 1]);
      } else {
        RecordedFeasible(code, before, j');
      }
      FeasibleSnoc(code, before, o);
      assert before + [o] == obs;
    }
  }

  // ---- the relation and the function agree ----

  /** At one history, looking at errors makes no difference to positional matching. */
  predicate BlindAt(code: Code, obs: seq<Obs>) {
    Ends(code(obs)) || ShapeOf(code(obs)) == ShapeOf(code(Erase(obs)))
  }

  predicate BlindBelow(code: Code, obs: seq<Obs>) {
    forall i | 0 <= i < |obs| :: BlindAt(code, obs[..i])
  }

  lemma BlindBelowPrefix(code: Code, obs: seq<Obs>)
    requires obs != [] && BlindBelow(code, obs)
    ensures BlindBelow(code, obs[..|obs| - 1]) && BlindAt(code, obs[..|obs| - 1])
  {
    var p := obs[..|obs| - 1];
    forall i | 0 <= i < |p| ensures BlindAt(code, p[..i]) {
      assert p[..i] == obs[..i];
    }
  }

  lemma BlindBelowHolds(code: Code, obs: seq<Obs>)
    requires Feasible(code, obs)
    requires ErrorBlind(code) || !HasErr(obs)
    ensures BlindBelow(code, obs)
  {
    forall i | 0 <= i < |obs| ensures BlindAt(code, obs[..i]) {
      FeasiblePrefix(code, obs, i);
      if !HasErr(obs) {
        assert forall m | 0 <= m < i :: obs[..i][m] == obs[m];
        EraseClean(obs[..i]);
      }
    }
  }

  lemma WalkSnoc(code: Code, j: seq<Entry>, e: Entry)
    ensures Walk(code, j + [e]) == Advance(code, Walk(code, j), e)
  {
    var all := j + [e];
    assert all[..|all| - 1] == j && all[|all| - 1] == e;
  }

  lemma SameShape(p: Op, q: Op)
    requires ShapeOf(p) == ShapeOf(q)
    ensures p.Exec? == q.Exec? && p.Sleep? == q.Sleep? && p.Await? == q.Await? && p.Return? == q.Return?
    ensures p.Await? ==> (p.timeout > 0 <==> q.timeout > 0)
  {
  }

  lemma {:induction false} RecordedWalk(code: Code, obs: seq<Obs>, j: seq<Entry>)
    requires Recorded(code, obs, j) && BlindBelow(code, obs)
    ensures Walk(code, j) == Ready(Erase(obs))
    decreases |obs|, 0
  {
    if obs != [] {
      var before, o := obs[..|obs| - 1], obs[|obs| - 1];
      assert obs == before + [o];
      BlindBelowPrefix(code, obs);
      EraseSnoc(before, o);
      if o.Erred? {
        RecordedWalk(code, before, j);
      } else {
        var j', e := j[..|j| - 1], j[|j| - 1];
        SameShape(code(before), code(Erase(before)));
        if o.Ran? || o.Slept? {
          RecordedWalk(code, before, j');
        } else {
          RecordedDeadlineWalk(code, before, j');
        }
      }
    }
  }

  lemma {:induction false} RecordedDeadlineWalk(code: Code, obs: seq<Obs>, j: seq<Entry>)
    requires RecordedDeadline(code, obs, j) && BlindBelow(code, obs) && BlindAt(code, obs) && code(obs).Await?
    ensures Walk(code, j) == if code(obs).timeout > 0 then Deadlined(Erase(obs), DecodeTime(j[|j| - 1].payload).value)
                             else Ready(Erase(obs))
    decreases |obs|, 1
  {
    if code(obs).timeout > 0 {
      RecordedWalk(code, obs, j[..|j| - 1]);
      SameShape(code(obs), code(Erase(obs)));
    } else {
      RecordedWalk(code, obs, j);
    }
  }

  /** The walk reads back exactly what was recorded; deadlines and returns included. */
  lemma {:induction false} WalkRecorded(code: Code, j: seq<Entry>)
    ensures Walk(code, j).Ready? ==> !HasErr(Walk(code, j).obs) && Recorded(code, Walk(code, j).obs, j)
    ensures Walk(code, j).Deadlined? ==>
              && !HasErr(Walk(code, j).obs) && RecordedDeadline(code, Walk(code, j).obs, j)
                && code(Walk(code, j).obs).Await?
              && code(Walk(code, j).obs).timeout > 0 && DecodeTime(j[|j| - 1].payload) == Some(Walk(code, j).dl)
    ensures Walk(code, j).Closed? ==>
              && j != [] && !HasErr(Walk(code, j).obs) && code(Walk(code, j).obs).Return?
              && Recorded(code, Walk(code, j).obs, j[..|j| - 1])
              && j[|j| - 1].kind == KindReturn && j[|j| - 1].payload == Walk(code, j).out
  {
    if j != [] {
      var j', e := j[..|j| - 1], j[|j| - 1];
      WalkRecorded(code, j');
      var w, w' := Walk(code, j'), Walk(code, j);
      if w'.Ready? {
        var o := w'.obs[|w'.obs| - 1];
        assert w'.obs == w.obs + [o];
        HasErrSnoc(w.obs, o);
        assert j'[..|j'|] == j';
        RecordedSnoc(code, w.obs, o, j);
      }
    }
  }

  /**
   * A journal has one reading: an error-free history is recorded by it if and only if it is what the walk yields.
   */
  lemma RecordedIffWalk(code: Code, obs: seq<Obs>, j: seq<Entry>)
    requires !HasErr(obs)
    ensures Recorded(code, obs, j) <==> Walk(code, j) == Ready(obs)
  {
    if Recorded(code, obs, j) {
      RecordedFeasible(code, obs, j);
      BlindBelowHolds(code, obs);
      RecordedWalk(code, obs, j);
      EraseClean(obs);
    }
    WalkRecorded(code, j);
  }

  lemma {:induction false} LostStays(code: Code, j: seq<Entry>, n: nat)
    requires n <= |j| && Walk(code, j[..n]) == Lost
    ensures Walk(code, j) == Lost
  {
    if n < |j| {
      assert j[..|j| - 1][..n] == j[..n];
      LostStays(code, j[..|j| - 1], n);
    } else {
      assert j[..n] == j;
    }
  }

  // ---- where an attempt stands in its own journal ----

  /** The walk over what an attempt has consumed, for code that is blind to the errors it has seen. */
  lemma StandsAt(code: Code, k: Kernel)
    requires Faithful(code, k) && (ErrorBlind(code) || !HasErr(k.obs))
    ensures k.phase.Call? || k.phase.Calling? ==> Walk(code, k.journal[..k.cursor]) == Ready(Erase(k.obs))
    ensures k.phase.Appending? ==> k.journal[..k.cursor] == k.journal && Walk(code, k.journal + [k.phase.e]) != Lost
    ensures k.phase.Appending? ==> Walk(code, k.journal).Ready? || Walk(code, k.journal).Deadlined?
    ensures k.phase.Deciding? || k.phase.Fetching? || k.phase.Timing? ==>
              Walk(code, k.journal[..k.cursor]) ==
                if k.awaitDl.At? then Deadlined(Erase(k.obs), k.awaitDl.t) else Ready(Erase(k.obs))
    ensures k.phase.Napping? ==> Walk(code, k.journal[..k.cursor]) == Ready(Erase(k.obs) + [Slept])
    ensures k.phase.Acking? ==> Walk(code, k.journal[..k.cursor]) == Ready(Erase(k.obs) + [Got(k.phase.p)])
  {
    var j := k.journal[..k.cursor];
    match k.phase
    case Call => StandsReady(code, k, k.obs, j);
    case Calling(_) =>
      assert j == k.journal;
      StandsReady(code, k, k.obs, j);
    case Appending(e) => StandsAppending(code, k);
    case Napping(_) =>
      HasErrSnoc(k.obs, Slept);
      EraseSnoc(k.obs, Slept);
      StandsReady(code, k, k.obs + [Slept], j);
    case Acking(p) =>
      assert j == k.journal;
      HasErrSnoc(k.obs, Got(p));
      EraseSnoc(k.obs, Got(p));
      StandsReady(code, k, k.obs + [Got(p)], j);
    case Ended(_) =>
    case _ => StandsInAwait(code, k);
  }

  lemma StandsReady(code: Code, k: Kernel, obs: seq<Obs>, j: seq<Entry>)
    requires Recorded(code, obs, j) && (ErrorBlind(code) || !HasErr(obs))
    ensures Walk(code, j) == Ready(Erase(obs))
  {
    RecordedFeasible(code, obs, j);
    BlindBelowHolds(code, obs);
    RecordedWalk(code, obs, j);
  }

  lemma AwaitFeasible(code: Code, obs: seq<Obs>, j: seq<Entry>)
    requires RecordedDeadline(code, obs, j)
    ensures Feasible(code, obs)
  {
    if code(obs).Await? && code(obs).timeout > 0 {
      RecordedFeasible(code, obs, j[..|j| - 1]);
    } else {
      RecordedFeasible(code, obs, j);
    }
  }

  lemma BlindAtHolds(code: Code, obs: seq<Obs>)
    requires Feasible(code, obs) && (ErrorBlind(code) || !HasErr(obs))
    ensures BlindAt(code, obs)
  {
    if !HasErr(obs) {
      EraseClean(obs);
    }
  }

  lemma StandsInAwait(code: Code, k: Kernel)
    requires AwaitOpen(code, k) && (ErrorBlind(code) || !HasErr(k.obs))
    ensures Walk(code, k.journal[..k.cursor]) ==
            if k.awaitDl.At? then Deadlined(Erase(k.obs), k.awaitDl.t) else Ready(Erase(k.obs))
  {
    var j := k.journal[..k.cursor];
    AwaitFeasible(code, k.obs, j);
    BlindBelowHolds(code, k.obs);
    BlindAtHolds(code, k.obs);
    RecordedDeadlineWalk(code, k.obs, j);
  }

  lemma StandsAppending(code: Code, k: Kernel)
    requires Faithful(code, k) && k.phase.Appending? && (ErrorBlind(code) || !HasErr(k.obs))
    ensures k.journal[..k.cursor] == k.journal && Walk(code, k.journal + [k.phase.e]) != Lost
    ensures Walk(code, k.journal).Ready? || Walk(code, k.journal).Deadlined?
  {
    var e := k.phase.e;
    assert k.journal[..k.cursor] == k.journal;
    WalkSnoc(code, k.journal, e);
    if e.kind == KindAwait || e.kind == KindAwaitTimeout {
      StandsInAwait(code, k);
      AwaitFeasible(code, k.obs, k.journal);
    } else {
      StandsReady(code, k, k.obs, k.journal);
      RecordedFeasible(code, k.obs, k.journal);
    }
    BlindAtHolds(code, k.obs);
    SameShape(code(k.obs), code(Erase(k.obs)));
  }
}
