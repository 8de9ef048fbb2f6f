/** Exactly which business code may be re-executed: the law and its converse. */
module Exactness {
  import opened Model
  import opened Program
  import opened Kernel
  import opened Worlds
  import opened Replay

  /** The journal after a number of attempts, each cut off (by its end or by a crash) where its script stops. */
  function Journal(code: Code, runs: seq<seq<Answer>>): seq<Entry> {
    if runs == [] then []
    else KRun(code, Fresh(Journal(code, runs[..|runs| - 1])), runs[|runs| - 1]).journal
  }

  /** The attempt ran to an end of its own: it was not suspended and no store operation failed. */
  predicate RanToEnd(k: Kernel) {
    k.phase.Ended? && (k.phase.o.Finished? || k.phase.o.Returned? || k.phase.o.Broke? || k.phase.o.Mismatch?)
  }

  /**
   * However often the run is cut off and started again, an attempt that comes to an end has met every
   * recorded entry; in particular none stops on a mismatch.
   */
  ghost predicate ReplaySafe(code: Code) {
    forall runs, script ::
      var k := KRun(code, Fresh(Journal(code, runs)), script);
      RanToEnd(k) ==> k.cursor == |k.journal|
  }

  // ---- error-blind code is replay safe ----

  lemma StepHealthy(code: Code, k: Kernel, a: Answer)
    requires Faithful(code, k) && (ErrorBlind(code) || !HasErr(k.obs)) && Walk(code, k.journal) != Lost
    ensures Walk(code, KStep(code, k, a).journal) != Lost
  {
    if k.phase.Appending? {
      StandsAt(code, k);
    }
  }

  lemma {:induction false} RunHealthy(code: Code, j: seq<Entry>, script: seq<Answer>)
    requires ErrorBlind(code) && Walk(code, j) != Lost
    ensures Walk(code, KRun(code, Fresh(j), script).journal) != Lost
  {
    if script != [] {
      var s := script[..|script| - 1];
      RunHealthy(code, j, s);
      RunFaithful(code, j, s);
      StepHealthy(code, KRun(code, Fresh(j), s), script[|script| - 1]);
    }
  }

  lemma {:induction false} JournalHealthy(code: Code, runs: seq<seq<Answer>>)
    requires ErrorBlind(code)
    ensures Walk(code, Journal(code, runs)) != Lost
  {
    if runs != [] {
      JournalHealthy(code, runs[..|runs| - 1]);
      RunHealthy(code, Journal(code, runs[..|runs| - 1]), runs[|runs| - 1]);
    }
  }

  lemma WalkStep(code: Code, j: seq<Entry>, n: nat)
    requires n < |j|
    ensures Walk(code, j[..n + 1]) == Advance(code, Walk(code, j[..n]), j[n])
  {
    assert j[..n + 1] == j[..n] + [j[n]];
    WalkSnoc(code, j[..n], j[n]);
  }

  /** The entry after a readable prefix must be one the code could have written. */
  lemma NextFits(code: Code, j: seq<Entry>, n: nat)
    requires n < |j| && Walk(code, j) != Lost
    ensures Advance(code, Walk(code, j[..n]), j[n]) != Lost
  {
    ReadablePrefix(code, j, n + 1);
    WalkStep(code, j, n);
  }

  lemma ReadablePrefix(code: Code, j: seq<Entry>, n: nat)
    requires n <= |j| && Walk(code, j) != Lost
    ensures Walk(code, j[..n]) != Lost
  {
    if Walk(code, j[..n]) == Lost {
      LostStays(code, j, n);
    }
  }

  /** An attempt over a journal its code could have written leaves nothing unread when it ends. */
  lemma EndsRead(code: Code, k: Kernel)
    requires Faithful(code, k) && RanToEnd(k) && Walk(code, k.journal) != Lost
    ensures k.cursor == |k.journal| && !k.phase.o.Mismatch?
  {
    if k.cursor < |k.journal| {
      var n := k.cursor;
      NextFits(code, k.journal, n);
      EraseClean(k.obs);
      match k.phase.o
      case Finished => StandsReady(code, k, k.obs, k.journal[..n]);
      case Mismatch =>
        if AwaitOpen(code, k) {
          StandsInAwait(code, k);
        }
        if Recorded(code, k.obs, k.journal[..n]) {
          StandsReady(code, k, k.obs, k.journal[..n]);
        }
      case Returned => EndsReadBehind(code, k);
      case Broke(e) =>
        if code(k.obs) == Raise(e) && Recorded(code, k.obs, k.journal[..n]) {
          StandsReady(code, k, k.obs, k.journal[..n]);
        } else {
          EndsReadBehind(code, k);
        }
    }
  }

  lemma EndsReadBehind(code: Code, k: Kernel)
    requires 0 < k.cursor < |k.journal| && !HasErr(k.obs) && Recorded(code, k.obs, k.journal[..k.cursor - 1])
    requires var w := Advance(code, Ready(k.obs), k.journal[k.cursor - 1]); w.Closed? || w == Lost
    ensures Walk(code, k.journal) == Lost
  {
    var n := k.cursor;
    EraseClean(k.obs);
    StandsReady(code, k, k.obs, k.journal[..n - 1]);
    WalkStep(code, k.journal, n - 1);
    WalkStep(code, k.journal, n);
    LostStays(code, k.journal, n + 1);
  }

  lemma BlindIsSafe(code: Code)
    requires ErrorBlind(code)
    ensures ReplaySafe(code)
  {
    forall runs, script | RanToEnd(KRun(code, Fresh(Journal(code, runs)), script))
      ensures var k := KRun(code, Fresh(Journal(code, runs)), script); k.cursor == |k.journal|
    {
      JournalHealthy(code, runs);
      RunHealthy(code, Journal(code, runs), script);
      RunFaithful(code, Journal(code, runs), script);
      EndsRead(code, KRun(code, Fresh(Journal(code, runs)), script));
    }
  }

  // ---- driving an attempt to a chosen history ----

  function Say(now: Time, fn: FnResult, tag: string, slot: Option<Payload>): Answer {
    Answer(now, fn, Some(""), tag, true, true, true, false, slot)
  }

  lemma Then(code: Code, k: Kernel, s: seq<Answer>, a: Answer)
    ensures KRun(code, k, s + [a]) == KStep(code, KRun(code, k, s), a)
  {
    var all := s + [a];
    assert all[..|all| - 1] == s && all[|all| - 1] == a;
  }

  function Fold<S, A>(f: (S, A) -> S, s: S, xs: seq<A>): S {
    if xs == [] then s else f(Fold(f, s, xs[..|xs| - 1]), xs[|xs| - 1])
  }

  lemma {:induction false} FoldAppend<S, A>(f: (S, A) -> S, s: S, xs: seq<A>, ys: seq<A>)
    ensures Fold(f, s, xs + ys) == Fold(f, Fold(f, s, xs), ys)
  {
    if ys == [] {
      assert xs + ys == xs;
    } else {
      FoldAppend(f, s, xs, ys[..|ys| - 1]);
      assert (xs + ys)[..|xs + ys| - 1] == xs + ys[..|ys| - 1];
    }
  }

  function StepOf(code: Code): (Kernel, Answer) -> Kernel {
    (k, a) => KStep(code, k, a)
  }

  lemma {:induction false} RunIsFold(code: Code, k: Kernel, s: seq<Answer>)
    ensures KRun(code, k, s) == Fold(StepOf(code), k, s)
  {
    if s != [] {
      RunIsFold(code, k, s[..|s| - 1]);
    }
  }

  lemma RunAppend(code: Code, k: Kernel, s: seq<Answer>, t: seq<Answer>)
    ensures KRun(code, k, s + t) == KRun(code, KRun(code, k, s), t)
  {
    RunIsFold(code, k, s + t);
    RunIsFold(code, k, s);
    RunIsFold(code, KRun(code, k, s), t);
    FoldAppend(StepOf(code), k, s, t);
  }

  /** The entries that one result of `op` leaves behind when it is obtained for the first time. */
  predicate Emits(op: Op, o: Obs, es: seq<Entry>) {
    && Answers(op, o)
    && var timed := op.Await? && op.timeout > 0;
       match o
       case Ran(v) => |es| == 1 && es[0].kind == KindExec && es[0].payload == Data(v)
       case Erred(_) => es == []
       case Slept => |es| == 1 && es[0].kind == KindSleep && es[0].payload.Instant?
       case Got(p) =>
         if timed then
           && |es| == 2 && es[0].kind == KindAwaitDeadline && es[0].payload.Instant?
           && es[1].kind == KindAwait && es[1].payload == p
         else |es| == 1 && es[0].kind == KindAwait && es[0].payload == p
       case TimedOut =>
         && |es| == 2 && es[0].kind == KindAwaitDeadline && es[0].payload.Instant?
         && es[1].kind == KindAwaitTimeout && es[1].payload == Empty
  }

  /** The attempt stands at the end of its journal, about to call the next primitive. */
  predicate AtEnd(k: Kernel) {
    k.phase.Call? && k.cursor == |k.journal|
  }

  predicate Extends(k: Kernel, k': Kernel, o: Obs, es: seq<Entry>) {
    AtEnd(k') && k'.obs == k.obs + [o] && k'.journal == k.journal + es
  }

  // ---- scripts under a clock that does not go back ----

  /** The clock readings of a script never go back: they start at `lo` or later and end at `hi` or earlier. */
  predicate Clocked(s: seq<Answer>, lo: Time, hi: Time) {
    if s == [] then lo <= hi else Clocked(s[..|s| - 1], lo, s[|s| - 1].now) && s[|s| - 1].now <= hi
  }

  lemma ClockedSnoc(s: seq<Answer>, a: Answer, lo: Time)
    requires Clocked(s, lo, a.now)
    ensures Clocked(s + [a], lo, a.now)
  {
    assert (s + [a])[..|s + [a]| - 1] == s;
  }

  lemma {:induction false} ClockedAppend(s: seq<Answer>, t: seq<Answer>, lo: Time, mid: Time, hi: Time)
    requires Clocked(s, lo, mid) && Clocked(t, mid, hi)
    ensures Clocked(s + t, lo, hi)
  {
    if t == [] {
      assert s + t == s;
    } else {
      ClockedAppend(s, t[..|t| - 1], lo, mid, t[|t| - 1].now);
      assert (s + t)[..|s + t| - 1] == s + t[..|t| - 1];
    }
  }

  lemma {:induction false} ClockedConstant(s: seq<Answer>, c: Time)
    requires forall a | a in s :: a.now == c
    ensures Clocked(s, c, c)
  {
    if s != [] {
      ClockedConstant(s[..|s| - 1], c);
    }
  }

  function Max(a: Time, b: Time): Time {
    if a < b then b else a
  }

  /** The deadline among the entries is not one that would have had to be computed before `h`. */
  predicate Punctual(op: Op, es: seq<Entry>, h: Time) {
    match op
    case Sleep(d) => es != [] && es[0].payload.Instant? && h <= es[0].payload.t - d
    case Await(_, timeout) => timeout > 0 ==> es != [] && es[0].payload.Instant? && h <= es[0].payload.t - timeout
    case _ => true
  }

  /** When the result can be had, the primitive being called at `h`. */
  function HadAt(op: Op, o: Obs, es: seq<Entry>, h: Time): Time
    requires Punctual(op, es, h)
  {
    match op
    case Sleep(d) => Max(es[0].payload.t - d, es[0].payload.t)
    case Await(_, timeout) =>
      if timeout <= 0 then h else if o.TimedOut? then es[0].payload.t else es[0].payload.t - timeout
    case _ => h
  }

  lemma HonestAppend(w: World, code: Code, k: Kernel, s: seq<Answer>, t: seq<Answer>)
    requires HonestRun(w, code, k, s) && HonestRun(w, code, KRun(code, k, s), t)
    ensures HonestRun(w, code, k, s + t)
  {
    forall i | 0 <= i < |s + t| ensures Honest(w, code, KRun(code, k, (s + t)[..i]), (s + t)[i]) {
      if i < |s| {
        assert (s + t)[..i] == s[..i];
      } else {
        assert (s + t)[..i] == s + t[..i - |s|];
        RunAppend(code, k, s, t[..i - |s|]);
      }
    }
  }

  /**
   * The world can make the primitive at the end of the journal give any result it can give: honestly if the
   * result is one of its own, and without turning the clock back if the entries allow it.
   */
  lemma DriveOne(w: World, code: Code, k: Kernel, o: Obs, es: seq<Entry>, h: Time) returns (s: seq<Answer>)
    requires AtEnd(k) && Emits(code(k.obs), o, es)
    ensures Extends(k, KRun(code, k, s), o, es)
    ensures Punctual(code(k.obs), es, h) ==> Clocked(s, h, HadAt(code(k.obs), o, es, h))
    ensures Honours(w, code(k.obs), o) ==> HonestRun(w, code, k, s)
  {
    match o
    case Ran(_) => s := DriveExec(w, code, k, o, es, h);
    case Erred(_) => s := DriveExec(w, code, k, o, es, h);
    case Slept => s := DriveSleep(w, code, k, es, h);
    case _ => s := DriveAwait(w, code, k, o, es, h);
  }

  lemma DriveExec(w: World, code: Code, k: Kernel, o: Obs, es: seq<Entry>, h: Time) returns (s: seq<Answer>)
    requires AtEnd(k) && Emits(code(k.obs), o, es) && code(k.obs).Exec?
    ensures Extends(k, KRun(code, k, s), o, es) && Clocked(s, h, h)
    ensures Honours(w, code(k.obs), o) ==> HonestRun(w, code, k, s)
  {
    var tag := if es == [] then "" else es[0].tag;
    var a := Say(h, if o.Ran? then FnOk(o.v) else FnUnencodable(o.e), tag, None);
    Then(code, k, [], a);
    Then(code, k, [a], a);
    s := [a] + [a];
    if Honours(w, code(k.obs), o) {
      HonestSnoc(w, code, k, [], a);
      assert [] + [a] == [a];
      HonestSnoc(w, code, k, [a], a);
    }
    if o.Ran? {
      Then(code, k, [a] + [a], a);
      if Honours(w, code(k.obs), o) {
        HonestSnoc(w, code, k, s, a);
      }
      s := [a] + [a] + [a];
      assert es == [es[0]];
    }
    assert k.journal + [] == k.journal;
    ClockedConstant(s, h);
  }

  lemma DriveSleep(w: World, code: Code, k: Kernel, es: seq<Entry>, h: Time) returns (s: seq<Answer>)
    requires AtEnd(k) && Emits(code(k.obs), Slept, es)
    ensures Extends(k, KRun(code, k, s), Slept, es) && HonestRun(w, code, k, s)
    ensures Punctual(code(k.obs), es, h) ==> Clocked(s, h, HadAt(code(k.obs), Slept, es, h))
  {
    var t := es[0].payload.t;
    var a := Say(t - code(k.obs).d, FnOk(""), es[0].tag, None);
    var b := Say(Max(t - code(k.obs).d, t), FnOk(""), "", None);
    assert es == [es[0]];
    var k1 := k.(phase := Appending(es[0]));
    var k2 := k.(journal := k.journal + es, cursor := |k.journal| + 1, sleepDl := At(t), phase := Napping(t));
    s := [a, b, b];
    Three(w, code, k, k1, k2, See(k2, Slept), a, b);
    if Punctual(code(k.obs), es, h) {
      ClockedSnoc([], a, h);
      ClockedSnoc([a], b, h);
      ClockedSnoc([a, b], b, h);
      assert [] + [a] == [a] && [a] + [b] == [a, b] && [a, b] + [b] == s;
    }
  }

  lemma Three(w: World, code: Code, k: Kernel, k1: Kernel, k2: Kernel, k3: Kernel, a: Answer, b: Answer)
    requires KStep(code, k, a) == k1 && KStep(code, k1, b) == k2 && KStep(code, k2, b) == k3
    requires Honest(w, code, k, a) && Honest(w, code, k1, b) && Honest(w, code, k2, b)
    ensures KRun(code, k, [a, b, b]) == k3 && HonestRun(w, code, k, [a, b, b])
  {
    assert [] + [a] == [a] && [a] + [b] == [a, b] && [a, b] + [b] == [a, b, b];
    Then(code, k, [], a);
    Then(code, k, [a], b);
    Then(code, k, [a, b], b);
    HonestSnoc(w, code, k, [], a);
    HonestSnoc(w, code, k, [a], b);
    HonestSnoc(w, code, k, [a, b], b);
  }

  lemma DriveAwait(w: World, code: Code, k: Kernel, o: Obs, es: seq<Entry>, h: Time) returns (s: seq<Answer>)
    requires AtEnd(k) && Emits(code(k.obs), o, es) && code(k.obs).Await?
    ensures Extends(k, KRun(code, k, s), o, es)
    ensures Punctual(code(k.obs), es, h) ==> Clocked(s, h, HadAt(code(k.obs), o, es, h))
    ensures Honours(w, code(k.obs), o) ==> HonestRun(w, code, k, s)
  {
    var timed, last := code(k.obs).timeout > 0, es[|es| - 1];
    var c := if timed then es[0].payload.t - code(k.obs).timeout else h;
    var opening := if timed then [es[0]] else [];
    assert es == opening + [last];
    s := OpenAwait(w, code, k, opening, c);
    var mid := KRun(code, k, s);
    assert mid.journal + [last] == k.journal + es;
    var slot := if o.Got? then Some(o.p) else None;
    var b := Say(if o.TimedOut? then es[0].payload.t else c, FnOk(""), last.tag, slot);
    if o.Got? {
      DriveSignal(w, code, mid, last, b);
    } else {
      DriveTimeout(w, code, mid, last, b);
    }
    RunAppend(code, k, s, [b, b, b, b]);
    if Honours(w, code(k.obs), o) {
      HonestAppend(w, code, k, s, [b, b, b, b]);
    }
    AwaitClocked(s, c, b, h);
    s := s + [b, b, b, b];
  }

  /** An Await up to where it looks for a decision. */
  lemma OpenAwait(w: World, code: Code, k: Kernel, es: seq<Entry>, c: Time) returns (s: seq<Answer>)
    requires AtEnd(k) && code(k.obs).Await?
    requires if code(k.obs).timeout > 0
             then |es| == 1 && es[0].kind == KindAwaitDeadline && es[0].payload == Instant(c + code(k.obs).timeout)
             else es == []
    ensures Clocked(s, c, c) && HonestRun(w, code, k, s)
    ensures KRun(code, k, s) ==
            k.(journal := k.journal + es, cursor := |k.journal| + |es|, phase := Deciding,
               awaitDl := if es == [] then NoDeadline else At(es[0].payload.t))
  {
    var a := Say(c, FnOk(""), if es == [] then "" else es[0].tag, None);
    if code(k.obs).timeout > 0 {
      assert es == [es[0]];
      var k1 := k.(phase := Appending(es[0]));
      One(code, k, k1, a);
      One(code, k1, KStep(code, k1, a), a);
      Two(code, k, k1, KStep(code, k1, a), a);
      HonestTwo(w, code, k, k1, a);
      s := [a, a];
    } else {
      assert k.journal + es == k.journal;
      One(code, k, KStep(code, k, a), a);
      s := [a];
    }
    ClockedConstant(s, c);
  }

  lemma HonestTwo(w: World, code: Code, k: Kernel, k1: Kernel, a: Answer)
    requires KStep(code, k, a) == k1 && Honest(w, code, k, a) && Honest(w, code, k1, a)
    ensures HonestRun(w, code, k, [a, a])
  {
    assert [] + [a] == [a] && [a] + [a] == [a, a];
    Then(code, k, [], a);
    HonestSnoc(w, code, k, [a], a);
    HonestSnoc(w, code, k, [], a);
  }

  lemma AwaitClocked(s: seq<Answer>, c: Time, b: Answer, h: Time)
    requires Clocked(s, c, c) && c <= b.now
    ensures h <= c ==> Clocked(s + [b, b, b, b], h, b.now)
  {
    ClockedConstant([b, b, b, b], b.now);
    if h <= c {
      assert Clocked([], h, c);
      ClockedAppend([], s, h, c, c);
      assert [] + s == s;
      ClockedWiden([b, b, b, b], b.now, b.now, c);
      ClockedAppend(s, [b, b, b, b], h, c, b.now);
    }
  }

  lemma {:induction false} ClockedWiden(s: seq<Answer>, lo: Time, hi: Time, lo': Time)
    requires Clocked(s, lo, hi) && lo' <= lo
    ensures Clocked(s, lo', hi)
  {
    if s != [] {
      ClockedWiden(s[..|s| - 1], lo, s[|s| - 1].now, lo');
    }
  }

  lemma One(code: Code, k: Kernel, k1: Kernel, b: Answer)
    requires KStep(code, k, b) == k1
    ensures KRun(code, k, [b]) == k1
  {
    assert [b][..0] == [];
  }

  lemma Two(code: Code, k: Kernel, k1: Kernel, k2: Kernel, b: Answer)
    requires KRun(code, k, [b]) == k1 && KRun(code, k1, [b]) == k2
    ensures KRun(code, k, [b, b]) == k2
  {
    RunAppend(code, k, [b], [b]);
    assert [b] + [b] == [b, b];
  }

  lemma Four(code: Code, k: Kernel, k2: Kernel, k4: Kernel, b: Answer)
    requires KRun(code, k, [b, b]) == k2 && KRun(code, k2, [b, b]) == k4
    ensures KRun(code, k, [b, b, b, b]) == k4
  {
    RunAppend(code, k, [b, b], [b, b]);
    assert [b, b] + [b, b] == [b, b, b, b];
  }

  lemma HonestFour(w: World, code: Code, k: Kernel, k1: Kernel, k2: Kernel, k3: Kernel, b: Answer)
    requires KStep(code, k, b) == k1 && KStep(code, k1, b) == k2 && KStep(code, k2, b) == k3
    requires Honest(w, code, k, b) && Honest(w, code, k1, b) && Honest(w, code, k2, b) && Honest(w, code, k3, b)
    ensures HonestRun(w, code, k, [b, b, b, b])
  {
    assert [] + [b] == [b] && [b] + [b] == [b, b] && [b, b] + [b] == [b, b, b] && [b, b, b] + [b] == [b, b, b, b];
    Then(code, k, [], b);
    HonestSnoc(w, code, k, [], b);
    Then(code, k, [b], b);
    HonestSnoc(w, code, k, [b], b);
    Then(code, k, [b, b], b);
    HonestSnoc(w, code, k, [b, b], b);
    HonestSnoc(w, code, k, [b, b, b], b);
  }

  lemma DriveSignal(w: World, code: Code, k: Kernel, e: Entry, b: Answer)
    requires k.phase.Deciding? && k.cursor == |k.journal| && code(k.obs).Await? && e.kind == KindAwait
    requires b == Say(b.now, FnOk(""), e.tag, Some(e.payload))
    ensures Extends(k, KRun(code, k, [b, b, b, b]), Got(e.payload), [e])
    ensures w.sends(code(k.obs).sig, e.payload) ==> HonestRun(w, code, k, [b, b, b, b])
  {
    assert e == Entry(KindAwait, e.tag, e.payload);
    var k1 := k.(phase := Fetching);
    var k2 := k.(phase := Appending(e));
    One(code, k, k1, b);
    One(code, k1, k2, b);
    Two(code, k, k1, k2, b);
    var k3 := k.(journal := k.journal + [e], cursor := |k.journal| + 1, phase := Acking(e.payload));
    One(code, k2, k3, b);
    One(code, k3, See(k3, Got(e.payload)), b);
    Two(code, k2, k3, See(k3, Got(e.payload)), b);
    Four(code, k, k2, See(k3, Got(e.payload)), b);
    if w.sends(code(k.obs).sig, e.payload) {
      HonestFour(w, code, k, k1, k2, k3, b);
    }
  }

  lemma DriveTimeout(w: World, code: Code, k: Kernel, e: Entry, b: Answer)
    requires k.phase.Deciding? && k.cursor == |k.journal| && code(k.obs).Await? && code(k.obs).timeout > 0
    requires e == Entry(KindAwaitTimeout, e.tag, Empty) && k.awaitDl.At? && b.now >= k.awaitDl.t
    requires b == Say(b.now, FnOk(""), e.tag, None)
    ensures Extends(k, KRun(code, k, [b, b, b, b]), TimedOut, [e])
    ensures HonestRun(w, code, k, [b, b, b, b])
  {
    var k1 := k.(phase := Fetching);
    var k2 := k.(phase := Timing);
    One(code, k, k1, b);
    One(code, k1, k2, b);
    Two(code, k, k1, k2, b);
    var k3 := k.(phase := Appending(e));
    var k4 := See(k.(journal := k.journal + [e], cursor := |k.journal| + 1), TimedOut);
    One(code, k2, k3, b);
    One(code, k3, k4, b);
    Two(code, k2, k3, k4, b);
    Four(code, k, k2, k4, b);
    HonestFour(w, code, k, k1, k2, k3, b);
  }

  /** Some entries for one result. */
  function SampleOne(op: Op, o: Obs): seq<Entry> {
    var dl := if op.Await? && op.timeout > 0 then [Entry(KindAwaitDeadline, "", Instant(0))] else [];
    match o
    case Ran(v) => [Entry(KindExec, "", Data(v))]
    case Erred(_) => []
    case Slept => [Entry(KindSleep, "", Instant(0))]
    case Got(p) => dl + [Entry(KindAwait, "", p)]
    case TimedOut => dl + [Entry(KindAwaitTimeout, "", Empty)]
  }

  lemma SampleEmits(op: Op, o: Obs)
    requires Answers(op, o)
    ensures Emits(op, o, SampleOne(op, o))
  {
  }

  lemma DriveOn(w: World, code: Code, s: seq<Answer>, o: Obs, es: seq<Entry>, lo: Time, h: Time)
    returns (s': seq<Answer>)
    requires AtEnd(KRun(code, Fresh([]), s)) && Emits(code(KRun(code, Fresh([]), s).obs), o, es)
    ensures Extends(KRun(code, Fresh([]), s), KRun(code, Fresh([]), s'), o, es)
    ensures var op := code(KRun(code, Fresh([]), s).obs);
            Clocked(s, lo, h) && Punctual(op, es, h) ==> Clocked(s', lo, HadAt(op, o, es, h))
    ensures HonestRun(w, code, Fresh([]), s) && Honours(w, code(KRun(code, Fresh([]), s).obs), o)
            ==> HonestRun(w, code, Fresh([]), s')
  {
    var op := code(KRun(code, Fresh([]), s).obs);
    var t := DriveOne(w, code, KRun(code, Fresh([]), s), o, es, h);
    RunAppend(code, Fresh([]), s, t);
    if Clocked(s, lo, h) && Punctual(op, es, h) {
      ClockedAppend(s, t, lo, h, HadAt(op, o, es, h));
    }
    if HonestRun(w, code, Fresh([]), s) && Honours(w, op, o) {
      HonestAppend(w, code, Fresh([]), s, t);
    }
    s' := s + t;
  }

  /** The script takes a first attempt to the end of this history. */
  predicate Arrives(code: Code, s: seq<Answer>, obs: seq<Obs>) {
    var k := KRun(code, Fresh([]), s);
    AtEnd(k) && k.obs == obs
  }

  lemma DriveMore(code: Code, s: seq<Answer>, before: seq<Obs>, o: Obs) returns (s': seq<Answer>)
    requires Answers(code(before), o) && Arrives(code, s, before)
    ensures Arrives(code, s', before + [o])
  {
    SampleEmits(code(before), o);
    s' := DriveOn(ANYTHING, code, s, o, SampleOne(code(before), o), 0, 0);
  }

  lemma {:induction false} DriveAll(code: Code, obs: seq<Obs>) returns (s: seq<Answer>)
    requires Feasible(code, obs)
    ensures Arrives(code, s, obs)
  {
    s := [];
    var n := 0;
    while n < |obs|
      invariant n <= |obs| && Arrives(code, s, obs[..n])
    {
      s := DriveMore(code, s, obs[..n], obs[n]);
      assert obs[..n] + [obs[n]] == obs[..n + 1];
      n := n + 1;
    }
    assert obs[..n] == obs;
  }

  // ---- re-reading a journal ----

  function Look(now: Time): Answer {
    Say(now, FnOk(""), "", None)
  }

  /** Reading on from a recorded result to the next: at most two steps. */
  lemma RereadOne(code: Code, k: Kernel, now: Time) returns (s: seq<Answer>)
    requires k.phase.Call? && k.cursor < |k.journal| && Advance(code, Ready(k.obs), k.journal[k.cursor]).Ready?
    requires k.journal[k.cursor].payload.Instant? ==> k.journal[k.cursor].payload.t <= now
    ensures s == [Look(now)] || s == [Look(now), Look(now)]
    ensures var k' := KRun(code, k, s);
            && k'.phase.Call? && k'.cursor == k.cursor + 1 && k'.journal == k.journal
            && Ready(k'.obs) == Advance(code, Ready(k.obs), k.journal[k.cursor])
  {
    var a := Look(now);
    Then(code, k, [], a);
    Then(code, k, [a], a);
    assert [] + [a] == [a] && [a] + [a] == [a, a];
    s := if code(k.obs).Exec? then [a] else [a, a];
  }

  /** The script takes an attempt to where the first n entries lead. */
  predicate ReadTo(code: Code, j: seq<Entry>, s: seq<Answer>, n: nat)
    requires n <= |j| && (Walk(code, j[..n]).Ready? || Walk(code, j[..n]).Deadlined?)
  {
    var k := KRun(code, Fresh(j), s);
    && k.cursor == n && k.journal == j && k.obs == Walk(code, j[..n]).obs
    && if Walk(code, j[..n]).Ready? then k.phase.Call? else AwaitingDecision(code, k)
  }

  predicate AwaitingDecision(code: Code, k: Kernel) {
    k.phase.Deciding? && code(k.obs).Await? && code(k.obs).timeout > 0
  }

  /** Any journal can be read up to any readable position: the entries alone decide what is observed. */
  lemma {:induction false} Reread(code: Code, j: seq<Entry>, n: nat, now: Time) returns (s: seq<Answer>)
    requires n <= |j| && (Walk(code, j[..n]).Ready? || Walk(code, j[..n]).Deadlined?)
    requires forall i | 0 <= i < n && j[i].payload.Instant? :: j[i].payload.t <= now
    ensures ReadTo(code, j, s, n)
  {
    if n == 0 {
      s := [];
    } else {
      assert j[..n][..n - 1] == j[..n - 1] && j[..n][n - 1] == j[n - 1];
      s := Reread(code, j, n - 1, now);
      s := ReadOn(code, j, s, n - 1, now);
    }
  }

  lemma ReadOn(code: Code, j: seq<Entry>, s: seq<Answer>, m: nat, now: Time) returns (s': seq<Answer>)
    requires m < |j| && (Walk(code, j[..m]).Ready? || Walk(code, j[..m]).Deadlined?) && ReadTo(code, j, s, m)
    requires Walk(code, j[..m + 1]) == Advance(code, Walk(code, j[..m]), j[m])
    requires Walk(code, j[..m + 1]).Ready? || Walk(code, j[..m + 1]).Deadlined?
    requires j[m].payload.Instant? ==> j[m].payload.t <= now
    ensures ReadTo(code, j, s', m + 1)
  {
    var k := KRun(code, Fresh(j), s);
    if Walk(code, j[..m]).Ready? && Walk(code, j[..m + 1]).Ready? {
      var t := RereadOne(code, k, now);
      RunAppend(code, Fresh(j), s, t);
      s' := s + t;
    } else {
      Then(code, Fresh(j), s, Look(now));
      s' := s + [Look(now)];
    }
  }

  // ---- and only error-blind code is ----

  /** The first kind a primitive looks for or writes; None where it looks for none. */
  function FirstKind(op: Op): Option<Kind> {
    match op
    case Exec(_, _) => Some(KindExec)
    case Sleep(_) => Some(KindSleep)
    case Await(_, timeout) => Some(if timeout > 0 then KindAwaitDeadline else KindAwait)
    case Return => Some(KindReturn)
    case _ => None
  }

  lemma FirstOffence(code: Code, obs: seq<Obs>) returns (n: nat)
    requires Feasible(code, obs) && !BlindAt(code, obs)
    ensures n <= |obs| && !BlindAt(code, obs[..n]) && BlindBelow(code, obs[..n])
    decreases |obs|
  {
    if BlindBelow(code, obs) {
      n := |obs|;
      assert obs[..n] == obs;
    } else {
      var i :| 0 <= i < |obs| && !BlindAt(code, obs[..i]);
      FeasiblePrefix(code, obs, i);
      n := FirstOffence(code, obs[..i]);
      assert obs[..i][..n] == obs[..n];
    }
  }

  /** The attempt can make its next primitive write an entry. */
  lemma WriteNext(code: Code, k: Kernel) returns (s: seq<Answer>)
    requires AtEnd(k) && !Ends(code(k.obs))
    ensures var k' := KRun(code, k, s);
            && |k.journal| < |k'.journal| && k'.journal[..|k.journal|] == k.journal
            && FirstKind(code(k.obs)) == Some(k'.journal[|k.journal|].kind)
  {
    if code(k.obs).Return? {
      s := [Look(0)] + [Look(0)];
      Then(code, k, [], Look(0));
      Then(code, k, [Look(0)], Look(0));
    } else {
      var op := code(k.obs);
      var o := if op.Exec? then Ran("") else if op.Sleep? then Slept else Got(Empty);
      s := DriveOne(ANYTHING, code, k, o, SampleOne(op, o), 0);
    }
  }

  /** An entry of a kind the next primitive does not look for stays unread. */
  lemma Trips(code: Code, k: Kernel) returns (s: seq<Answer>)
    requires k.phase.Call? && k.cursor < |k.journal|
    requires FirstKind(code(k.obs)) != Some(k.journal[k.cursor].kind)
    ensures var k' := KRun(code, k, s); RanToEnd(k') && k'.cursor < |k'.journal|
  {
    var a := Look(0);
    Then(code, k, [], a);
    assert [] + [a] == [a];
    s := [a];
    if code(k.obs).Await? && code(k.obs).timeout <= 0 {
      TripsPlainAwait(code, k, KStep(code, k, a), a);
      Then(code, k, [a], a);
      s := [a] + [a];
    } else {
      TripsAtOnce(code, k, a);
    }
  }

  lemma TripsAtOnce(code: Code, k: Kernel, a: Answer)
    requires k.phase.Call? && k.cursor < |k.journal|
    requires FirstKind(code(k.obs)) != Some(k.journal[k.cursor].kind)
    requires !(code(k.obs).Await? && code(k.obs).timeout <= 0)
    ensures var k' := CallStep(code, k, a); RanToEnd(k') && k'.cursor < |k'.journal|
  {
  }

  lemma TripsPlainAwait(code: Code, k: Kernel, k': Kernel, a: Answer)
    requires k.phase.Call? && k.cursor < |k.journal| && code(k.obs).Await? && code(k.obs).timeout <= 0
    requires k.journal[k.cursor].kind != KindAwait && k' == CallStep(code, k, a)
    ensures var k'' := KStep(code, k', a); RanToEnd(k'') && k''.cursor < |k''.journal|
  {
    assert k' == k.(awaitDl := NoDeadline, phase := Deciding);
  }

  function Horizon(j: seq<Entry>): (now: Time)
    ensures forall i | 0 <= i < |j| && j[i].payload.Instant? :: j[i].payload.t <= now
  {
    if j == [] then 0
    else
      var h, e := Horizon(j[..|j| - 1]), j[|j| - 1];
      if e.payload.Instant? && e.payload.t > h then e.payload.t else h
  }

  /** A first attempt can reach `p` and write on; what it wrote before reads as `p` without its errors. */
  lemma OffenderWrites(code: Code, p: seq<Obs>) returns (s: seq<Answer>, m: nat)
    requires Feasible(code, p) && BlindBelow(code, p) && !Ends(code(p))
    ensures var j := KRun(code, Fresh([]), s).journal;
            m < |j| && Walk(code, j[..m]) == Ready(Erase(p)) && FirstKind(code(p)) == Some(j[m].kind)
  {
    s := DriveAll(code, p);
    var k := KRun(code, Fresh([]), s);
    RunFaithful(code, [], s);
    assert k.journal[..k.cursor] == k.journal;
    RecordedWalk(code, p, k.journal);
    var t := WriteNext(code, k);
    RunAppend(code, Fresh([]), s, t);
    s, m := s + t, |k.journal|;
  }

  /** An attempt over a journal with an entry its code does not look for ends with that entry unread. */
  lemma Stranded(code: Code, j: seq<Entry>, m: nat) returns (s: seq<Answer>)
    requires m < |j| && Walk(code, j[..m]).Ready?
    requires FirstKind(code(Walk(code, j[..m]).obs)) != Some(j[m].kind)
    ensures var k := KRun(code, Fresh(j), s); RanToEnd(k) && k.cursor < |k.journal|
  {
    s := Reread(code, j, m, Horizon(j));
    var u := Trips(code, KRun(code, Fresh(j), s));
    RunAppend(code, Fresh(j), s, u);
    s := s + u;
  }

  /** Code that is not error-blind has a run whose re-execution leaves a recorded entry unread. */
  lemma OffenderCaught(code: Code, obs: seq<Obs>)
    requires Feasible(code, obs) && !BlindAt(code, obs)
    ensures !ReplaySafe(code)
  {
    var n := FirstOffence(code, obs);
    FeasiblePrefix(code, obs, n);
    var s, m := OffenderWrites(code, obs[..n]);
    assert [s][..0] == [];
    assert Journal(code, [s]) == KRun(code, Fresh([]), s).journal;
    var t := Stranded(code, Journal(code, [s]), m);
  }

  /** The exact law: re-execution is safe if and only if the business code is blind to failed Executes. */
  lemma ReplaySafeIffErrorBlind(code: Code)
    ensures ReplaySafe(code) <==> ErrorBlind(code)
  {
    if ErrorBlind(code) {
      BlindIsSafe(code);
    } else {
      var obs :| Feasible(code, obs) && !BlindAt(code, obs);
      OffenderCaught(code, obs);
    }
  }

  lemma NeutralIsBlind(code: Code)
    requires ErrorNeutral(code)
    ensures ErrorBlind(code)
  {
    forall obs: seq<Obs> | Feasible(code, obs)
      ensures Ends(code(obs)) || ShapeOf(code(obs)) == ShapeOf(code(Erase(obs)))
    {
      assert Ends(code(obs)) || CallOf(code(obs)) == CallOf(code(Erase(obs)));
    }
  }

  /** The documented habit is enough. */
  lemma ErrorsEndIsNeutral(code: Code)
    requires ErrorsEnd(code)
    ensures ErrorNeutral(code)
  {
    forall obs: seq<Obs> | Feasible(code, obs)
      ensures Ends(code(obs)) || CallOf(code(obs)) == CallOf(code(Erase(obs)))
    {
      if HasErr(obs) {
        var i :| 0 <= i < |obs| && obs[i].Erred?;
        FeasiblePrefix(code, obs, i + 1);
        assert obs[..i + 1] == obs[..i] + [Erred(obs[i].e)];
        assert i + 1 == |obs| by {
          if i + 1 < |obs| {
            GoesOn(code, obs, i + 1);
          }
        }
        assert obs[..i + 1] == obs;
      } else {
        EraseClean(obs);
      }
    }
  }

  lemma GoesOn(code: Code, obs: seq<Obs>, i: nat)
    requires Feasible(code, obs) && i < |obs|
    ensures !Ends(code(obs[..i]))
  {
    assert Answers(code(obs[..i]), obs[i]);
  }

  /** Business code that swallows the error of its Execute and sleeps instead of ending. */
  function Swallower(obs: seq<Obs>): Op {
    if obs == [] then Exec("charge", NoRetry) else if obs == [Erred("down")] then Sleep(1) else Done
  }

  /** It loses its journal: the Sleep entry is handed to the Execute of the next attempt. */
  lemma SwallowerIsNotSafe()
    ensures !ReplaySafe(Swallower)
  {
    var obs := [Erred("down")];
    assert obs[..0] == [];
    assert Erase(obs) == [];
    OffenderCaught(Swallower, obs);
  }
}
