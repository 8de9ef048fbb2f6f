/** What becomes of a signal: commit before Ack keeps it, and there is exactly one way to lose it. */
module Signals {
  import opened Model
  import opened Program
  import opened Kernel
  import opened Protocol
  import opened Safety

  // ---- what can happen to a signal ----

  /** A payload is pushed for the signal. */
  predicate Pushes(s: Sys, e: Event, sig: Signal, p: Payload) {
    && e.Step? && e.id in s.actors && s.actors[e.id].pc.Pushing? && e.a.ok
    && s.actors[e.id].job == Send(sig, p)
  }

  /** An Await of the signal has fetched a payload and not yet got past its Ack. */
  predicate InHand(code: Code, s: Sys, i: nat, sig: Signal) {
    && i in s.actors && s.actors[i].pc.Active?
    && var k := s.actors[i].pc.k;
       && code(k.obs).Await? && code(k.obs).sig == sig
       && (k.phase.Acking? || (k.phase.Appending? && k.phase.e.kind == KindAwait))
  }

  function PayloadOf(pc: Pc): Payload
    requires pc.Active?
  {
    match pc.k.phase
    case Acking(p) => p
    case Appending(e) => e.payload
    case _ => Empty
  }

  /** The decision of an Await of the signal is stored, with this payload. */
  predicate Commits(code: Code, s: Sys, e: Event, sig: Signal, p: Payload) {
    && e.Step? && InHand(code, s, e.id, sig) && s.actors[e.id].pc.k.phase.Appending?
    && PayloadOf(s.actors[e.id].pc) == p && e.a.k.stored
  }

  /** The Ack of an Await of the signal empties the slot. */
  predicate Acknowledges(code: Code, s: Sys, e: Event, sig: Signal) {
    && e.Step? && InHand(code, s, e.id, sig) && s.actors[e.id].pc.k.phase.Acking? && e.a.k.acked
  }

  // ---- one event ----

  lemma ActiveInHand(code: Code, s: Sys, id: nat, k: Kernel, a: Ans, sig: Signal)
    requires id in s.actors && s.actors[id].pc == Active(k) && Faithful(code, k)
    ensures var s' := ActiveStep(code, s, id, k, a);
            InHand(code, s', id, sig) ==>
              && PayloadOf(s'.actors[id].pc) == (
                   if InHand(code, s, id, sig) then PayloadOf(Active(k))
                     else if sig in s.disk.mail then s.disk.mail[sig] else Empty)
              && (!InHand(code, s, id, sig) ==> sig in s.disk.mail && s'.actors[id].pc.k.phase.Appending?)
              && (InHand(code, s, id, sig) ==> k.phase.Appending? && a.k.stored)
  {
  }

  /** Who has a payload in hand after an event had it before, or has just fetched it from the slot. */
  lemma HandMoves(code: Code, lease: Time, s: Sys, e: Event, i: nat, sig: Signal)
    requires lease > 0 && Base(code, s) && Enabled(s, e)
    requires InHand(code, Next(code, lease, s, e), i, sig)
    ensures i in s.actors && s.actors[i].pc.Active?
    ensures var pc, pc' := s.actors[i].pc, Next(code, lease, s, e).actors[i].pc;
            if InHand(code, s, i, sig) then
              PayloadOf(pc') == PayloadOf(pc) && (pc' == pc || Commits(code, s, e, sig, PayloadOf(pc)))
            else
              sig in s.disk.mail && PayloadOf(pc') == s.disk.mail[sig] && pc'.k.phase.Appending?
  {
    if e.Step? {
      StepFrame(code, lease, s, e.id, e.a);
      if e.id == i && s.actors[i].pc.Active? {
        assert GroundedPc(code, s.disk, s.actors[i].pc);
        ActiveInHand(code, s, i, s.actors[i].pc.k, e.a, sig);
      }
    }
  }

  lemma MailMoves(code: Code, lease: Time, s: Sys, e: Event, sig: Signal)
    requires Enabled(s, e)
    ensures var m, m' := s.disk.mail, Next(code, lease, s, e).disk.mail;
            && (forall p | Pushes(s, e, sig, p) :: sig in m' && m'[sig] == p)
            && (Acknowledges(code, s, e, sig) ==> sig !in m')
            && ((forall p :: !Pushes(s, e, sig, p)) && !Acknowledges(code, s, e, sig) ==>
                  (sig in m' <==> sig in m) && (sig in m ==> m'[sig] == m[sig]))
  {
    if e.Step? && s.actors[e.id].pc.Pushing? && e.a.ok && s.actors[e.id].job.Send? {
      assert Pushes(s, e, s.actors[e.id].job.sig, s.actors[e.id].job.payload);
    }
  }

  lemma OneHand(code: Code, s: Sys, i: nat, j: nat, sig: Signal)
    requires Exclusive(s) && InHand(code, s, i, sig) && InHand(code, s, j, sig)
    ensures i == j
  {
  }

  lemma AckEnds(code: Code, lease: Time, s: Sys, e: Event, sig: Signal)
    requires lease > 0 && Base(code, s) && Enabled(s, e) && Acknowledges(code, s, e, sig)
    ensures forall i :: !InHand(code, Next(code, lease, s, e), i, sig)
  {
    forall i ensures !InHand(code, Next(code, lease, s, e), i, sig) {
      if InHand(code, Next(code, lease, s, e), i, sig) {
        HandMoves(code, lease, s, e, i, sig);
        if InHand(code, s, i, sig) {
          OneHand(code, s, i, e.id, sig);
        }
      }
    }
  }

  // ---- one push through a whole execution ----

  /** The attempt has held on to what it fetched since before the push at event m. */
  ghost predicate InHandSince(code: Code, states: seq<Sys>, m: nat, n: nat, i: nat, sig: Signal)
    requires n < |states|
  {
    forall t | m <= t <= n :: InHand(code, states[t], i, sig)
  }

  /** No other payload has been pushed for the signal between events m and n. */
  ghost predicate Latest(states: seq<Sys>, events: seq<Event>, m: nat, n: nat, sig: Signal)
    requires n <= |events| < |states|
  {
    forall c, q | m < c < n :: !Pushes(states[c], events[c], sig, q)
  }

  /** Between events m and n an Await of the signal that fetched after the push has recorded this payload. */
  ghost predicate Consumed(code: Code, states: seq<Sys>, events: seq<Event>, m: nat, n: nat, sig: Signal, p: Payload)
    requires n <= |events| < |states|
  {
    exists c :: m < c < n && ConsumesAt(code, states, events, m, c, sig, p)
  }

  ghost predicate ConsumesAt(code: Code, states: seq<Sys>, events: seq<Event>, m: nat, c: nat, sig: Signal, p: Payload)
    requires c < |events| < |states|
  {
    Commits(code, states[c], events[c], sig, p) && !InHandSince(code, states, m, c, events[c].id, sig)
  }

  /** Between events m and n an Await that had fetched before the push, and committed, emptied the slot. */
  ghost predicate Swept(code: Code, states: seq<Sys>, events: seq<Event>, m: nat, n: nat, sig: Signal)
    requires n <= |events| < |states|
  {
    exists c :: m < c < n && SweepsAt(code, states, events, m, c, sig)
  }

  ghost predicate SweepsAt(code: Code, states: seq<Sys>, events: seq<Event>, m: nat, c: nat, sig: Signal)
    requires c < |events| < |states|
  {
    Acknowledges(code, states[c], events[c], sig) && InHandSince(code, states, m, c, events[c].id, sig)
  }

  /** Neither in its slot nor recorded. */
  ghost predicate Forgotten(code: Code, states: seq<Sys>, events: seq<Event>, m: nat, n: nat, sig: Signal, p: Payload)
    requires n <= |events| < |states|
  {
    sig !in states[n].disk.mail && !Consumed(code, states, events, m, n, sig, p)
  }

  /** What is known of the push at event m when no other has come since. */
  ghost predicate Fate(code: Code, states: seq<Sys>, events: seq<Event>, m: nat, n: nat, sig: Signal, p: Payload)
    requires n <= |events| < |states|
  {
    var s := states[n];
    var consumed, swept := Consumed(code, states, events, m, n, sig, p), Swept(code, states, events, m, n, sig);
    && (sig in s.disk.mail ==> s.disk.mail[sig] == p)
    && (swept ==> sig !in s.disk.mail && !consumed && forall i :: !InHand(code, s, i, sig))
    && (!swept ==> sig in s.disk.mail || consumed)
    && (forall i | InHand(code, s, i, sig) :: HandOk(code, states, events, m, n, i, sig, p))
  }

  /** What an attempt has in hand is from before the push, or is what was pushed. */
  ghost predicate HandOk(
      code: Code, states: seq<Sys>, events: seq<Event>, m: nat, n: nat, i: nat, sig: Signal, p: Payload)
    requires n <= |events| < |states| && InHand(code, states[n], i, sig)
  {
    var s := states[n];
    var consumed := Consumed(code, states, events, m, n, sig, p);
    if InHandSince(code, states, m, n, i, sig) then sig in s.disk.mail && !consumed
    else PayloadOf(s.actors[i].pc) == p && (s.actors[i].pc.k.phase.Acking? ==> consumed)
  }

  lemma HistoryNext(code: Code, states: seq<Sys>, events: seq<Event>, m: nat, n: nat, sig: Signal, p: Payload)
    requires m < n < |events| < |states|
    ensures Consumed(code, states, events, m, n + 1, sig, p) <==>
            Consumed(code, states, events, m, n, sig, p) || ConsumesAt(code, states, events, m, n, sig, p)
    ensures Swept(code, states, events, m, n + 1, sig) <==>
            Swept(code, states, events, m, n, sig) || SweepsAt(code, states, events, m, n, sig)
  {
    if Consumed(code, states, events, m, n + 1, sig, p) {
      var c :| m < c < n + 1 && ConsumesAt(code, states, events, m, c, sig, p);
    }
    if Swept(code, states, events, m, n + 1, sig) {
      var c :| m < c < n + 1 && SweepsAt(code, states, events, m, c, sig);
    }
  }

  lemma InHandNext(code: Code, states: seq<Sys>, m: nat, n: nat, i: nat, sig: Signal)
    requires m <= n && n + 1 < |states|
    ensures InHandSince(code, states, m, n + 1, i, sig) <==>
            InHandSince(code, states, m, n, i, sig) && InHand(code, states[n + 1], i, sig)
  {
  }

  lemma FateBegins(code: Code, lease: Time, states: seq<Sys>, events: seq<Event>, m: nat, sig: Signal, p: Payload)
    requires Execution(code, lease, states, events) && m < |events| && Pushes(states[m], events[m], sig, p)
    ensures Fate(code, states, events, m, m + 1, sig, p)
  {
    ExecutionBase(code, lease, states, events, m);
    MailMoves(code, lease, states[m], events[m], sig);
    var n := m + 1;
    forall i | InHand(code, states[n], i, sig) ensures InHandSince(code, states, m, n, i, sig) {
      HandMoves(code, lease, states[m], events[m], i, sig);
    }
  }

  /** The hand after an event that pushes nothing for the signal. */
  lemma HandFate(
      code: Code, lease: Time, states: seq<Sys>, events: seq<Event>, m: nat, n: nat, sig: Signal, p: Payload, i: nat)
    requires Execution(code, lease, states, events) && m < n < |events| && Fate(code, states, events, m, n, sig, p)
    requires forall q :: !Pushes(states[n], events[n], sig, q)
    requires InHand(code, states[n + 1], i, sig)
    ensures HandOk(code, states, events, m, n + 1, i, sig, p)
    ensures !Swept(code, states, events, m, n + 1, sig)
  {
    ExecutionBase(code, lease, states, events, n);
    HistoryNext(code, states, events, m, n, sig, p);
    InHandNext(code, states, m, n, i, sig);
    HandMoves(code, lease, states[n], events[n], i, sig);
    MailMoves(code, lease, states[n], events[n], sig);
    if Acknowledges(code, states[n], events[n], sig) {
      AckEnds(code, lease, states[n], events[n], sig);
    }
    forall j | InHand(code, states[n], j, sig) && InHand(code, states[n], i, sig) ensures j == i {
      OneHand(code, states[n], i, j, sig);
    }
  }

  /** The slot after such an event. */
  lemma SlotFate(
      code: Code, lease: Time, states: seq<Sys>, events: seq<Event>, m: nat, n: nat, sig: Signal, p: Payload)
    requires Execution(code, lease, states, events) && m < n < |events| && Fate(code, states, events, m, n, sig, p)
    requires forall q :: !Pushes(states[n], events[n], sig, q)
    ensures var mail := states[n + 1].disk.mail;
            var consumed := Consumed(code, states, events, m, n + 1, sig, p);
            var swept := Swept(code, states, events, m, n + 1, sig);
            && (sig in mail ==> mail[sig] == p)
            && (swept ==> sig !in mail && !consumed)
            && (!swept ==> sig in mail || consumed)
  {
    HistoryNext(code, states, events, m, n, sig, p);
    MailMoves(code, lease, states[n], events[n], sig);
    if events[n].Step? {
      assert InHand(code, states[n], events[n].id, sig) ==> events[n].id in states[n].actors;
    }
  }

  lemma FateGoesOn(
      code: Code, lease: Time, states: seq<Sys>, events: seq<Event>, m: nat, n: nat, sig: Signal, p: Payload)
    requires Execution(code, lease, states, events) && m < n < |events| && Fate(code, states, events, m, n, sig, p)
    requires forall q :: !Pushes(states[n], events[n], sig, q)
    ensures Fate(code, states, events, m, n + 1, sig, p)
  {
    var s', n' := states[n + 1], n + 1;
    SlotFate(code, lease, states, events, m, n, sig, p);
    forall i | InHand(code, s', i, sig)
      ensures HandOk(code, states, events, m, n', i, sig, p) && !Swept(code, states, events, m, n', sig)
    {
      HandFate(code, lease, states, events, m, n, sig, p, i);
    }
  }

  lemma {:induction false} PushFate(
      code: Code, lease: Time, states: seq<Sys>, events: seq<Event>, m: nat, n: nat, sig: Signal, p: Payload)
    requires Execution(code, lease, states, events) && m < n <= |events|
    requires Pushes(states[m], events[m], sig, p) && Latest(states, events, m, n, sig)
    ensures Fate(code, states, events, m, n, sig, p)
    decreases n
  {
    if n == m + 1 {
      FateBegins(code, lease, states, events, m, sig, p);
    } else {
      PushFate(code, lease, states, events, m, n - 1, sig, p);
      FateGoesOn(code, lease, states, events, m, n - 1, sig, p);
    }
  }

  // ---- the main theorems ----

  /**
   * The exact law of loss. A payload that no later push of its signal has overwritten is in no slot and has
   * been consumed by no Await of its signal that fetched after it came, if and only if it came while an
   * attempt was between its Fetch and its Ack of that signal, and that very Ack then succeeded.
   */
  lemma ForgottenIffSwept(
      code: Code, lease: Time, states: seq<Sys>, events: seq<Event>, m: nat, n: nat, sig: Signal, p: Payload)
    requires Execution(code, lease, states, events) && m < n <= |events|
    requires Pushes(states[m], events[m], sig, p) && Latest(states, events, m, n, sig)
    ensures Forgotten(code, states, events, m, n, sig, p) <==> Swept(code, states, events, m, n, sig)
    ensures sig in states[n].disk.mail ==> states[n].disk.mail[sig] == p
  {
    PushFate(code, lease, states, events, m, n, sig, p);
  }

  /**
   * Signal conservation, at least once: a payload pushed while no attempt was between its Fetch and its Ack of
   * the signal is still in its slot, was overwritten by a later push of the signal, or was consumed after it
   * came: an Await of that very signal has stored it in an entry that the journal did not have before.
   */
  lemma SignalConservation(
      code: Code, lease: Time, states: seq<Sys>, events: seq<Event>, m: nat, n: nat, sig: Signal, p: Payload)
    requires Execution(code, lease, states, events) && m < n <= |events| && Pushes(states[m], events[m], sig, p)
    requires forall i :: !InHand(code, states[m], i, sig)
    ensures || !Latest(states, events, m, n, sig)
            || (sig in states[n].disk.mail && states[n].disk.mail[sig] == p)
            || (Consumed(code, states, events, m, n, sig, p) && StoredSince(states, m, n, p))
  {
    if Latest(states, events, m, n, sig) {
      ForgottenIffSwept(code, lease, states, events, m, n, sig, p);
      if Consumed(code, states, events, m, n, sig, p) {
        ConsumedIsStored(code, lease, states, events, m, n, sig, p);
      }
    }
  }

  /** The journal has an Await entry with this payload that it did not have at event m. */
  predicate StoredSince(states: seq<Sys>, m: nat, n: nat, p: Payload)
    requires m < |states| && n < |states|
  {
    exists i :: |states[m].disk.log| <= i < |states[n].disk.log| && IsDecision(states[n].disk.log[i], p)
  }

  predicate IsDecision(e: Entry, p: Payload) {
    e.kind == KindAwait && e.payload == p
  }

  lemma CommitStores(code: Code, lease: Time, s: Sys, e: Event, sig: Signal, p: Payload)
    requires Commits(code, s, e, sig, p) && Enabled(s, e)
    ensures exists entry :: IsDecision(entry, p) && Next(code, lease, s, e).disk.log == s.disk.log + [entry]
  {
    var entry := s.actors[e.id].pc.k.phase.e;
    assert IsDecision(entry, p);
  }

  lemma ConsumedIsStored(
      code: Code, lease: Time, states: seq<Sys>, events: seq<Event>, m: nat, n: nat, sig: Signal, p: Payload)
    requires Execution(code, lease, states, events) && m < n <= |events|
    requires Consumed(code, states, events, m, n, sig, p)
    ensures StoredSince(states, m, n, p)
  {
    var c :| m < c < n && ConsumesAt(code, states, events, m, c, sig, p);
    CommitStores(code, lease, states[c], events[c], sig, p);
    var entry :| IsDecision(entry, p) && states[c + 1].disk.log == states[c].disk.log + [entry];
    LogOnlyGrows(code, lease, states, events, m, c);
    LogOnlyGrows(code, lease, states, events, c + 1, n);
    assert states[n].disk.log[|states[c].disk.log|] == entry;
  }

  // ---- nothing is consumed that was not sent ----

  /** The payload was pushed for the signal before event n. */
  ghost predicate Sent(states: seq<Sys>, events: seq<Event>, n: nat, sig: Signal, p: Payload)
    requires n <= |events| < |states|
  {
    exists m :: 0 <= m < n && Pushes(states[m], events[m], sig, p)
  }

  ghost predicate AllSent(code: Code, states: seq<Sys>, events: seq<Event>, n: nat)
    requires n <= |events| < |states|
  {
    var s := states[n];
    && (forall sig | sig in s.disk.mail :: Sent(states, events, n, sig, s.disk.mail[sig]))
    && (forall i, sig | InHand(code, s, i, sig) :: Sent(states, events, n, sig, PayloadOf(s.actors[i].pc)))
  }

  lemma SentStays(states: seq<Sys>, events: seq<Event>, n: nat, n': nat, sig: Signal, p: Payload)
    requires n <= n' <= |events| < |states| && Sent(states, events, n, sig, p)
    ensures Sent(states, events, n', sig, p)
  {
    var m :| 0 <= m < n && Pushes(states[m], events[m], sig, p);
    assert 0 <= m < n';
  }

  lemma {:induction false} EverythingSent(code: Code, lease: Time, states: seq<Sys>, events: seq<Event>, n: nat)
    requires Execution(code, lease, states, events) && n <= |events|
    ensures AllSent(code, states, events, n)
  {
    if n > 0 {
      var b := n - 1;
      EverythingSent(code, lease, states, events, b);
      ExecutionBase(code, lease, states, events, b);
      forall sig | sig in states[n].disk.mail ensures Sent(states, events, n, sig, states[n].disk.mail[sig]) {
        MailMoves(code, lease, states[b], events[b], sig);
        if p :| Pushes(states[b], events[b], sig, p) {
          assert 0 <= b < n;
        } else {
          SentStays(states, events, b, n, sig, states[b].disk.mail[sig]);
        }
      }
      forall i, sig | InHand(code, states[n], i, sig)
        ensures Sent(states, events, n, sig, PayloadOf(states[n].actors[i].pc))
      {
        HandMoves(code, lease, states[b], events[b], i, sig);
        SentStays(states, events, b, n, sig, PayloadOf(states[n].actors[i].pc));
      }
    }
  }

  /** The entry at position i was stored by an Await of a signal for which its payload had been pushed. */
  ghost predicate SentDecision(code: Code, states: seq<Sys>, events: seq<Event>, n: nat, i: nat, p: Payload)
    requires n <= |events| < |states|
  {
    exists c, sig :: 0 <= c < n && |states[c].disk.log| == i &&
      Commits(code, states[c], events[c], sig, p) && Sent(states, events, c, sig, p)
  }

  /**
   * No decision from nowhere: every recorded signal was pushed, for the signal its Await asked for, before it was
   * stored.
   */
  lemma {:induction false} EveryDecisionWasSent(
      code: Code, lease: Time, states: seq<Sys>, events: seq<Event>, n: nat, i: nat)
    requires Execution(code, lease, states, events) && n <= |events|
    requires i < |states[n].disk.log| && states[n].disk.log[i].kind == KindAwait
    ensures SentDecision(code, states, events, n, i, states[n].disk.log[i].payload)
    decreases n
  {
    var b := n - 1;
    var p := states[n].disk.log[i].payload;
    LogOnlyGrows(code, lease, states, events, b, n);
    if i < |states[b].disk.log| {
      EveryDecisionWasSent(code, lease, states, events, b, i);
      var c, sig :| 0 <= c < b && |states[c].disk.log| == i &&
        Commits(code, states[c], events[c], sig, p) && Sent(states, events, c, sig, p);
      assert 0 <= c < n;
    } else {
      ExecutionBase(code, lease, states, events, b);
      EverythingSent(code, lease, states, events, b);
      var sig := NewDecision(code, lease, states[b], events[b]);
      assert 0 <= b < n && |states[b].disk.log| == i;
    }
  }

  lemma NewDecision(code: Code, lease: Time, s: Sys, e: Event) returns (sig: Signal)
    requires lease > 0 && Base(code, s) && Enabled(s, e)
    requires var l, l' := s.disk.log, Next(code, lease, s, e).disk.log; |l'| > |l| && l'[|l|].kind == KindAwait
    ensures |Next(code, lease, s, e).disk.log| == |s.disk.log| + 1
    ensures Commits(code, s, e, sig, Next(code, lease, s, e).disk.log[|s.disk.log|].payload)
  {
    sig := "";
    if e.Step? && s.actors[e.id].pc.Active? {
      var k := s.actors[e.id].pc.k;
      assert GroundedPc(code, s.disk, s.actors[e.id].pc);
      if code(k.obs).Await? {
        sig := code(k.obs).sig;
      }
    }
  }
}
