/** FakeClock: timers in one backing array, compacted in place when the time is advanced. */
module Clock {
  import opened Model

  class Timer {
    const deadline: Time
    var fired: bool
    var ch: seq<Time>       // the buffered channel, capacity 1

    constructor (deadline: Time)
      ensures this.deadline == deadline && !fired && ch == []
    {
      this.deadline, fired, ch := deadline, false, [];
    }

    /** A send on the buffered channel; with a full buffer it would block. */
    method Send(t: Time)
      requires ch == []
      modifies this`ch
      ensures ch == [t]
    {
      ch := [t];
    }
  }

  /** The timers of a list that are still pending at `now`, in order. */
  function Pending(ts: seq<Timer>, now: Time): (r: seq<Timer>)
    ensures |r| <= |ts|
  {
    if ts == [] then []
    else
      var rest := Pending(ts[..|ts| - 1], now);
      if ts[|ts| - 1].deadline > now then rest + [ts[|ts| - 1]] else rest
  }

  /** The timers of a list that are due at `now`, in order. */
  function Due(ts: seq<Timer>, now: Time): seq<Timer> {
    if ts == [] then []
    else
      var rest := Due(ts[..|ts| - 1], now);
      if ts[|ts| - 1].deadline <= now then rest + [ts[|ts| - 1]] else rest
  }

  lemma PendingSnoc(ts: seq<Timer>, t: Timer, now: Time)
    ensures Pending(ts + [t], now) == if t.deadline > now then Pending(ts, now) + [t] else Pending(ts, now)
    ensures Due(ts + [t], now) == if t.deadline <= now then Due(ts, now) + [t] else Due(ts, now)
  {
    var all := ts + [t];
    assert all[..|all| - 1] == ts && all[|all| - 1] == t;
  }

  lemma {:induction false} PendingMembers(ts: seq<Timer>, now: Time)
    ensures forall t :: t in Pending(ts, now) <==> t in ts && t.deadline > now
    ensures forall t :: t in Due(ts, now) <==> t in ts && t.deadline <= now
  {
    if ts != [] {
      PendingMembers(ts[..|ts| - 1], now);
      assert forall t :: t in ts <==> t in ts[..|ts| - 1] || t == ts[|ts| - 1];
    }
  }

  ghost function Objects(ts: seq<Timer>): set<Timer> {
    set t | t in ts
  }

  predicate Distinct(ts: seq<Timer>) {
    forall i, j | 0 <= i < j < |ts| :: ts[i] != ts[j]
  }

  lemma {:induction false} PendingDistinct(ts: seq<Timer>, now: Time)
    requires Distinct(ts)
    ensures Distinct(Pending(ts, now)) && Distinct(Due(ts, now))
  {
    if ts != [] {
      PendingDistinct(ts[..|ts| - 1], now);
      PendingMembers(ts[..|ts| - 1], now);
    }
  }

  /** Two steps of the clock leave the same timers pending as one, and together fire the same ones. */
  lemma {:induction false} AdvanceTwice(ts: seq<Timer>, t1: Time, t2: Time)
    requires t1 <= t2
    ensures Pending(Pending(ts, t1), t2) == Pending(ts, t2)
    ensures forall t :: t in Due(ts, t2) <==> t in Due(ts, t1) || t in Due(Pending(ts, t1), t2)
  {
    if ts != [] {
      var before, t := ts[..|ts| - 1], ts[|ts| - 1];
      AdvanceTwice(before, t1, t2);
      PendingSnoc(Pending(before, t1), t, t2);
    }
  }

  /**
   * The compaction after i of the timers `ts`: the first w cells of the array hold those still pending, the
   * cells from i on are untouched, and `due` lists the others.
   */
  predicate Packed(cells: seq<Timer>, ts: seq<Timer>, i: nat, w: nat, due: seq<Timer>, now: Time) {
    && w <= i <= |ts| <= |cells|
    && cells[..w] == Pending(ts[..i], now) && due == Due(ts[..i], now)
    && cells[i..|ts|] == ts[i..]
  }

  lemma PackedNext(cells: seq<Timer>, ts: seq<Timer>, i: nat, w: nat, due: seq<Timer>, now: Time)
    requires Packed(cells, ts, i, w, due, now) && i < |ts|
    ensures cells[i] == ts[i]
    ensures ts[i].deadline <= now ==> Packed(cells, ts, i + 1, w, due + [ts[i]], now)
    ensures ts[i].deadline > now ==> Packed(cells[w := ts[i]], ts, i + 1, w + 1, due, now)
  {
    assert cells[i..|ts|][0] == ts[i..][0];
    assert ts[..i + 1] == ts[..i] + [ts[i]];
    PendingSnoc(ts[..i], ts[i], now);
    var moved := cells[w := ts[i]];
    assert moved[..w + 1] == cells[..w] + [ts[i]];
    assert cells[i + 1..|ts|] == cells[i..|ts|][1..] == ts[i..][1..] == ts[i + 1..];
    assert moved[i + 1..|ts|] == cells[i + 1..|ts|];
  }

  lemma PackedAll(cells: seq<Timer>, ts: seq<Timer>, w: nat, due: seq<Timer>, now: Time)
    requires Packed(cells, ts, |ts|, w, due, now)
    ensures cells[..w] == Pending(ts, now) && due == Due(ts, now)
  {
    assert ts[..|ts|] == ts;
  }

  class FakeClock {
    var now: Time
    var data: array<Timer>    // backing array of the timers slice
    var len: nat

    ghost predicate Valid()
      reads this, data, if len <= data.Length then data[..len] else []
    {
      && len <= data.Length
      && Distinct(data[..len])
      && forall t | t in data[..len] :: !t.fired && t.deadline > now && t.ch == []
    }

    ghost function Timers(): seq<Timer>
      reads this, data
      requires len <= data.Length
    {
      data[..len]
    }

    constructor (now: Time)
      ensures Valid() && Timers() == [] && this.now == now && fresh(data)
    {
      this.now := now;
      len := 0;
      data := new Timer[0];
    }

    /** A timer that is due at once fires at once and is never listed. */
    method After(d: Time) returns (t: Timer)
      requires Valid()
      modifies this, data
      ensures Valid() && fresh(t) && t.deadline == now + d && now == old(now)
      ensures d <= 0 ==> t.fired && t.ch == [now] && Timers() == old(Timers())
      ensures d > 0 ==> !t.fired && t.ch == [] && Timers() == old(Timers()) + [t]
      ensures data == old(data) || fresh(data)
    {
      t := new Timer(now + d);
      if !(t.deadline > now) {
        t.fired := true;
        t.Send(now);
      } else {
        if len == data.Length {
          ghost var before := data[..len];
          var bigger := new Timer[2 * len + 1](
            i requires 0 <= i reads this, data => if i < len && i < data.Length then data[i] else t);
          data := bigger;
          assert data[..len] == before;
        }
        data[len] := t;
        len := len + 1;
      }
    }

    /** One timer of the in-place pass: marked and unlinked, or moved to the front of the array. */
    method Sift(ghost ts: seq<Timer>, i: nat, w: nat, due: seq<Timer>) returns (w': nat, due': seq<Timer>)
      requires i < |ts| && Packed(data[..], ts, i, w, due, now) && !ts[i].fired
      modifies data, {ts[i]}`fired
      ensures Packed(data[..], ts, i + 1, w', due', now)
      ensures ts[i].fired == (ts[i].deadline <= now)
    {
      ghost var before := data[..];
      PackedNext(before, ts, i, w, due, now);
      var t := data[i];
      if !t.fired && !(now < t.deadline) {
        t.fired := true;
        assert data[..] == before;
        w', due' := w, due + [t];
      } else {
        data[w] := t;
        assert data[..] == before[w := t];
        w', due' := w + 1, due;
      }
    }

    /** The in-place pass: marks and unlinks the due timers, and moves the others to the front of the array. */
    method Compact(ghost ts: seq<Timer>) returns (due: seq<Timer>)
      requires len <= data.Length && ts == data[..len] && Distinct(ts)
      requires forall m | 0 <= m < |ts| :: !ts[m].fired
      modifies `len, data, Objects(ts)`fired
      ensures len <= data.Length && data[..len] == Pending(ts, now) && due == Due(ts, now)
      ensures forall m | 0 <= m < |ts| :: ts[m].fired == (ts[m].deadline <= now)
    {
      due := [];
      var w, n := 0, len;
      for i := 0 to n
        invariant Packed(data[..], ts, i, w, due, now)
        invariant forall m | 0 <= m < n :: ts[m].fired == (m < i && ts[m].deadline <= now)
      {
        w, due := Sift(ts, i, w, due);
      }
      PackedAll(data[..], ts, w, due, now);
      len := w;
      assert data[..len] == data[..][..len];
    }

    /**
     * Fires exactly the timers that are due at the new time, once each, with the new time; the others keep
     * their order in the same backing array, still unfired.
     */
    method Advance(d: Time)
      requires Valid()
      modifies this, data, Objects(data[..len])
      ensures Valid() && data == old(data) && now == old(now) + d
      ensures Timers() == Pending(old(Timers()), now)
      ensures forall t | t in Due(old(Timers()), now) :: t.fired && t.ch == [now]
      ensures forall t | t in Timers() :: !t.fired && t.ch == []
    {
      ghost var ts := Timers();
      now := now + d;
      PendingDistinct(ts, now);
      var due := Compact(ts);
      assert forall t | t in ts :: t.fired == (t.deadline <= now) && t.ch == [];
      PendingMembers(ts, now);
      assert Objects(due) <= Objects(ts);
      SendAll(due);
      assert forall t | t in Timers() :: t !in due;
    }

    /** The sends happen after the timers are unlinked; none can block. */
    method SendAll(due: seq<Timer>)
      requires Distinct(due) && forall t | t in due :: t.ch == []
      modifies Objects(due)
      ensures forall t | t in due :: t.ch == [now] && t.fired == old(t.fired)
    {
      for i := 0 to |due|
        invariant forall m | 0 <= m < |due| :: due[m].ch == (if m < i then [now] else [])
        invariant forall m | 0 <= m < |due| :: due[m].fired == old(due[m].fired)
      {
        due[i].Send(now);
      }
    }

    method HasPendingTimers() returns (r: bool)
      requires Valid()
      ensures r <==> Timers() != []
    {
      r := len > 0;
    }
  }
}
