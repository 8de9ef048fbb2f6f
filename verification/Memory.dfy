/** The in-memory store: journal and metadata, lease locks, mailbox (infra/memory/). */
module Memory {
  import opened Model

  class Locker {
    var locks: map<RunId, Time>     // run -> expiry
    var now: Time
    const lease: Time

    constructor (lease: Time, now: Time)
      ensures this.lease == lease && this.now == now && locks == map[]
    {
      this.lease, this.now, locks := lease, now, map[];
    }

    function Lock(run: RunId): Option<Time>
      reads this
    {
      if run in locks then Some(locks[run]) else None
    }

    predicate Held(run: RunId)
      reads this
    {
      run in locks && locks[run] > now
    }

    method Acquire(run: RunId) returns (ok: bool)
      modifies `locks
      ensures ok == !old(Held(run))
      ensures locks == if ok then old(locks)[run := now + lease] else old(locks)
    {
      if run in locks && locks[run] > now {
        return false;
      }
      locks := locks[run := now + lease];
      return true;
    }

    /** Deletes the lock, whoever owns it. */
    method Release(run: RunId)
      modifies `locks
      ensures locks == old(locks) - {run}
    {
      locks := locks - {run};
    }

    method IsLocked(run: RunId) returns (r: bool)
      ensures r == Held(run)
    {
      r := run in locks && locks[run] > now;
    }

    method Expire(run: RunId)
      modifies `locks
      ensures locks.Keys == old(locks.Keys) && !Held(run)
      ensures forall r | r in locks && r != run :: locks[r] == old(locks)[r]
    {
      if run in locks {
        locks := locks[run := now - 1];
      }
    }

    method SetNow(t: Time)
      modifies `now
      ensures now == t
    {
      now := t;
    }
  }

  datatype MetaOption =
    | WithName(name: string)
    | WithVersion(version: string)
    | WithInput(input: Payload)
    | WithOutput(output: Payload)
    | WithErr(err: Fault)

  function Set(m: Meta, o: MetaOption): Meta {
    match o
    case WithName(n) => m.(name := n)
    case WithVersion(v) => m.(version := v)
    case WithInput(i) => m.(input := i)
    case WithOutput(p) => m.(output := p)
    case WithErr(e) => m.(err := e)
  }

  function SetAll(m: Meta, os: seq<MetaOption>): Meta {
    if os == [] then m else Set(SetAll(m, os[..|os| - 1]), os[|os| - 1])
  }

  const BLANK := Meta("", "", Empty, Running, Empty, "")

  class LogMetaStore {
    var logs: map<RunId, seq<Entry>>
    var metas: map<RunId, Meta>
    var createdAt: map<RunId, Time>
    var updatedAt: map<RunId, Time>
    var now: Time

    constructor (now: Time)
      ensures logs == map[] && metas == map[] && createdAt == map[] && updatedAt == map[] && this.now == now
    {
      logs, metas, createdAt, updatedAt, this.now := map[], map[], map[], map[], now;
    }

    function Log(run: RunId): seq<Entry>
      reads this
    {
      if run in logs then logs[run] else []
    }

    method Append(run: RunId, e: Entry)
      modifies `logs
      ensures logs == old(logs)[run := old(Log(run)) + [e]]
    {
      logs := logs[run := (if run in logs then logs[run] else []) + [e]];
    }

    /** A copy: what the caller does with it does not reach the store. */
    method Read(run: RunId) returns (out: array<Entry>)
      ensures fresh(out) && out[..] == Log(run)
    {
      var src := if run in logs then logs[run] else [];
      out := new Entry[|src|](_ => Entry(KindExec, "", Empty));
      for i := 0 to |src|
        invariant out[..i] == src[..i]
      {
        out[i] := src[i];
      }
    }

    method UpdateStatus(run: RunId, status: Status, os: seq<MetaOption>)
      modifies `metas, `createdAt, `updatedAt
      ensures var m := if run in old(metas) then old(metas)[run] else BLANK;
              metas == old(metas)[run := SetAll(m.(status := status), os)]
      ensures createdAt == if run in old(metas) then old(createdAt) else old(createdAt)[run := now]
      ensures updatedAt == old(updatedAt)[run := now]
    {
      if run !in metas {
        createdAt := createdAt[run := now];
      }
      var m := if run in metas then metas[run] else BLANK;
      m := m.(status := status);
      ghost var start := m;
      for i := 0 to |os|
        invariant m == SetAll(start, os[..i])
      {
        m := Set(m, os[i]);
        assert os[..i + 1][..i] == os[..i];
      }
      assert os[..|os|] == os;
      metas, updatedAt := metas[run := m], updatedAt[run := now];
    }

    method GetResult(run: RunId) returns (m: Option<Meta>)
      ensures m == if run in metas then Some(metas[run]) else None
    {
      m := if run in metas then Some(metas[run]) else None;
    }

    /** Every run in one of the statuses, exactly once, with its metadata. The order is the map's. */
    method ListByStatus(want: set<Status>) returns (out: seq<(RunId, Meta)>)
      ensures forall x | x in out :: x.0 in metas && metas[x.0] == x.1 && x.1.status in want
      ensures forall r | r in metas && metas[r].status in want :: (r, metas[r]) in out
      ensures forall i, j | 0 <= i < j < |out| :: out[i].0 != out[j].0
    {
      out := [];
      var rest := metas.Keys;
      while rest != {}
        invariant rest <= metas.Keys
        invariant forall x | x in out :: x.0 in metas.Keys - rest && metas[x.0] == x.1 && x.1.status in want
        invariant forall r | r in metas.Keys - rest && metas[r].status in want :: (r, metas[r]) in out
        invariant forall i, j | 0 <= i < j < |out| :: out[i].0 != out[j].0
        decreases rest
      {
        var r :| r in rest;
        rest := rest - {r};
        if metas[r].status in want {
          out := out + [(r, metas[r])];
        }
      }
    }
  }

  class Mailbox {
    var signals: map<(RunId, Signal), Payload>
    var pushes: map<(RunId, Signal), nat>

    constructor ()
      ensures signals == map[] && pushes == map[]
    {
      signals, pushes := map[], map[];
    }

    /** The slots of one run. */
    ghost function Mail(run: RunId): map<Signal, Payload>
      reads this
    {
      map k | k in signals && k.0 == run :: k.1 := signals[k]
    }

    function Pushed(run: RunId, sig: Signal): nat
      reads this
    {
      if (run, sig) in pushes then pushes[(run, sig)] else 0
    }

    /** Overwrites the slot. */
    method Push(run: RunId, sig: Signal, payload: Payload)
      modifies `signals, `pushes
      ensures forall r, x :: Pushed(r, x) == old(Pushed(r, x)) + (if r == run && x == sig then 1 else 0)
      ensures Mail(run) == old(Mail(run))[sig := payload]
      ensures forall r | r != run :: Mail(r) == old(Mail(r))
    {
      var k := (run, sig);
      signals := signals[k := payload];
      pushes := pushes[k := (if k in pushes then pushes[k] else 0) + 1];
    }

    method Fetch(run: RunId, sig: Signal) returns (p: Option<Payload>)
      ensures p == if sig in Mail(run) then Some(Mail(run)[sig]) else None
    {
      var k := (run, sig);
      assert k in signals <==> sig in Mail(run);
      p := if k in signals then Some(signals[k]) else None;
    }

    method Ack(run: RunId, sig: Signal)
      modifies `signals
      ensures Mail(run) == old(Mail(run)) - {sig}
      ensures forall r | r != run :: Mail(r) == old(Mail(r))
    {
      signals := signals - {(run, sig)};
    }
  }
}
