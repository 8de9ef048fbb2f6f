/** Starting runs, and the scan that dispatches again whatever a crash or a full queue has left behind. */
module Recovery {
  import opened Model
  import opened Protocol
  import opened Memory
  import opened Storage
  import opened Scheduler

  /** One dispatch and what became of it. */
  type Dispatched = (RunId, Enqueued)

  function QueuedOf(ds: seq<Dispatched>): seq<RunId> {
    if ds == [] then []
    else QueuedOf(ds[..|ds| - 1]) + if ds[|ds| - 1].1.Queued? then [ds[|ds| - 1].0] else []
  }

  predicate Once(ds: seq<Dispatched>) {
    forall i, j | 0 <= i < j < |ds| :: ds[i].0 != ds[j].0
  }

  predicate Dispatches(ds: seq<Dispatched>, run: RunId) {
    exists i :: 0 <= i < |ds| && ds[i].0 == run
  }

  lemma OneMore(ds: seq<Dispatched>, d: Dispatched)
    ensures QueuedOf(ds + [d]) == QueuedOf(ds) + QueuedOf([d])
    ensures forall r :: Dispatches(ds + [d], r) <==> Dispatches(ds, r) || r == d.0
    ensures Once(ds) && !Dispatches(ds, d.0) ==> Once(ds + [d])
  {
    var all := ds + [d];
    assert all[..|all| - 1] == ds && [d][..0] == [];
    forall r ensures Dispatches(all, r) <==> Dispatches(ds, r) || r == d.0 {
      if Dispatches(ds, r) {
        var i :| 0 <= i < |ds| && ds[i].0 == r;
        assert all[i].0 == r;
      }
      assert all[|ds|] == d;
    }
    assert forall i | 0 <= i < |ds| :: ds[i].0 == d.0 ==> Dispatches(ds, d.0);
  }

  /** What becomes of a dispatch that finds so many tasks in the queue. */
  function Fate(stopped: bool, depth: nat, capacity: nat): Enqueued {
    if stopped then Refused else if depth < capacity then Queued else Dropped
  }

  /** The dispatches fill the queue one after the other: each is queued as long as there is room, none if stopped. */
  predicate InTurn(ds: seq<Dispatched>, stopped: bool, depth: nat, capacity: nat) {
    forall i | 0 <= i < |ds| :: ds[i].1 == Fate(stopped, depth + i, capacity)
  }

  lemma {:induction false} QueuedLength(ds: seq<Dispatched>, stopped: bool, depth: nat, capacity: nat)
    requires InTurn(ds, stopped, depth, capacity) && depth <= capacity
    ensures depth + |QueuedOf(ds)| == if stopped then depth else if depth + |ds| < capacity then depth + |ds| else
              if ds == [] then depth else capacity
  {
    if ds != [] {
      QueuedLength(ds[..|ds| - 1], stopped, depth, capacity);
    }
  }

  /** With room for all of them, every dispatched run is queued. */
  lemma {:induction false} RoomForAll(ds: seq<Dispatched>, depth: nat, capacity: nat)
    requires InTurn(ds, false, depth, capacity) && depth + |ds| <= capacity
    ensures |QueuedOf(ds)| == |ds| && forall i | 0 <= i < |ds| :: QueuedOf(ds)[i] == ds[i].0
    ensures forall r | Dispatches(ds, r) :: r in QueuedOf(ds)
  {
    if ds != [] {
      RoomForAll(ds[..|ds| - 1], depth, capacity);
    }
    assert forall i | 0 <= i < |ds| :: QueuedOf(ds)[i] == ds[i].0;
  }

  /** One more dispatch, after those in `ds`. */
  lemma TurnTaken(ds: seq<Dispatched>, d: Dispatched, stopped: bool, depth: nat, capacity: nat)
    requires InTurn(ds, stopped, depth, capacity) && depth <= capacity
    requires d.1 == Fate(stopped, depth + |QueuedOf(ds)|, capacity)
    ensures InTurn(ds + [d], stopped, depth, capacity)
  {
    QueuedLength(ds, stopped, depth, capacity);
  }

  lemma SetThree(m: Meta, os: seq<MetaOption>)
    requires |os| == 3
    ensures SetAll(m, os) == Set(Set(Set(m, os[0]), os[1]), os[2])
  {
    assert os[..2][..1] == os[..1] && os[..1][..0] == [];
    assert SetAll(m, os[..1]) == Set(m, os[0]);
    assert SetAll(m, os[..2]) == Set(Set(m, os[0]), os[1]);
  }

  /** A run the scan looks for. */
  predicate Stranded(metas: map<RunId, Meta>, run: RunId) {
    run in metas && !IsTerminal(metas[run].status)
  }

  ghost predicate Scanned(metas: map<RunId, Meta>, exclude: RunId, ds: seq<Dispatched>) {
    Once(ds) && forall r :: Dispatches(ds, r) <==> Stranded(metas, r) && r != exclude
  }

  /** The new run is dispatched last, after a scan for the others if there has to be one. */
  ghost predicate Launched(metas: map<RunId, Meta>, run: RunId, scan: bool, ds: seq<Dispatched>) {
    && ds != [] && ds[|ds| - 1].0 == run
    && if scan then Scanned(metas, run, ds[..|ds| - 1]) else ds[..|ds| - 1] == []
  }

  /** The engine across runs; what it does for one run is in module Engine. */
  class Fleet {
    const store: Store
    const sched: Scheduler
    var registry: map<string, string>     // workflow name -> version
    var recovered: bool                   // recoverOnce

    constructor (store: Store, sched: Scheduler)
      ensures this.store == store && this.sched == sched && registry == map[] && !recovered
    {
      this.store, this.sched, registry, recovered := store, sched, map[], false;
    }

    /**
     * The dispatches `ds` have been made since the queue and the timer table were as given: they filled the queue
     * in turn, and unless the scheduler was stopped no dispatched run has a timer left. All other timers are
     * where they were.
     */
    ghost predicate Served(ds: seq<Dispatched>, queue: seq<RunId>, timers: map<RunId, Handle>, stopped: bool)
      reads sched
    {
      && sched.queue == queue + QueuedOf(ds) && sched.stopped == stopped
      && InTurn(ds, stopped, |queue|, sched.capacity)
      && (forall r :: r in sched.timers <==> r in timers && (stopped || !Dispatches(ds, r)))
      && (forall r | r in sched.timers :: sched.timers[r] == timers[r])
    }

    method Dispatch(run: RunId) returns (d: Dispatched)
      requires sched.Valid()
      modifies sched, sched.Handles()
      ensures sched.Valid() && d.0 == run
      ensures sched.queue == old(sched.queue) + QueuedOf([d])
      ensures d.1.Queued? <==> !old(sched.stopped) && |old(sched.queue)| < sched.capacity
      ensures d.1 == Fate(old(sched.stopped), |old(sched.queue)|, sched.capacity)
      ensures sched.stopped == old(sched.stopped) && sched.Handles() <= old(sched.Handles())
      ensures sched.timers == if old(sched.stopped) then old(sched.timers) else old(sched.timers) - {run}
    {
      var r := sched.Enqueue(run);
      d := (run, r);
      assert [d][..0] == [];
    }

    /**
     * Every run that is not terminal, except `exclude`, is dispatched exactly once. What is stored is not
     * touched. `listed` says whether the store answers the query.
     */
    method RecoverExcept(exclude: RunId, listed: bool) returns (ds: seq<Dispatched>)
      requires sched.Valid()
      modifies sched, sched.Handles()
      ensures sched.Valid() && sched.Handles() <= old(sched.Handles())
      ensures Served(ds, old(sched.queue), old(sched.timers), old(sched.stopped))
      ensures if listed then Scanned(store.data.metas, exclude, ds) else ds == []
      ensures !old(sched.stopped) && |old(sched.queue)| + |ds| <= sched.capacity ==>
                forall r | Dispatches(ds, r) :: r in sched.queue
    {
      ds := [];
      if !listed {
        return;
      }
      var metas := store.data.ListByStatus({Running, Awaiting});
      ghost var was := sched.Handles();
      for i := 0 to |metas|
        invariant sched.Valid() && sched.Handles() <= was
        invariant Served(ds, old(sched.queue), old(sched.timers), old(sched.stopped))
        invariant Once(ds)
        invariant forall r :: Dispatches(ds, r) <==> r != exclude && exists j :: 0 <= j < i && metas[j].0 == r
      {
        if metas[i].0 != exclude {
          ds := DispatchNext(metas[i].0, ds, old(sched.queue), old(sched.timers), old(sched.stopped));
        }
      }
      if !old(sched.stopped) && |old(sched.queue)| + |ds| <= sched.capacity {
        RoomForAll(ds, |old(sched.queue)|, sched.capacity);
      }
    }

    /** One more dispatch, which leaves a series of them as it should be. */
    method DispatchNext(
        run: RunId, ds: seq<Dispatched>, ghost queue: seq<RunId>, ghost timers: map<RunId, Handle>, ghost stopped: bool)
      returns (ds': seq<Dispatched>)
      requires sched.Valid() && Served(ds, queue, timers, stopped) && |queue| <= sched.capacity
      modifies sched, sched.Handles()
      ensures sched.Valid() && sched.Handles() <= old(sched.Handles())
      ensures Served(ds', queue, timers, stopped)
      ensures |ds'| == |ds| + 1 && ds'[..|ds|] == ds && ds'[|ds|].0 == run
      ensures forall r :: Dispatches(ds', r) <==> Dispatches(ds, r) || r == run
      ensures Once(ds) && !Dispatches(ds, run) ==> Once(ds')
    {
      var d := Dispatch(run);
      TurnTaken(ds, d, stopped, |queue|, sched.capacity);
      OneMore(ds, d);
      ds' := ds + [d];
    }

    method Recover(listed: bool) returns (ds: seq<Dispatched>)
      requires sched.Valid()
      modifies sched, sched.Handles()
      ensures sched.Valid()
      ensures Served(ds, old(sched.queue), old(sched.timers), old(sched.stopped))
      ensures if listed then Scanned(store.data.metas, "", ds) else ds == []
    {
      ds := RecoverExcept("", listed);
    }

    method Launch(run: RunId, listed: bool) returns (ds: seq<Dispatched>)
      requires sched.Valid()
      modifies `recovered, sched, sched.Handles()
      ensures sched.Valid() && Served(ds, old(sched.queue), old(sched.timers), old(sched.stopped))
      ensures Launched(store.data.metas, run, !old(recovered) && listed, ds) && Once(ds) && recovered
      ensures !old(sched.stopped) && |old(sched.queue)| + |ds| <= sched.capacity ==>
                forall r | Dispatches(ds, r) :: r in sched.queue
    {
      ds := ScanOnce(run, listed);
      ds := DispatchNext(run, ds, old(sched.queue), old(sched.timers), old(sched.stopped));
      if !old(sched.stopped) && |old(sched.queue)| + |ds| <= sched.capacity {
        RoomForAll(ds, |old(sched.queue)|, sched.capacity);
      }
    }

    method Persist(name: string, input: Payload, run: RunId)
      requires name in registry && store.DiskOf(run) == Disk(BLANK, [], map[], None)
      modifies store.data`metas, store.data`createdAt, store.data`updatedAt
      ensures forall r | r != run :: store.DiskOf(r) == old(store.DiskOf(r))
      ensures store.DiskOf(run) == Disk(Meta(name, registry[name], input, Running, Empty, ""), [], map[], None)
    {
      var os := [WithName(name), WithVersion(registry[name]), WithInput(input)];
      SetThree(BLANK.(status := Running), os);
      store.UpdateStatus(run, Running, os);
    }

    /** The scan of the first Start. */
    method ScanOnce(run: RunId, listed: bool) returns (ds: seq<Dispatched>)
      requires sched.Valid()
      modifies `recovered, sched, sched.Handles()
      ensures sched.Valid() && sched.Handles() <= old(sched.Handles())
      ensures Served(ds, old(sched.queue), old(sched.timers), old(sched.stopped))
      ensures recovered && Once(ds) && !Dispatches(ds, run)
      ensures if !old(recovered) && listed then Scanned(store.data.metas, run, ds) else ds == []
    {
      ds := [];
      if !recovered {
        recovered := true;
        ds := RecoverExcept(run, listed);
      }
    }

    /**
     * Persists a new run and dispatches it. The first call also scans for runs left behind, and leaves the
     * new one out, so that it is dispatched once. `run` is the new identifier, under which nothing is stored;
     * `stored` and `listed` say whether the store takes the metadata and answers the scan's query.
     */
    method Start(name: string, input: Option<Payload>, run: RunId, stored: bool, listed: bool)
      returns (err: bool, ds: seq<Dispatched>)
      requires sched.Valid() && !store.Known(run) && store.DiskOf(run) == Disk(BLANK, [], map[], None)
      modifies `recovered, store.data`metas, store.data`createdAt, store.data`updatedAt, sched, sched.Handles()
      ensures sched.Valid() && Served(ds, old(sched.queue), old(sched.timers), old(sched.stopped))
      ensures !err && !old(sched.stopped) && |old(sched.queue)| + |ds| <= sched.capacity ==>
                run in sched.queue && forall r | Dispatches(ds, r) :: r in sched.queue
      ensures forall r | r != run :: store.DiskOf(r) == old(store.DiskOf(r))
      ensures err <==> name !in registry || input.None? || !stored
      ensures !err ==> Launched(store.data.metas, run, !old(recovered) && listed, ds) && Once(ds) && recovered
      ensures !err ==>
                store.DiskOf(run) == Disk(Meta(name, registry[name], input.value, Running, Empty, ""), [], map[], None)
      ensures err ==> store.DiskOf(run) == old(store.DiskOf(run)) && ds == [] && recovered == old(recovered)
    {
      if name !in registry || input.None? {
        return true, [];
      }
      if !stored {
        return true, [];
      }
      Persist(name, input.value, run);
      ds := Launch(run, listed);
      err := false;
    }
  }
}
