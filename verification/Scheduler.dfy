/** The scheduler: a bounded queue that is closed once, and the timer table with its generations. */
module Scheduler {
  import opened Model
  import opened Storage

  /** One registration of a wake-up timer. The object itself is the generation. */
  class Handle {
    const deadline: Time
    var cancelled: bool

    constructor (deadline: Time)
      ensures this.deadline == deadline && !cancelled
    {
      this.deadline, cancelled := deadline, false;
    }

    method Cancel()
      modifies this
      ensures cancelled
    {
      cancelled := true;
    }
  }

  datatype Enqueued =
    | Queued
    | Dropped      // the queue was full
    | Refused      // the scheduler was stopped

  datatype Scheduled =
    | Unscheduled                 // no deadline: only a signal wakes the run
    | Immediately                 // the deadline has passed: dispatch at once
    | Registered(h: Handle)

  const DEFAULT_WORKERS := 8

  class Scheduler {
    const capacity: nat
    const clock: EngineClock
    var queue: seq<RunId>
    var closed: bool
    var stopped: bool
    var timers: map<RunId, Handle>

    ghost function Handles(): set<Handle>
      reads this
    {
      set r | r in timers :: timers[r]
    }

    /** No handle stands for two runs, and a handle in the table has not been cancelled. */
    ghost predicate Valid()
      reads this, Handles()
    {
      && capacity > 0 && |queue| <= capacity && (closed <==> stopped)
      && (forall r, q | r in timers && q in timers && r != q :: timers[r] != timers[q])
      && (forall r | r in timers :: !timers[r].cancelled)
    }

    constructor (clock: EngineClock, workers: int, queueSize: int)
      ensures Valid() && queue == [] && !stopped && timers == map[] && this.clock == clock
      ensures queueSize > 0 ==> capacity == queueSize
      ensures queueSize <= 0 ==> capacity == 4 * if workers > 0 then workers else DEFAULT_WORKERS
    {
      var w := if workers <= 0 then DEFAULT_WORKERS else workers;
      capacity := if queueSize <= 0 then 4 * w else queueSize;
      this.clock, queue, closed, stopped, timers := clock, [], false, false, map[];
    }

    /** A send on the channel: never after its close, never beyond its capacity. */
    method Send(run: RunId)
      requires !closed && |queue| < capacity
      modifies `queue
      ensures queue == old(queue) + [run]
    {
      queue := queue + [run];
    }

    method CloseQueue()
      requires !closed
      modifies `closed
      ensures closed
    {
      closed := true;
    }

    /** A worker's receive; none is left once the queue is closed and empty. */
    method Receive() returns (run: Option<RunId>)
      requires Valid()
      modifies `queue
      ensures Valid()
      ensures old(queue) == [] ==> run == None && queue == []
      ensures old(queue) != [] ==> run == Some(old(queue)[0]) && queue == old(queue)[1..]
    {
      if queue == [] {
        return None;
      }
      run := Some(queue[0]);
      queue := queue[1..];
    }

    /** Takes the run's timer out, whatever its generation, and cancels it outside the critical section. */
    method ClearTimer(run: RunId)
      requires Valid()
      modifies `timers, if run in timers then {timers[run]} else {}
      ensures Valid() && timers == old(timers) - {run}
      ensures run in old(timers) ==> old(timers)[run].cancelled
    {
      var ok := run in timers;
      if ok {
        var h := timers[run];
        timers := timers - {run};
        h.Cancel();
      }
    }

    /** A timer's own cleanup: it takes itself out, never a newer generation. */
    method ClearTimerIf(run: RunId, h: Handle)
      requires Valid() && forall r | r in timers && timers[r] == h :: r == run
      modifies `timers, h
      ensures Valid()
      ensures timers == if run in old(timers) && old(timers)[run] == h then old(timers) - {run} else old(timers)
      ensures h.cancelled <==> old(h.cancelled) || (run in old(timers) && old(timers)[run] == h)
    {
      if run in timers && timers[run] == h {
        timers := timers - {run};
        h.Cancel();
      }
    }

    /** A newer generation takes the place of the older one, which is cancelled. */
    method RegisterTimer(run: RunId, h: Handle)
      requires Valid() && h !in Handles() && !h.cancelled
      modifies `timers, if run in timers then {timers[run]} else {}
      ensures Valid() && timers == old(timers)[run := h] && !h.cancelled
      ensures run in old(timers) ==> old(timers)[run].cancelled
    {
      if run in timers {
        timers[run].Cancel();
      }
      timers := timers[run := h];
    }

    /** Queued, dropped because the queue is full, or refused because the scheduler is stopped. */
    method Enqueue(run: RunId) returns (r: Enqueued)
      requires Valid()
      modifies `queue, `timers, if run in timers then {timers[run]} else {}
      ensures Valid()
      ensures r == if stopped then Refused else if |old(queue)| < capacity then Queued else Dropped
      ensures queue == if r.Queued? then old(queue) + [run] else old(queue)
      ensures timers == if r.Refused? then old(timers) else old(timers) - {run}
      ensures run in old(timers) ==> (old(timers)[run].cancelled <==> !r.Refused?)
    {
      if stopped {
        return Refused;
      }
      ClearTimer(run);
      if |queue| < capacity {
        Send(run);
        return Queued;
      }
      return Dropped;
    }

    /** The wake-up of a suspended run. Its timer is registered before the call returns. */
    method ScheduleWakeup(run: RunId, deadline: Deadline) returns (r: Scheduled)
      requires Valid()
      modifies `timers, clock, if run in timers then {timers[run]} else {}
      ensures Valid() && clock.now >= old(clock.now)
      ensures r.Unscheduled? <==> deadline == NoDeadline
      ensures r.Immediately? ==> deadline.t <= clock.now
      ensures r.Registered? ==> clock.now < deadline.t && fresh(r.h) && r.h.deadline == deadline.t && !r.h.cancelled
      ensures timers == if r.Registered? then old(timers)[run := r.h] else old(timers)
      ensures run in old(timers) ==> (old(timers)[run].cancelled <==> r.Registered?)
    {
      if deadline == NoDeadline {
        return Unscheduled;
      }
      var now := clock.Now();
      if deadline.t - now <= 0 {
        return Immediately;
      }
      var h := new Handle(deadline.t);
      RegisterTimer(run, h);
      return Registered(h);
    }

    /** Closes the queue, once, and cancels every timer; tasks already queued stay for the workers. */
    method Stop()
      requires Valid()
      modifies `stopped, `closed, `timers, Handles()
      ensures Valid() && stopped && queue == old(queue)
      ensures !old(stopped) ==> timers == map[] && forall h | h in old(Handles()) :: h.cancelled
      ensures old(stopped) ==> timers == old(timers)
    {
      if stopped {
        return;
      }
      stopped := true;
      CloseQueue();
      var rest := timers.Keys;
      ghost var hs := Handles();
      while rest != {}
        modifies hs
        invariant rest <= timers.Keys && forall r | r in timers :: timers[r] in hs
        invariant forall r | r in timers.Keys - rest :: timers[r].cancelled
        decreases rest
      {
        var r :| r in rest;
        timers[r].Cancel();
        rest := rest - {r};
      }
      timers := map[];
    }
  }
}
