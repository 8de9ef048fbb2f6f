# track: replay, runs and their machinery

`track` is a workflow engine in Go. Business code calls four primitives (`Execute`, `Sleep`, `Await`,
`Return`); each consumes or appends entries of a persisted journal, by position. After every suspension,
crash, retry or recovery the code is run again from its beginning. What the engine promises is that running
again cannot be told apart from running on. This project models that promise and the protocol and machinery
around it, and proves it.

Business code is a function from the history of its results to its next primitive (`Program.Code`): all it
can depend on. An `Execute` names its function (`Program.Step`), an `Await` its signal. Everything else
(results of `fn`, clock, labels, arguments, mailbox, failing store operations, cancellation) is an arbitrary
answer to each step. Where it matters who gave a result, answers come from a world (`Worlds.World`): what
each function can return, what is sent for each signal, what `Return` can be called with. Theorems hold for
every world, so they account for each single result.

| module | what it holds |
|---|---|
| `Model`, `Program` | entries, metadata, codec; business code, and what a journal means to it, as a relation (`Recorded`) and as a function (`Walk`) |
| `Kernel`, `Replay`, `Exactness`, `Attempt`, `Independence`, `Progress` | one attempt as a step function, its invariant over any code and any journal, and the laws of replay |
| `Worlds`, `Origin`, `Delivery`, `Fallback`, `Timely` | where results come from, which call reads an entry back, and crash-replay equivalence with both accounted for |
| `Protocol`, `Safety`, `Outcomes`, `Recording`, `Bookkeeping`, `Honesty`, `Signals`, `Loss` | runners, `Cancel`, `Retry` and `Signal` as actors, one store operation a step, with crashes and a lease lock; invariants over every interleaving |
| `Waiting`, `Reset`, `Timers` | `WaitDone` and the wake-up timers, layered over the protocol |
| `Memory`, `Storage`, `Steps`, `Context`, `Solo`, `Engine` | the classes: in-memory store, `WorkflowContext`, engine operations; each method is proved to be the very steps of the kernel and of the protocol |
| `Waiters`, `Scheduler`, `Recovery`, `Policy`, `Clock` | waiter registry over growable arrays, queue and timer table, `Start` and the recovery scan, retry policies, `FakeClock` |

The layers meet: `Context` methods equal kernel steps over the disk (`Play`), `Engine` methods equal a
protocol run with one actor (`Alone`), and `Solo.CallIsExecution` makes such a run part of an execution of
the protocol, so the theorems over executions speak about the methods. The answers in those steps are not the
methods' to choose: whatever they ask of store, clock, context, business functions, scheduler and waiters is
asked of `Storage.Host`, which answers as it likes and keeps a record of each exchange; both `Play` and `Alone`
determine that record, so a method that skips a call, makes up an answer or changes the order does not meet
them.

## Hypotheses

- The codec round-trips and tells values from instants (`Model.Encode`, `Model.Decode`).
- Only the error of an `Execute` whose `fn` failed is business data. Suspensions, mismatches, undecodable
  entries and storage failures end the attempt, as the engine asks of business code. What business code may
  do with an `Execute` error has two exact answers: it must fit kinds to meet no mismatch
  (`Exactness.ReplaySafeIffErrorBlind`), and it must end or repeat the call to get no result of another one
  (`Delivery.HomeIffErrorNeutral`). The equivalence theorems assume the second.
- A failing store operation has no effect.
- A live actor is out of its critical section before its lease expires (`Protocol.Enabled`, case `Tick`):
  the lock is released without a look at its owner (infra/memory/locker.go:52-57).
- The engine clock is arbitrary in every safety theorem. `Progress` and `Timely` assume that it does not go
  back and say so.
- Waiters and timers live in the process whose engine does the work: in `Waiting` and `Timers` a crash ends
  the execution instead of one actor.

## Where the documentation promises more than the code gives

- docs/track.md:137 says that no signal is lost. `Signals.ForgottenIffSwept` says exactly which ones are: those
  pushed while an attempt is between its Fetch and its Ack of the same signal, when that Ack then succeeds
  before another push. `Loss.WindowPushIsLost` is an execution where it happens.
- docs/track.md:321 says that a woken `WaitDone` always reads a terminal status. It does if and only if no
  `Retry` has reset the run since it last became terminal (`Waiting.WakeReadsTerminal`);
  `Reset.WokenByAResetRun` is an execution where one has.
- engine/errors.go:27-33 says that a journal mismatch means that the code has changed since it was recorded.
  Unchanged code that swallows the error of an `Execute` and goes on to another kind of primitive meets it on a
  later attempt (`Exactness.SwallowerIsNotSafe`); and if it goes on to another `Execute`, no mismatch tells,
  and a later attempt takes the one's result for the other's (`Fallback.MisdeliveredResult`).

## Model

| member | source | states |
|---|---|---|
| Kernel.RunFaithful | engine/context.go:68-100 | over any code and any journal, at every step of an attempt: the cursor is within the journal, the entries before it are exactly those of the results the code has seen, and after a failed Execute the cursor is at the end |
| Replay.RecordedIffWalk | engine/context.go:68-81 | for histories without failed Executes, and any code, the relation "this journal records this history" and the function that reads a journal agree |
| Replay.RecordedWalk | engine/context.go:68-81 | for code whose kinds fit, a recorded history with failed Executes reads back as that history without them |
| Exactness.ReplaySafeIffErrorBlind | engine/context.go:68-81 | the law of mismatches: no series of attempts, cut off anywhere, meets a journal mismatch or ends with unread entries if and only if what the code does after a failed Execute is to end or to call a primitive that writes the same kinds as the one it would have called without the failure |
| Delivery.HomeIffErrorNeutral | engine/context.go:68-81 | the law of delivery: no series of attempts meets a mismatch or leaves entries unread, and every entry is consumed by the very call that wrote it (same function, same signal, same duration), if and only if after a failed Execute the code ends or makes the very call it would have made without the failure |
| Exactness.ErrorsEndIsNeutral | engine/context.go:141-144 | code that ends after a failed Execute, as the engine asks, meets that condition |
| Fallback.BlindButNotNeutral | engine/context.go:141-152 | concrete code that falls back to another Execute after an error: never a mismatch, and not every entry goes back to its writer |
| Fallback.MisdeliveredResult | engine/context.go:131-152 | two attempts of it, the second judged a success, with an output that no uninterrupted execution with the same functions can have |
| Exactness.SwallowerIsNotSafe | engine/context.go:68-81 | concrete code that swallows an Execute error and sleeps is not safe: a later attempt hits the mismatch |
| Attempt.OnlyExtends | engine/context.go:91-100 | an attempt only extends the journal it was given |
| Attempt.DriftGuardSound | engine/runner.go:127-140 | any code, any journal: an attempt is judged a success only if the final journal is, entry by entry and with nothing left over, the trace of the primitives it went through, and the output is that of the trace |
| Attempt.TraceIsAnExecution | engine/runner.go:127-140 | conversely every complete trace of entries as the engine writes them is left by one execution from an empty journal that is neither suspended nor interrupted, with results of the same world if those of the trace are |
| Attempt.NeverMismatches | engine/runner.go:86-140 | after any series of attempts of error-blind code cut off anywhere, the next one extends the journal, never mismatches and is judged a success if it returns |
| Origin.CrashReplayEquivalence | engine/runner.go:86-140 | crash-replay equivalence: after any series of attempts of error-neutral code cut off anywhere, the next one extends the journal, never mismatches, has only been told results of the calls that are told them, is judged a success if it returns, and its journal and output are those of one uninterrupted execution, with the same recorded results, in which every function returns what that function returned, every signal is one sent, and Return is called as it was called after that history |
| Timely.OneTimelyExecution | engine/runner.go:86-140 | and if the attempts were made under a clock that never goes back, that execution starts with the first of them, is never suspended under such a clock, and is done no later than the last |
| Independence.ReplayIndependence | engine/context.go:68-81 | two attempts over the same journal, whatever mailbox, fn results, arguments, labels and clock each meets, observe the same recorded results |
| Independence.NothingNewBeforeTheEnd | engine/context.go:131-152 | no attempt calls fn, appends or asks the mailbox before it has observed all that its journal tells |
| Independence.LateSignal | engine/context.go:285-315 | a signal that arrives after an Await's timeout was recorded cannot flip it |
| Progress.DeadlineIsOfTheSuspendedPrimitive | engine/context.go:257-283 | the deadline handed to the scheduler is the one recorded for the Sleep or Await that suspended, and none at all for an Await without timeout |
| Progress.DeadlineIsAhead | engine/context.go:232-236 | under a clock that does not go back that deadline lies after every clock reading of the attempt |
| Progress.TimerProgress | engine/scheduler.go:116-150 | an attempt that starts at the deadline or later and suspends again has moved strictly past the primitive that suspended |
| Progress.TimerRunsBounded | engine/runner.go:141-169 | so timer-driven attempts without a busy loop: at most as many as the code is deep |
| Safety.MutualExclusion | infra/memory/locker.go:41-57 | over all interleavings with crashes, no two live actors of a run are in their critical sections |
| Safety.OnlyTheHolderWrites | engine/runner.go:40-58 | only the lock holder changes metadata or journal, and the journal grows by at most one entry a step |
| Safety.Absorbing | engine/engine.go:314-348 | Succeeded and Cancelled, with output and reason, are never overwritten |
| Safety.FailedLeftOnlyByRetry | engine/engine.go:241-258 | Failed is left by Retry only, which clears error and output and touches nothing else |
| Safety.TerminalJournal | engine/engine.go:337-348 | the journal of a terminal run grows by the audit entry of Cancel only |
| Safety.CallsAtTheEnd | engine/context.go:131-152 | fn is called only by the lock holder, at the end of a working copy equal to the persisted journal, which is exactly recorded by what the code has seen |
| Safety.NoRepeatedEffects | engine/context.go:131-152 | once the entry at a position is stored, fn is never called for that position again, over any further crashes and attempts |
| Recording.JournalShape | engine/engine.go:337-348 | in every reachable state a KindCancel entry is last, unique and only there when the status is Cancelled, and nothing but it follows a KindReturn |
| Recording.CancelNeverConsumed | engine/runner.go:60-69 | no attempt ever has a KindCancel in its journal |
| Bookkeeping.MetaAgrees | engine/runner.go:233-258 | for any code, in every reachable state: Err is empty while Running, Awaiting or Succeeded, resets by Retry included; Output is empty unless Succeeded; and a Succeeded run has a journal that is a complete trace, whose final KindReturn payload, if there is one, is the Output |
| Recording.SuccessIsAnExecution | engine/runner.go:127-140 | for error-blind code, in every reachable state, metadata and journal agree, and a Succeeded run has the journal and output of some uninterrupted execution, with whatever results |
| Honesty.SuccessIsOneExecution | engine/runner.go:127-140 | for error-neutral code, over all interleavings and crashes, a Succeeded run has the journal and output of one uninterrupted execution in which every function returns what that function returned in some attempt and every Await is told what was pushed for its signal |
| Honesty.EveryResultIsItsOwn | engine/context.go:68-81 | and no attempt, at any point of any interleaving, has been told a result that the call in question did not produce |
| Recording.NeverDiverges | engine/runner.go:217-224 | no attempt of error-blind code in any interleaving ends in a mismatch or with entries unread |
| Recording.ResumesAtTheFailurePoint | engine/engine.go:222-225 | after any failures, retries and crashes an attempt that calls fn has observed exactly the recorded results, and calls it for the step that has no entry: for error-neutral code, the function of the very Execute that the journal leads to |
| Signals.SignalConservation | engine/context.go:300-321 | a payload pushed while no attempt is between its Fetch and its Ack of the signal is still in its slot, was overwritten by a later push of the signal, or was stored since, in a new entry, by an Await of that signal; crashes included |
| Signals.ForgottenIffSwept | engine/context.go:300-315 | the exact law: a payload not overwritten is in no slot and was consumed by no Await that fetched after it came, if and only if it came while an attempt was between its Fetch and its Ack of the signal and that very Ack succeeded |
| Signals.EveryDecisionWasSent | infra/memory/mailbox.go:33-63 | every recorded Await payload was pushed, before it was stored, for the signal that its Await asked for |
| Loss.WindowPushIsLost | engine/context.go:300-315 | an execution in which a payload pushed between a Fetch and its Ack is not overwritten, in no slot and consumed by nobody |
| Waiting.NoMissedWakeUp | engine/engine.go:385-408 | a blocked WaitDone with an open channel in a terminal run always has a notify coming or under way that will close it |
| Waiting.WakeReadsTerminal | engine/engine.go:399-401 | a woken call reads a terminal status if and only if Retry has not reset the run since it last became terminal, which was when the call's channel was closed or later |
| Reset.WokenByAResetRun | engine/engine.go:399-401 | an execution in which it does not |
| Waiting.ClosedAtMostOnce | engine/waiters.go:59-67 | no channel is closed twice, nor while the list or another snapshot still has it |
| Timers.OneLiveTimer | engine/scheduler.go:197-237 | over all interleavings at most one timer of a run is live, except those a clearTimer call has in hand |
| Timers.NoTimerAfterCancel | engine/engine.go:350-352 | once Cancel has been through clearTimer no timer is registered and none ever will be, and one still waiting is being cancelled |
| Timers.RegisteredTimerSurvives | engine/scheduler.go:216-227 | a registered timer stays registered and live until it fires, unless the run is dispatched, cancelled, registered anew or the engine stopped: no late cleanup of another generation removes it |
| Timers.LeavesTheTable | engine/scheduler.go:197-237 | fired or not, a registered generation leaves the table only by its own cleanup, a newer registration, clearTimer (of a dispatch or of Cancel) or Stop |
| Steps.PlayIsRun | engine/runner.go:93-107 | the steps of an attempt over the persisted run are a run of the kernel |
| Steps.PlayKeepsCopy | engine/context.go:91-100 | the working copy stays equal to the persisted journal, which only grows, and metadata and lock are left alone |
| Context.WorkflowContext.Consume | engine/context.go:68-81 | which entry is handed out, when there is none left, and when the journal diverges; the cursor moves on a hit only |
| Context.WorkflowContext.Commit | engine/context.go:91-100 | store and working copy get the same entry and the cursor ends behind it, or nothing changes |
| Context.WorkflowContext.Execute | engine/context.go:123-154 | is exactly the kernel's steps for an Execute over the persisted run, with the answers the world gave to those very calls; a recorded result asks nothing of the world; a new one is recorded before it is handed on; a storage failure is reported only after one |
| Context.WorkflowContext.ExecuteWithPolicy | engine/context.go:157-197 | ends; hands on what the last call of fn returned, or that the engine is being stopped; calls fn at most as often as the policy's own maximum, and exactly so often if fn always fails; asks for the context before each call and pauses between calls as the policy says |
| Context.WorkflowContext.Sleep | engine/context.go:207-237 | is exactly the kernel's steps for a Sleep; it is over if and only if the deadline just read or recorded is not ahead of the clock, and a new deadline lies the length of the sleep after a reading made during the call |
| Context.WorkflowContext.Await | engine/context.go:250-339 | is exactly the kernel's steps for an Await; without a recorded decision and without a storage failure it takes the payload in the slot, records it and empties the slot, or else times out exactly if the deadline is not ahead of the clock, or else suspends; a new deadline lies the timeout after a reading made during the call |
| Context.WorkflowContext.Return | engine/context.go:351-375 | is exactly the kernel's steps for a Return; a recorded result wins over the argument; otherwise the argument is recorded, unless it cannot be encoded or the store fails |
| Solo.CallIsExecution | engine/runner.go:27-192 | from any reachable state of the protocol, a call by itself continues the execution, with the effect the engine methods are proved to have |
| Solo.MarkedAsApplied | infra/memory/store.go:56-70 | the options each caller passes to UpdateStatus add up to the change of metadata that the protocol makes |
| Engine.Engine.Cancel | engine/engine.go:297-365 | is the protocol's Cancel, call by call; busy leaves everything as it was; when no operation fails it is busy exactly if the lock is held, and else the run is terminal, the lock released and, unless it was terminal before, the reason in Err and in the audit entry, and the timer cleared before the waiters are notified |
| Engine.Engine.Retry | engine/engine.go:230-271 | is the protocol's Retry, call by call; success only from Failed, with error and output cleared, journal and mailbox untouched, and one dispatch, after the lock is released; when no operation fails the answer is determined by lock and status |
| Engine.Engine.Signal | engine/engine.go:172-207 | is the protocol's Signal, call by call; a terminal run or a failure changes nothing, otherwise the slot holds the payload and the run is dispatched; when no operation fails only a payload that cannot be encoded is an error |
| Engine.Engine.Run | engine/runner.go:27-192 | is the protocol's attempt, call by call, up to its end or the death of the process after the given number of primitives; when no operation fails and the engine is not being stopped, the attempt of a run that is free and not terminal releases the lock, leaves the run not Running, and asks for exactly one notify or wake-up; in any case the journal only grows, a terminal run is left alone, Succeeded means a complete trace, waiters are notified exactly if the run became terminal, and a wake-up is asked for only for a run persisted as suspended, with the deadline at which its attempt was parked |
| Engine.Engine.Classify | engine/runner.go:127-191 | the outcome switch decides as the verdict of the kernel's end, drift guard included, and looks at the engine's context only where the source does |
| Outcomes.OutcomeLaw | engine/runner.go:127-191 | the exact law of the outcome switch, over all interleavings: after a failed Append or Fetch nothing is written; the code's own error, a stray entry, and a value that cannot be decoded or encoded are written as failures with that very text, unless the engine is being stopped; code that ends by itself succeeds, or fails if entries are left unread; a suspension is written with its deadline; and an attempt ends in no other way |
| Outcomes.OutcomeIsWritten | engine/runner.go:233-258 | status, error and output that each verdict writes, and who is told next, or nothing if the store fails |
| Outcomes.StoreFaultWritesNothing | engine/runner.go:178-186 | after a failed Append or Fetch that attempt writes no metadata, no journal and no mailbox, at any later step of any interleaving |
| Outcomes.FailureHasACause | engine/runner.go:66-191 | whenever a run becomes Failed, for any code, its error text says why: not registered, another version, exactly the error its code raised, a journal that its code could not have written, or an undecodable entry or unencodable argument; never a failing store, and no interruption by an engine that is being stopped |
| Outcomes.OnlyTheRegisteredVersionRuns | engine/runner.go:66-84 | no attempt reads a journal or runs code unless the version registered for the run is the run's own |
| Engine.SuccessIsTrace | engine/runner.go:217-248 | what the context's steps leave behind when the switch decides for success is a complete trace |
| Recovery.Fleet.RecoverExcept | engine/engine.go:434-457 | every run that is Running or Awaiting, except the excluded one, is dispatched exactly once and no other; the dispatches fill the queue in turn, each is queued exactly as long as there is room, and all of them are if there is room for all; unless the scheduler is stopped no dispatched run keeps a timer; what is stored is untouched |
| Recovery.Fleet.Start | engine/engine.go:128-166 | fails exactly if the workflow is unknown, the input cannot be encoded or the store refuses; otherwise persists the new run with name, version and input, touches no other, scans if and only if no Start has before, leaving the new run out, dispatches the new run exactly once, and queues it and all runs of the scan if the scheduler runs and has room for them |
| Recovery.Fleet.Dispatch | engine/scheduler.go:83-103 | queued if and only if the scheduler runs and its queue has room, dropped if only the room is missing; the run's timer is gone unless the scheduler is stopped |
| Recovery.RoomForAll | engine/scheduler.go:83-103 | a series of dispatches that finds room for all of them queues every run, in order |
| Scheduler.Scheduler.Enqueue | engine/scheduler.go:83-103 | queued, dropped or refused, exactly when; never a send after the close or beyond the capacity; the run's timer is cancelled unless refused |
| Scheduler.Scheduler.ClearTimerIf | engine/scheduler.go:216-227 | a timer's cleanup takes itself out of the table and never a newer generation |
| Scheduler.Scheduler.RegisterTimer | engine/scheduler.go:230-237 | the newer generation is registered and live, the older one cancelled |
| Scheduler.Scheduler.ScheduleWakeup | engine/scheduler.go:116-150 | no deadline, no timer; a deadline that has passed is dispatched at once; otherwise one live timer for that deadline replaces the former |
| Scheduler.Scheduler.Stop | engine/scheduler.go:160-191 | closes the queue once, cancels every registered timer and empties the table |
| Waiters.Registry.Add | engine/waiters.go:29-33 | appends to the run's list, in place or in a larger copy, and disturbs no other list and no snapshot |
| Waiters.Registry.Remove | engine/waiters.go:37-52 | takes out one registration by shifting in place; the cells of every snapshot of a notify under way keep what they held |
| Waiters.Registry.Detach | engine/waiters.go:59-63 | the list leaves the table and is owned by the notify call alone |
| Waiters.Registry.CloseNext | engine/waiters.go:64-66 | closes the next channel of the snapshot, which was open; anything may come between two turns |
| Waiters.Registry.Notify | engine/waiters.go:59-67 | closes exactly the channels registered for the run |
| Waiters.RemovalKeeps | engine/waiters.go:37-52 | taking one registration out leaves every other channel listed once and still open |
| Memory.Locker.Acquire | infra/memory/locker.go:41-49 | succeeds if and only if the lock is free or expired, and then holds for one lease |
| Memory.LogMetaStore.Read | infra/memory/store.go:43-53 | a fresh copy of the run's journal, in order |
| Memory.LogMetaStore.UpdateStatus | infra/memory/store.go:56-70 | creates or updates one run: the status, then the options in order; the time of creation is set once, the time of the update always |
| Memory.LogMetaStore.ListByStatus | infra/memory/store.go:85-99 | every run in one of the statuses exactly once, with its metadata, and no other |
| Memory.Mailbox.Push | infra/memory/mailbox.go:33-42 | overwrites the one slot, counts the push, leaves other runs alone |
| Memory.Mailbox.Ack | infra/memory/mailbox.go:58-63 | empties the slot, whatever it holds, and no other |
| Policy.BackoffMonotone | policy/retry.go:117-127 | over the reals the k-th delay is the k-fold product by the factor, cut off at the cap, and delays never decrease |
| Policy.ExponentialBackoff.Next | policy/retry.go:105-127 | allows another call exactly while the count is below the maximum; the delay after k failures is the initial one grown k-1 times by the factor, cut off at the cap and truncated; the count moves on a yes only |
| Policy.FixedDelay.Next | policy/retry.go:51-57 | allows another call exactly while the count is below the maximum, always with the configured delay |
| Policy.ForExec | policy/retry.go:145-153 | a copy with the same parameters and a count of zero, however the shared policy was used |
| Clock.FakeClock.After | clock/clock.go:71-87 | a timer due at once fires at once and is not listed; any other is listed, pending |
| Clock.FakeClock.Advance | clock/clock.go:90-111 | fires exactly the timers due at the new time, once each, on empty buffers; the in-place compaction keeps the others, in order |
| Clock.AdvanceTwice | clock/clock.go:90-111 | two advances leave the same timers pending, and fire the same ones, as one advance by the sum |

## Left out

- Logging, metrics, tracing: declared side channels without effect on the state.
- JSON, default versions by SHA-256, random identifiers: a round-tripping codec, given versions, given fresh identifiers.
- Goroutines, channels, tickers and wall time: atomic steps; the recovery ticker is a call of the scan at any time; `Stop` waiting for its workers.
- Bytes: payloads are values, so that the copying of payload bytes in `Append`, `Read`, `Push` and `Fetch` has nothing to protect. The copy of the journal slice by `Read` is modelled.
- `WithTimeout` on fn: an error of fn like any other.
- Caller contexts: a cancelled caller is an operation that fails; the engine context is one flag read by `Execute` and by the outcome switch.
- User-written retry policies: the built-in ones only. A literal policy with a negative maximum is included.
- CreatedAt and UpdatedAt: kept by `Memory.LogMetaStore.UpdateStatus`; nothing in the engine reads them, and `Model.Meta` leaves them out.
- Floating point: delays are over the reals, truncated; overflow of IEEE numbers and of durations is not modelled.
- Storage.Host: the class methods of `Context` and `Engine` run without interference on their run; interleaving is the subject of `Protocol`, of which they are proved to be steps.
- Waiting.NoMissedWakeUp: does not cover a terminal status written by another process, because only the own engine notifies.
- Timers.NoTimerAfterCancel: speaks of the timers of the engine that cancels; another engine's timer dispatches a run that is skipped as terminal.
- Unconditional delivery of wake-ups: a dispatch that meets the lock or a full queue is dropped; `Recovery.Fleet.RecoverExcept` is the remedy.
- `RunSync` and other test hooks, option setters, `Input` and the accessors of the context, examples.
