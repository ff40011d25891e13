# The rwlocker lock family as a verified state machine

rwlocker offers one read-write lock under four scheduling strategies (writer-preferring,
reader-preferring, reader-phase fair, strict fair), each plain or with a reentrant writer, for
threads and for asyncio tasks, and a condition variable on top. This project models all sixteen
combinations with one `Config` value and proves what the family promises over every schedule:
no wakeup is lost, closed runs drain, writers exclude readers, phases hand over, strict fair
bounds the readers that pass a waiting writer between two phase openings, block programs balance,
and a condition wait gives back exactly the hold it took.

## How the model is built

* `WaitQueues` is the FIFO wake queue of `rwlocker/queues.py`: a class with the source's loops,
  proved against functions on a `Room` (the deque plus, per caller inside the wait loop, its
  ticket and whether its waiter object is unsignalled, signalled, or a cancelled future).
* `LockModel` is the lock as a snapshot value and one `Exec` step per critical section: the code
  between two acquisitions of the mutex (threads) or between two awaits (tasks). `acquire` is
  split where the caller sleeps: `Arrive`, then any number of `Resume`, `Expire`, `Cancel` and
  `Abort` steps; the thread writer proxy resets its downgrade marker in a step of its own.
* `RWLockObject` is the same lock as the source has it: a class with mutable counters, an owner
  dictionary and two proxies. Every method is proved equal to the snapshot function, so all
  results about runs of `Exec` are results about the class. `Acquire` is the source's wait
  loop, driven by a schedule of the critical sections of all callers, its own included.
* `Ledger`, `Invariant` and `Preservation` hold the joint invariant and show that every step of
  every variant keeps it. The invariant has four parts: counters agree with the callers they
  count; the phase fields count the waiting readers they reserve for; no reader is parked under
  an open guard; and some waiting writer is awake whenever the write guard is open.
* `Population`, `Seating` and `Marking` say what a step does to the number of waiters and the
  cancelled ones among them, to their tickets, and to the downgrade marker.
* `Refinement`, `Wakeups`, `Drain`, `Schedules`, `Fairness` and `Blocks` hold the results about
  whole runs of the lock.
* `Causes`, `Handoffs` and `Accounts` tell every step a second time, by its cause instead of by
  the calls of the mixins, and prove that this account determines the step.
* `Condition`, `WaitSteps`, `Returns` and `RWConditionObject` hold the condition variable: a step
  relation that embeds the lock, what each step does, what a wait means over whole runs, and the
  class whose pieces are proved against the steps.

A caller is a number. `Config.runtime` selects threads or tasks, which differ in `Expire` (only
threads; the guard is looked at once more), `Cancel` (only tasks; never looked at again) and
in when the marker is reset.

## Where the code and its documentation differ

* The strategy table in the repository's own `README.md` (line 64) says that under strict fair late
  readers cannot cut in front of an already queued writer. They can: a phase is opened for every
  reader waiting at that moment, whether it queued up before the waiting writers or after them.
  `Fairness.LateReadersOvertakeExactlyWhen` proves for every reachable state and step when a
  waiting reader that was shut out is let in ahead of a waiting writer, by a condition on the
  state before the step: the last write hold ends (release or downgrade), or a
  waiting writer times out or is cancelled while no writer is active; except for the downgrade,
  only if readers are listed or the reader already has a reserved slot.
  `Fairness.ReleaseLetsLateReaderIn` and `Fairness.LateReaderOvertakes` give a schedule for each
  of the two. What does hold is the bound of `Fairness.StrictFairAdmission`: between such steps
  nobody joins an open phase.
* A closed run of a plain variant does not always drain: a caller that requests write while it
  holds write sleeps for good. `Drain.DrainsExactlyWhen` proves from which states every closed
  run drains: those in which no writer waits for the lock it holds without being cancelled.
  `Drain.SelfRequestNeverDrains` gives the schedule.
* The plain variants check only that the lock is write-locked before a write release, not who
  asks. `Refinement.ReleaseOutcome` states exactly when a release succeeds, and
  `Refinement.ForeignReleaseSucceeds` shows a thread ending somebody else's write hold.

## Model

| member | source | states |
|---|---|---|
| `WaitQueues.NotifyIsFifo` | rwlocker/queues.py:46-50 | a notification for n waiters removes the shortest prefix of the deque that holds n still-wakeable waiters (the whole deque if there are fewer), signals exactly the wakeable ones in it, skips finished ones without counting them, and keeps the rest in order |
| `WaitQueues.NotifyAllEmpties` | rwlocker/queues.py:52-53 | after notify-all the deque is empty and nobody sleeps |
| `WaitQueues.NotifyWakes` | rwlocker/queues.py:46-50 | a notification keeps the room well formed and changes no ticket and no status except from unsignalled to signalled; a notification for at least one leaves some caller awake whenever anybody is inside |
| `WaitQueues.DiscardRemoves` | rwlocker/queues.py:40-44 | removing a waiter takes out exactly that one, and nothing if it is no longer listed |
| `WaitQueues.DiscardKeepsOrder` | rwlocker/queues.py:40-44 | the result is the queue with exactly that one entry cut out where it stood, the others in their order |
| `WaitQueues.NotifyAllSignals` | rwlocker/queues.py:52-53 | notify-all signals exactly the sleeping waiters |
| `WaitQueues.FifoWakeUnique` | rwlocker/queues.py:46-50 | the exact wakeup determines the room after it |
| `WaitQueues.WakeRespectsOrder` | rwlocker/queues.py:46-50 | nobody is woken before a sleeping caller that stands in front of it |
| `WaitQueues.WakeQueue.WakeWaiter` | rwlocker/queues.py:65-70 | a waiter is signalled if it was unsignalled, else skipped and reported as not woken |
| `WaitQueues.WakeQueue.NotifyUnlocked` | rwlocker/queues.py:46-50 | the pop loop is an exact FIFO wakeup of n waiters, none for n of zero or less |
| `WaitQueues.WakeQueue.NotifyAllUnlocked` | rwlocker/queues.py:52-53 | the deque ends empty and exactly the sleeping waiters were signalled |
| `WaitQueues.WakeQueue.DiscardWaiter` | rwlocker/queues.py:40-44 | the search loop cuts exactly the given waiter out, if listed, and keeps the others in order |
| `WaitQueues.WakeQueue.Wait` | rwlocker/queues.py:72-75 | a fresh unsignalled waiter goes to the tail and the room stays well formed |
| `WaitQueues.WakeQueue.Rouse` | rwlocker/queues.py:85-88 | a wait that ends without a notification leaves no entry behind |
| `RWLockObject.RWLock.constructor` | rwlocker/thread_rwlock.py:234-239 | a new lock is the initial snapshot and satisfies the joint invariant |
| `RWLockObject.RWLock.RecordReaderAcquire` | rwlocker/thread_rwlock.py:244-246 | one more read hold of the caller in the counter and in the owner dictionary, nothing else |
| `RWLockObject.RWLock.WakeWaitingReader` | rwlocker/mixins.py:248-257 | wakes, in place, the readers the phase has reserved slots for (strict fair) or all readers (reader-phase fair), and nobody under a plain writer |
| `RWLockObject.RWLock.StartReaderPhase` | rwlocker/mixins.py:259-265 | opens a phase in place for the readers waiting now |
| `RWLockObject.RWLock.FinishOrContinueReaderPhase` | rwlocker/mixins.py:267-275 | goes on with a busy phase, else closes it and wakes one writer |
| `RWLockObject.RWLock.AcquireReadCore` | rwlocker/mixins.py:295-300 | uses up a reserved slot exactly when the caller has one, takes the hold and wakes the rest of the phase |
| `RWLockObject.RWLock.ReleaseReadCore` | rwlocker/mixins.py:188-192 | fails without change for a caller that holds no read; else gives one hold back, and the last one out passes the lock on |
| `RWLockObject.RWLock.OnReaderAbort` | rwlocker/mixins.py:302-310 | a reader that gives up returns its slot and goes on with the phase or closes it |
| `RWLockObject.RWLock.AcquireWriteCore` | rwlocker/mixins.py:326-329 | the caller becomes the writer, one level deeper in reentrant variants |
| `RWLockObject.RWLock.ReleaseWriteCore` | rwlocker/mixins.py:331-337 | fails without change for a caller that is not the writer (plain: without a writer); only the outermost release passes the lock on |
| `RWLockObject.RWLock.OnWriterAbort` | rwlocker/mixins.py:230-235 | waiting readers get a phase, else one writer is woken (fair strategies); preferred side first (the others) |
| `RWLockObject.RWLock.DowngradeCore` | rwlocker/mixins.py:354-363 | fails without change for a non-writer or a nested writer; else the write hold becomes one read hold and the strategy's readers are woken |
| `RWLockObject.RWLock.Arrive` | rwlocker/thread_rwlock.py:101-131 | a request up to its first sleep equals the `Arrive` step and keeps the joint invariant |
| `RWLockObject.RWLock.LoopTurn` | rwlocker/thread_rwlock.py:115-119 | a turn of the wait loop by an awake caller grants the lock exactly if the guard holds for its ticket, and else puts it back at the tail |
| `RWLockObject.RWLock.Expire` | rwlocker/thread_rwlock.py:121-134 | a timed-out thread leaves the queue first, is still granted if its guard holds, and else abandons |
| `RWLockObject.RWLock.Abort` | rwlocker/async_rwlock.py:108-117 | a cancelled task leaves the queue and the loop and runs the abort hook of its side |
| `RWLockObject.RWLock.Abandon` | rwlocker/thread_rwlock.py:131-134 | the waiting counter drops before the abort hook runs |
| `RWLockObject.RWLock.GrantWaiting` | rwlocker/thread_rwlock.py:117-133 | the hold is taken while the caller still counts as waiting |
| `RWLockObject.RWLock.ResetMarker` | rwlocker/thread_rwlock.py:187-191 | the reset outside the mutex, as a step of its own |
| `RWLockObject.RWLock.Release` | rwlocker/thread_rwlock.py:207-221 | release with routing by the downgrade marker, with the fallback when the routed release raises |
| `RWLockObject.RWLock.Downgrade` | rwlocker/thread_rwlock.py:193-205 | the marker is set only by a downgrade that succeeded |
| `RWLockObject.RWLock.Acquire` | rwlocker/async_rwlock.py:88-117 | the wait loop of a blocking acquire under any schedule, which also decides when the caller takes its turns and whether it is cancelled: the call ends where that schedule leads, what it did is a run of the lock that starts with its request, and it reports the grant exactly if the last step granted the caller its side, the abort exactly if the last step was its abort, a refusal exactly on an upgrade, and otherwise the caller is still inside the loop |
| `Ledger.BlockedHoldsNothing` | rwlocker/mixins.py:286-293 | a caller that is made to wait holds no read, and in reentrant variants nothing at all |
| `Ledger.RecordLedger` | rwlocker/thread_rwlock.py:244-246 | the active counter stays the sum of the owner entries over a read acquire |
| `Ledger.ReaderGoneLedger` | rwlocker/thread_rwlock.py:248-256 | and over a read release, which never leaves an entry of zero |
| `Ledger.GrantWriteLedger` | rwlocker/mixins.py:326-329 | a write grant under an open guard keeps exclusion and the counters |
| `Invariant.WaiterGuards` | rwlocker/mixins.py:440-457 | for a waiting caller other than the writer the guards reduce to conditions on the counters alone |
| `Invariant.PhaseWakesExactly` | rwlocker/mixins.py:248-257 | a strict-fair phase wakes, in queue order, exactly as many still-sleeping readers as it has slots for, and a reader-phase fair one all of them; nothing else changes |
| `Invariant.WriterAbortSettles` | rwlocker/mixins.py:230-235 | whatever was parked or awake before, after `_on_writer_abort` no reader sleeps under an open guard and some writer is awake if the write guard is open |
| `Invariant.FinishSettles` | rwlocker/mixins.py:267-275 | the same after a phase is finished or goes on |
| `Invariant.LastReaderSettles` | rwlocker/mixins.py:188-192 | the same after the last reader has left |
| `Invariant.DowngradeSettles` | rwlocker/mixins.py:354-363 | the same after a downgrade |
| `Preservation.ParkInv` | rwlocker/thread_rwlock.py:115-116 | going back to sleep under a closed guard loses no wakeup |
| `Preservation.GrantWaitingReadInv` | rwlocker/thread_rwlock.py:117-133 | granting a waiting reader keeps the reservation count exact, although the hold is taken before the waiter leaves |
| `Preservation.AbandonInv` | rwlocker/thread_rwlock.py:131-134 | a timeout or cancellation at any moment, also after the waiter was signalled, passes its wakeup on |
| `Preservation.ReleaseInv` | rwlocker/thread_rwlock.py:207-221 | a release, routed or not, successful or not, keeps the joint invariant |
| `Preservation.DowngradeInv` | rwlocker/thread_rwlock.py:193-205 | so does a downgrade |
| `Preservation.StepInv` | rwlocker/mixins.py:10-460 | every step of every variant keeps the joint invariant |
| `Preservation.ReachableInv` | rwlocker/mixins.py:10-460 | it holds in every reachable state of all sixteen combinations |
| `Refinement.StepRefines` | rwlocker/mixins.py:10-460 | every step is allowed by one abstract read-write lock and changes it by exactly one take, drop, downgrade or nothing; parking, waking, re-parking and abandoning are invisible |
| `Refinement.ExclusiveKept` | rwlocker/mixins.py:37-51 | the abstract lock never lets a writer and another reader in together |
| `Refinement.RunRefines` | rwlocker/mixins.py:10-460 | the views of a whole run are a run of the abstract lock, and in every state a writer excludes all readers (plain) or all but itself (reentrant) |
| `Refinement.DepthsAfter` | rwlocker/mixins.py:321-363 | an abstract action changes the read and write depth of its own thread by one and nobody else's |
| `Refinement.ArriveOutcome` | rwlocker/thread_rwlock.py:101-108 | a request raises exactly on a read-to-write upgrade; else it is granted, or waits (blocking) or fails (non-blocking) |
| `Refinement.ReleaseOutcome` | rwlocker/thread_rwlock.py:207-221 | exactly when a release succeeds, for both sides, all variants and any marker; a release that raises changes no hold |
| `Refinement.ForeignReleaseSucceeds` | rwlocker/mixins.py:46-51 | a reachable state of every plain variant in which a thread that is not the writer releases write |
| `Refinement.DowngradeOutcome` | rwlocker/mixins.py:342-363 | a downgrade succeeds exactly for the writer itself at depth one, and else changes nothing |
| `Seating.StepSeats` | rwlocker/thread_rwlock.py:109-133 | only a blocking request takes a seat, with a fresh ticket; only a granted or abandoning waiter gives its seat up; nobody else's seat or ticket changes |
| `Seating.SeatKept` | rwlocker/thread_rwlock.py:109-110 | a ticket that was given up never comes back |
| `Marking.StepMarks` | rwlocker/thread_rwlock.py:187-221 | who sets and who clears the downgrade marker, for every step and outcome |
| `Handoffs.OutcomeExactly` | rwlocker/thread_rwlock.py:90-139 | the outcome of every step, as a condition on the state before it |
| `Handoffs.StepHands` | rwlocker/mixins.py:10-460 | every step wakes on each side, in queue order, exactly as many callers as its cause asks for (last read ended, write ended, a reader or writer gave up, read granted, downgrade), moves no other entry, and opens, closes or keeps the phase as its cause says |
| `Accounts.StepExactly` | rwlocker/mixins.py:10-460 | the accounts of holds, marker, tickets, rooms and phase together determine the state after the step, and the step is that state |
| `Accounts.QueueAfter` | rwlocker/queues.py:46-50 | a step takes a woken front off each queue and keeps the rest in order, with its own caller appended, or cut out where it stood after a timeout or cancellation |
| `Accounts.SleepersGoLast` | rwlocker/queues.py:72-75 | a caller that goes to sleep stands last and asleep, and nobody else on its side moves |
| `Accounts.OneWriterWoken` | rwlocker/mixins.py:28-32 | no step wakes more than one writer |
| `Wakeups.NoLostWakeup` | rwlocker/mixins.py:10-460 | in every reachable state where nobody holds the lock and someone waits, some waiter is signalled and its guard is true now, or (tasks only) a waiter is being cancelled |
| `Wakeups.CancelledPassOn` | rwlocker/async_rwlock.py:108-117 | from any unheld state, in whatever order the cancelled tasks run their abort steps: each runs once, and when all have, nobody waits or some signalled waiter may go ahead |
| `Wakeups.CancelledCanFinish` | rwlocker/async_rwlock.py:108-117 | and all of them can run |
| `Wakeups.ParkedReadersAreBlocked` | rwlocker/mixins.py:286-293 | no reader ever sleeps in the queue while its own guard is true |
| `Wakeups.ReservationAccounting` | rwlocker/mixins.py:259-310 | in every reachable state of strict fair the pending counter is the number of waiting readers with a ticket up to the cutoff while a phase is open, and 0 when it is closed |
| `Wakeups.PhasesNeverHang` | rwlocker/mixins.py:161-205 | an open phase has an active reader or a waiting reader it was opened for |
| `Wakeups.PhaseReadersAreAwake` | rwlocker/mixins.py:259-300 | in every reachable state with an open phase and no writer, no reader the phase was opened for is asleep |
| `Wakeups.HoldersNeverWait` | rwlocker/thread_rwlock.py:258-271 | no reader is ever among the waiters, and in reentrant variants no writer either |
| `Wakeups.Conservation` | rwlocker/thread_rwlock.py:109-134 | counters, owner entries, waiting counters and queue entries agree in every reachable state, through failing releases, timeouts and cancellations |
| `Drain.ClosingDecreases` | rwlocker/thread_rwlock.py:109-139 | every step of a closed run lowers a lexicographic measure of waiters, holds, pending cancellations and awake waiters |
| `Drain.ClosedRunsAreBounded` | rwlocker/thread_rwlock.py:109-139 | a closed run has at most as many steps as the measure of its first state |
| `Drain.StopsExactlyWhen` | rwlocker/mixins.py:10-460 | no waiter can run and no holder can release exactly when the lock is unheld with nobody waiting, or a plain writer waits for itself and everybody sleeps |
| `Drain.ClosedRunsDrain` | rwlocker/mixins.py:10-460 | closed runs are finite and, unless they start with a trapped writer, can stop exactly in the empty lock |
| `Drain.DrainsExactlyWhen` | rwlocker/mixins.py:10-460 | every closed run from a state that comes to a stop empties the lock, if and only if in that state no writer waits for the lock it holds without being cancelled |
| `Drain.DueRun` | rwlocker/mixins.py:10-460 | from every state the waiters and holders can run to a stop, and a trapped writer is still trapped there |
| `Drain.TrappedKept` | rwlocker/mixins.py:37-44 | no step of a closed run traps a writer |
| `Drain.SelfRequestNeverDrains` | rwlocker/mixins.py:37-44 | a reachable state of every plain variant that is not empty, in which nothing can run, and from which closed runs do not drain |
| `Preservation.EnterStillBlocked` | rwlocker/thread_rwlock.py:104-116 | a request whose guard was closed finds it closed again in the loop it has just entered |
| `Schedules.GrantedExactlyWhen` | rwlocker/thread_rwlock.py:101-108 | a request goes straight through exactly for a caller that already reads (read side), for the writer of a reentrant variant (both sides), or if there is no writer and the strategy admits newcomers (read), or the lock is open for writing (write) |
| `Schedules.WaiterGrantedExactlyWhen` | rwlocker/thread_rwlock.py:114-130 | a signalled or timed-out waiter is granted exactly if its side is open for its ticket at that moment |
| `Accounts.DowngradeAdmits` | rwlocker/mixins.py:219-228 | after every successful downgrade a read request goes straight through, newcomers included and whatever waits, in reader-preferring and reader-phase fair; in writer-preferring and strict fair, for a caller without holds, exactly if no writer waits |
| `Schedules.ReadGrantGuard` | rwlocker/mixins.py:286-293 | nobody without holds is ever granted a read against the strategy: no writer is active, and the gate for newcomers, or for that waiter's ticket, is open |
| `Schedules.NoWriteInsidePhase` | rwlocker/mixins.py:199-205 | no outermost write is granted while a reader phase is open |
| `Schedules.DowngradeIsAtomic` | rwlocker/mixins.py:342-363 | from a downgrade until that thread's read depth is zero no write is granted to anyone, in any variant and runtime |
| `Schedules.WriterPreference` | rwlocker/mixins.py:15-32 | writer-preferring: while a writer waits and no write is granted, the threads that hold the lock in any mode only become fewer, recursive reads and downgrades included |
| `Schedules.WriterPreferringDowngrade` | rwlocker/mixins.py:342-352 | a writer-preferring downgrade wakes nobody while a writer waits and every queued reader otherwise |
| `Schedules.WritingEndsExactlyWhen` | rwlocker/mixins.py:331-363 | an active writer is gone after a step exactly if the step is its outermost release (plain: by anybody) or its downgrade at depth one |
| `Fairness.FullReleaseOpensPhase` | rwlocker/mixins.py:230-235 | giving up the last write hold opens a phase for every reader parked at that moment |
| `Fairness.DowngradeOpensPhase` | rwlocker/mixins.py:219-228 | a downgrade opens a phase for every reader inside the wait loop |
| `Fairness.PhaseHandover` | rwlocker/mixins.py:161-171 | both fair strategies, every run: after a full write release or a downgrade no write is granted as long as some reader that was parked then has been neither granted nor has given up |
| `Fairness.AdmissionStep` | rwlocker/mixins.py:277-310 | one strict-fair step lowers the pending counter by exactly the reader it admits or that gives up |
| `Fairness.StrictFairAdmission` | rwlocker/mixins.py:259-310 | over any stretch in which a writer waits and no write is granted, released, downgraded or abandoned, the readers that pass it are exactly the drop of the pending counter, so at most its value at the start however many arrive |
| `Fairness.LateReadersOvertakeExactlyWhen` | rwlocker/mixins.py:212-235 | strict fair, every reachable state and step: while a writer waits before and after the step, a waiting reader that was shut out is let in exactly if the step ends the active writer's hold, or lets another waiting writer give up while none is active, and readers are listed (or the reader has a slot, or it is a downgrade) |
| `Fairness.ReleaseLetsLateReaderIn` | rwlocker/mixins.py:212-217 | a reachable state and a release after which a reader may enter that queued up behind a writer, while that writer must wait |
| `Fairness.QueuedUpReachable` | rwlocker/mixins.py:286-293 | a reader that arrives after a queued writer is parked behind it |
| `Fairness.LateReaderOvertakes` | rwlocker/mixins.py:230-235 | a reachable state and a timeout after which that reader may enter before the writer |
| `Blocks.BlockStep` | rwlocker/thread_rwlock.py:146-152 | the holds of every thread match the blocks it is inside of, whatever the others do |
| `Blocks.EveryExitSucceeds` | rwlocker/thread_rwlock.py:207-221 | reentrant variants: leaving a block never raises and is routed to the side held at that moment |
| `Blocks.ExitRestoresHolds` | rwlocker/thread_rwlock.py:146-152 | back at the same nesting a thread has as many holds as before, on the same sides unless the open write block was downgraded in between |
| `Blocks.MarkerStays` | rwlocker/thread_rwlock.py:187-221 | the downgrade marker stays the downgrader's until its own write block ends |
| `Blocks.UnwindingIsClean` | rwlocker/thread_rwlock.py:150-152 | while a thread unwinds its blocks and all others go on in any way, its next exit is always possible and never raises, every exit closes the innermost block left, and once none is left it holds nothing |
| `Condition.ChecksMeanOneHold` | rwlocker/mixins.py:476-494 | the two checks of `wait` pass exactly for a caller with one hold, of the waited mode |
| `Condition.WaitNeedsOneHold` | rwlocker/thread_rwlock.py:747-755 | `wait` goes ahead exactly for such a caller |
| `Condition.UnlockKeeps` | rwlocker/thread_rwlock.py:756-760 | the release inside `wait` never takes the error path for a registered caller |
| `Condition.CondStep` | rwlocker/async_rwlock.py:703-755 | every step of waiters, notifiers and bystanders keeps the condition invariant |
| `Condition.SleepersHoldNothing` | rwlocker/thread_rwlock.py:756-766 | a sleeping caller has given the lock up completely |
| `Condition.WaitRoundTrip` | rwlocker/async_rwlock.py:729-755 | a wait that registers and returns, notified, timed out or cancelled any number of times on the way back, leaves its caller with exactly the hold it came with, and its waiter is gone |
| `Condition.WaitForMissesNoUpdate` | rwlocker/thread_rwlock.py:793-806 | if the predicate changes only under write and whoever makes it true notifies all before giving write up, no `wait_for` caller sleeps unsignalled while the predicate is true and nobody writes |
| `WaitSteps.NotifyWakesInOrder` | rwlocker/thread_rwlock.py:808-820 | a notify signals exactly the shortest front of the queue with n sleeping callers and changes nothing else |
| `WaitSteps.NotifyAllWakesEverybody` | rwlocker/thread_rwlock.py:822-831 | a notify-all signals exactly the sleeping callers, leaves nobody listed and changes nothing else |
| `WaitSteps.RegisterQueues` | rwlocker/queues.py:138-153 | a wait that goes ahead stands last with an unsignalled waiter, lock untouched, everybody else as before; one that does not leaves everything as it was |
| `WaitSteps.UnlockReleases` | rwlocker/thread_rwlock.py:756-760 | then exactly its one hold is dropped, by the release step of the lock |
| `WaitSteps.SleepEnds` | rwlocker/thread_rwlock.py:762-772 | the end of a sleep records whether there was a signal; only a cancelled task is cut out of the queue, the others keep their order |
| `WaitSteps.CancelFinishesWaiter` | rwlocker/async_rwlock.py:736-741 | a cancellation finishes the sleeping task's waiter where it stands and changes nothing else |
| `WaitSteps.RelockAsks` | rwlocker/thread_rwlock.py:773-774 | each attempt to come back takes one hold of the mode exactly if nothing excludes the caller, else a seat in the wait loop |
| `WaitSteps.ReturnLeaves` | rwlocker/thread_rwlock.py:773-776 | the return cuts the caller out, leaves the others in order and the lock untouched, held once |
| `Returns.WaitReportsTruly` | rwlocker/thread_rwlock.py:755-776 | in every run a wait that wakes as notified, or returns True, was turned from sleeping to signalled by a notify or notify-all after it had registered |
| `Returns.FallsAsleep` | rwlocker/thread_rwlock.py:747-766 | a caller with one hold can call, register and unlock, and then sleeps last in the queue holding nothing |
| `Returns.SignalledCanWake` | rwlocker/thread_rwlock.py:763-772 | a signalled sleeper can wake up, and is then on its way back as notified |
| `Returns.CanReturn` | rwlocker/async_rwlock.py:742-755 | from every state with no trapped or owing writer in which callers not yet asleep hold nothing, some run ends with the return of a given caller that is reacquiring, whoever else holds, waits or is reacquiring |
| `Returns.CanReturnToFreeLock` | rwlocker/async_rwlock.py:742-755 | in particular whenever nobody holds the lock |
| `RWConditionObject.RWCondition.Register` | rwlocker/thread_rwlock.py:747-755 | exactly for a caller with one hold, and before the lock is released, an unsignalled waiter is queued last; otherwise the queue is untouched |
| `RWConditionObject.RWCondition.ReleaseOrRemove` | rwlocker/thread_rwlock.py:756-760 | a release that raises takes the waiter back out |
| `RWConditionObject.RWCondition.Unlock` | rwlocker/thread_rwlock.py:756-760 | a registered caller's release succeeds and it falls asleep |
| `RWConditionObject.RWCondition.LeaveSleep` | rwlocker/thread_rwlock.py:762-772 | the sleep ends by a signal, or in threads by a timeout, and reports which |
| `RWConditionObject.RWCondition.DropWaiter` | rwlocker/async_rwlock.py:739-741 | a cancelled task's waiter leaves the queue before the lock is reacquired |
| `RWConditionObject.RWCondition.Relock` | rwlocker/async_rwlock.py:746-751 | one attempt to reacquire takes one hold and reports it exactly if nothing excludes the caller, and otherwise a seat in the wait loop |
| `RWConditionObject.RWCondition.Return` | rwlocker/thread_rwlock.py:773-776 | at the end the caller holds the lock once in the waited mode and no trace of its waiter is left |
| `RWConditionObject.RWCondition.Notify` | rwlocker/thread_rwlock.py:808-820 | fails without change for a caller that does not own the lock in that mode, else an exact FIFO wakeup of n callers |
| `RWConditionObject.RWCondition.NotifyAll` | rwlocker/thread_rwlock.py:822-831 | as above, for all waiters: nobody sleeps afterwards |

## Left out

- Real time: a timeout is a step that may happen at any moment. A timer that fires a little early, so that a thread leaves the queue, finds time remaining and sleeps again, is not modelled.
- The operating system's mutex and the event loop: a critical section is one step, and a waiter object is unsignalled, signalled or cancelled.
- An exception other than a timeout or cancellation (an interrupt during a wait) is the `Abort` step, which threads may also take; interrupts inside a critical section are not modelled.
- `rwlocker/base.py`, the adapters `Lock`, `Condition`, `AsyncLock`, `AsyncCondition`, the lazy imports and the type protocols: thin forwarding.
- `locked()` of the proxies: a getter.
- Benchmarks, figures, examples and scripts.
- FIFO order among writers: the code does not promise it (newcomers may barge, and a re-parked writer goes to the tail), so nothing is stated.
- Fairness.StrictFairAdmission: bounds a stretch without a writer's release, downgrade or abandon, because each of them opens a new phase; Fairness.LateReadersOvertakeExactlyWhen covers those steps.
- Blocks.EveryExitSucceeds: reentrant variants only, since a nested write block of a plain variant waits for itself.
- Condition.WaitForMissesNoUpdate: the predicate is one boolean shared by the `wait_for` callers, and clients release only what they hold.
- Condition.WaitRoundTrip: a plain variant's write release by a thread that is not the writer is possible in the lock model but excluded here, since it takes a hold away from its owner.
- A condition notification taken by a waiter that then times out or is cancelled is not passed on; the code does not promise it.
- The route of a later `write.release()` after a downgraded holder has waited on `cond.read`: other writers clear the marker meanwhile, and the code does not promise a route.
- RWConditionObject.RWCondition.Relock: the `while True` loop that shields reacquisition is a sequence of `Relock`, `Cancel` and `Abort` steps in any order, not a loop in one method, because other callers run between its turns.
- The loop of `wait_for` is the `checked` flag of a wait whose predicate was found false, once per turn of the loop.
- RWLockObject.RWLock.Acquire: covers the acquire without timeout; a timed acquire is the step `Expire`.
