# Zircon kernel: a verified model of its hardest bookkeeping

This project models parts of the Zircon kernel (and the checksum of its boot loader) in Dafny
and proves what their comments and their callers rely on. The parts are those where many
operations must agree on shared state:

- **Owned wait queues and priority inheritance.** Threads block on queues, queues have owners,
  owners inherit the priority of those who wait for them, through chains of any length. Every
  operation keeps one equation, with the exceptions named below: a live thread inherits exactly
  the highest effective priority among all waiters of all queues it owns. The propagation loop
  ends on every wait-for graph, cyclic ones included, and from every state: also where the
  equation does not hold, the operations end, keep all queues in order and touch only the
  threads they should.
- **The two-level wait queue** (classes of equal priority, each with a head) refines one list
  ordered by priority and arrival; so does the walk that lets its visitor remove threads.
- **The reader-writer lock and the mutex** as state machines whose steps are single atomic
  accesses; the fast paths run between the steps of the thread inside `thread_lock`. Exclusion,
  no lost wakeup, no deadlock, and whom a wake lets in are proved over every run.
- **Timer queues** with coalescing, and the hardware timers of all CPUs.
- **Both schedulers.** The fair scheduler's totals and time slices; the priority scheduler's
  lists and bitmap; the choice of a CPU; a CPU that goes away.
- **Futex states, channels, jobs, FIFOs.** Conservation, exactly-once delivery, orderly death,
  refinement of a bounded sequence.
- **The Internet checksum** that the boot loader's sender and receiver must agree on.

Where the code does something else than its comments or assertions promise, the model follows
the code and a lemma names the input. Where it could be proved, the lemma named here says
exactly when the promise is kept. These are:

- `StaleInheritance.SampleGoesStale`: a queue on a cycle of the wait-for graph can leave its new
  owner with a priority nobody gives it. `SampledPressure.HandOverExactly` says exactly when, as
  a condition on the state before: the pressure rests on the queue itself (`Rests`), the new
  owner inherits less (`inherited`) and would not wait for itself (`FeedsItself`).
- `StaleInheritance.SharedOwnerKeepsBoost`: so can a requeue between two queues of one owner.
  For `WakeAndRequeue` the equation is proved under a condition that excludes it (`Apart`),
  which is sufficient only; who is woken, moved and made owner is proved without it.
- `StaleInheritance.OwnedQueueBelowNewPressure`: a debug assertion in the propagation loop is
  too strong for a thread that owns two queues.
- `RunQueues.DeboostAsIntended`: the floor for threads of low base priority has the wrong sign.
- `FairShare.RoundingIsHalfEven`: fixed-point rounding is not round-half-to-even for odd values.
- `TimerQueue.EndOfWindowLoses`: a queued time at the very end of the slack window loses to any
  other in the window even if it is closer. `TimerQueue.InsertTimer` says that the closest one
  is chosen iff the input is not of this kind (`LosesAtEnd`), and `TimerQueue.OnlyCutOffLoses`
  that a deadline is of this kind only if its slack is centered and reaches beyond the end of
  time; for all others `Timers.System.Set` takes the closest.
- `Timers.CancelledTimerFires`: a callback may set its timer and then cancel it, which leaves it
  queued with no callback. `Timers.System.Cancel` says that this is the only way.
- `DrainCpu.NeverDrained`: a CPU is drained for ever if a ready thread may run on this CPU and on
  others, none of which is active.
- `Channel.CrossingCalls`: a call can be answered by the other end's own call. `Channel.Call` says
  that this happens iff the two ids are the same.
- `FairScheduler.TotalLeftBehind`: a thread whose weight changes after it was marked blocked and
  before it leaves its CPU leaves the total of that CPU off by the difference, for good. So it
  goes when a thread that owns a futex with a more urgent waiter waits on that futex itself and
  names another owner. `FairScheduler.Scheduler.UpdateWeight` says that the totals stay right
  iff the thread is not active in such a state (`LosesCount`) or its weight is the same.

Conventions. A thread, queue, CPU, futex or job is an identifier; the objects are records in
maps held by one class per subsystem. A method is one critical section unless its comment says
otherwise. Clocks, user memory, callbacks and the scheduling of hardware interrupts are
parameters. `old_` names a value before a change; `held`, `pend` and `but` name what an operation
still has in hand, so that invariants can be stated in the middle of it; `known` says whether the
equation of inheritance held before, and `drift` by how much a total is off.

## Model

| member | source | states |
|---|---|---|
| PriorityList.InsertSplits | kernel/kernel/wait.cc:81-109 | a thread goes behind everyone of at least its priority and before everyone of less |
| PriorityList.InsertKeepsOrder | kernel/kernel/wait.cc:183-214 | insertion keeps the order and the absence of duplicates, and says what the new first priority is |
| PriorityList.ReinsertKeepsOrder | kernel/kernel/wait.cc:527-562 | leaving a queue and entering it again with another priority gives a sorted queue of the same threads |
| WaitQueue.FlatSorted | kernel/kernel/wait.cc:183-214 | the two-level queue is one list sorted by priority without duplicates, and the first head is its front |
| WaitQueue.FlatInjective | kernel/kernel/wait.cc:37-66 | that list determines the two-level queue |
| WaitQueue.Queue.Add | kernel/kernel/wait.cc:81-109 | insertion is insertion into the list |
| WaitQueue.Queue.RemoveHead | kernel/kernel/wait.cc:113-127 | removing a head promotes its successor or removes the class |
| WaitQueue.Queue.Remove | kernel/kernel/wait.cc:130-138 | removal of a head or of an inner thread is removal from the list |
| WaitQueue.Queue.BlockedPriority | kernel/kernel/wait.cc:217-224 | priority of the front of the list, -1 when empty |
| WaitQueue.Queue.DequeueOne | kernel/kernel/wait.cc:347-362 | the front leaves, and nobody queued is more urgent |
| WaitQueue.Queue.WakeAll | kernel/kernel/wait.cc:416-457 | everybody leaves, in list order |
| WaitQueue.Queue.PriorityChanged | kernel/kernel/wait.cc:527-562 | remove and insert in the list, and the pressure from before even if the thread was in front |
| WaitQueue.MoveThread | kernel/kernel/wait.cc:378-400 | removal from one list, insertion into the other |
| QueueWalk.ConsiderClass | kernel/include/kernel/owned_wait_queue.h:208-266 | one class is visited in order while visited threads may leave and heads change |
| QueueWalk.ForeachThread | kernel/include/kernel/owned_wait_queue.h:206-281 | every thread is visited once in list order until told to stop, and exactly those taken out are gone |
| QueueWalk.SeenIs | kernel/include/kernel/owned_wait_queue.h:255-266 | who is visited: a front part that ends with the first visit that says stop |
| QueueWalk.KeptIs | kernel/include/kernel/owned_wait_queue.h:208-266 | who is left: everyone not visited or not taken out, in their order |
| WaitGraph.InheritedIsHighestWaiter | kernel/kernel/owned_wait_queue.cc:270-384 | what the equation means: the highest effective priority of all waiters of all owned queues, -1 without any |
| WaitGraph.ReprioritiseOk | kernel/kernel/sched.cc:64-73 | a new priority keeps every queue in order and every blocked thread in exactly one queue |
| WaitGraph.BookStep | kernel/kernel/owned_wait_queue.cc:336-383 | booking the right value at one thread leaves at most one change, at the owner it waits for |
| Propagation.AfterBooking | kernel/kernel/owned_wait_queue.cc:336-383 | after one round nothing is left to book, or one change at the next owner |
| Propagation.RoomShrinks | kernel/kernel/owned_wait_queue.cc:299-384 | each round uses up room, so the loop ends on cyclic graphs too |
| SampledPressure.RestsFalls | kernel/kernel/owned_wait_queue.cc:429-436 | if the pressure of a queue rests on the queue itself, its release lowers it |
| SampledPressure.FallsRests | kernel/kernel/owned_wait_queue.cc:429-436 | and only then: whatever a release lowers rested on the queue, every thread behind it included |
| SampledPressure.CycleFeeds | kernel/kernel/owned_wait_queue.cc:443-455 | a stale sample is right after all if the new owner waits, through others, on a queue it owns |
| SampledPressure.NobodyGivesIt | kernel/kernel/owned_wait_queue.cc:443-455 | otherwise, unless it had as much before, the new owner keeps a priority no waiter gives it |
| SampledPressure.HandOverExactly | kernel/kernel/owned_wait_queue.cc:402-464 | both halves on any graph: the equation holds afterwards iff the sample was not lost, a condition on the state before |
| SampledPressure.NoCycleNoLoss | kernel/kernel/owned_wait_queue.cc:402-464 | no sample is lost at a queue that lies on no cycle |
| OwnedWaitQueue.WaitQueues.MaxOwnedPressure | kernel/kernel/owned_wait_queue.cc:309-322 | the loop finds the maximum over the owned queues |
| OwnedWaitQueue.WaitQueues.QueuePressureChanged | kernel/kernel/owned_wait_queue.cc:270-384 | ends from every state, keeps all queues in order and touches only the chain of owners; restores the equation from one unbooked change, moving priorities in one direction only |
| OwnedWaitQueue.WaitQueues.UpdateBookkeeping | kernel/kernel/owned_wait_queue.cc:402-464 | on every wait-for graph the owner changes and the equation holds afterwards iff the sampled pressure was not lost; a dying thread does not become owner |
| OwnedWaitQueue.WaitQueues.WaitersPriorityChanged | kernel/kernel/owned_wait_queue.cc:386-400 | a change of pressure under the same owner is booked, and nothing happens if there is none |
| OwnedWaitQueue.WaitQueues.AssignOwner | kernel/include/kernel/owned_wait_queue.h:134-144 | on every graph the equation survives iff the sample is not lost; always if there is no new owner or no cycle through the queue |
| OwnedWaitQueue.WaitQueues.BlockAndAssignOwner | kernel/kernel/owned_wait_queue.cc:532-587 | the caller waits on the queue, which is owned as asked; the equation survives iff the sample is not lost; without a block, either the owner changes or nothing does |
| OwnedWaitQueue.WaitQueues.Block | kernel/kernel/wait.cc:253-274 | blocking on an ordinary queue puts pressure on nobody |
| OwnedWaitQueue.WaitQueues.WakeSelected | kernel/kernel/owned_wait_queue.cc:466-530 | exactly the threads the hook selects, in order, become runnable and get the wake-up boost, nothing else about them changes, and those left behind keep their order |
| OwnedWaitQueue.WaitQueues.WakeThreadsInternal | kernel/kernel/owned_wait_queue.cc:466-530 | the new owner is a thread iff that thread is woken, singled out by the hook, and somebody still waits |
| OwnedWaitQueue.WaitQueues.WakeThreads | kernel/kernel/owned_wait_queue.cc:589-604 | the same for a wake: the queue is owned by that thread afterwards, and by nobody iff there is none; who is woken and who stays, in order |
| OwnedWaitQueue.WaitQueues.RequeueThreads | kernel/kernel/owned_wait_queue.cc:606-672 | exactly the threads the hook selects, in order, wait on the other queue |
| OwnedWaitQueue.WaitQueues.WakeAndRequeue | kernel/kernel/owned_wait_queue.cc:606-691 | on every graph and in every state exactly the selected threads are woken or moved, in order; the wake queue is owned by the woken thread singled out while somebody waits, by nobody otherwise, the target by the given thread unless that is dying; if the wake queue's owner waits neither on it nor for the target's owner, the equation survives iff the target's sample is not lost, so always if the target lies on no cycle |
| OwnedWaitQueue.WaitQueues.SetPriority | kernel/kernel/sched.cc:716-750 | base priority and boost are those given, nobody else's change; the equation survives, blocked or not |
| OwnedWaitQueue.WaitQueues.UnblockThread | kernel/kernel/wait.cc:498-525 | the equation survives a timeout: exactly that thread leaves its queue and is boosted; one that is not blocked is left alone |
| OwnedWaitQueue.WaitQueues.Exit | kernel/kernel/owned_wait_queue.cc:256-268 | a dying thread gives up all its queues, which keep their waiters, and everybody else's equation holds |
| Waiting.ChosenIsFront | kernel/kernel/owned_wait_queue.cc:483-522 | without Skip the selection is a front part of the queue, so nobody more urgent or longer waiting is passed over |
| Waiting.ChosenHas | kernel/kernel/owned_wait_queue.cc:483-522 | whoever the walk reaches and the hook selects is selected, at the place given by how many were selected before |
| Waiting.ChosenFrom | kernel/kernel/owned_wait_queue.cc:483-522 | and nobody else is: every place of the selection is such a thread |
| Waiting.SingledOut | kernel/kernel/owned_wait_queue.cc:497-519 | the one selected thread that is to be the owner is the last one, if there is one |
| Waiting.ChosenWaits | kernel/kernel/owned_wait_queue.cc:483-522 | selected threads are waiters, no more than asked for, each once |
| Waiting.EnqueuePlace | kernel/kernel/wait.cc:253-274 | a thread that blocks goes behind everyone of at least its effective priority and before the rest; all else stays |
| Waiting.AcyclicEnough | kernel/kernel/owned_wait_queue.cc:402-464 | an acyclic wait-for graph has no cycle through any one queue, which is what a change of owner needs |
| StaleInheritance.SampleGoesStale | kernel/kernel/owned_wait_queue.cc:402-464 | the run, from an empty system: two threads come to wait for each other, a third boosts them and times out, and a fourth that is given one of the queues keeps a priority nobody gives it |
| StaleInheritance.AloneLoses | kernel/kernel/owned_wait_queue.cc:402-464 | the state before the hand-over is one in which the sample is lost |
| StaleInheritance.ShareOwner | kernel/kernel/owned_wait_queue.cc:532-587 | the state it starts from comes about by blocking and assigning owners |
| StaleInheritance.SharedOwnerKeepsBoost | kernel/kernel/owned_wait_queue.cc:674-691 | a requeue between two queues of one owner leaves it a boost it should lose |
| StaleInheritance.OwnedQueueBelowNewPressure | kernel/kernel/owned_wait_queue.cc:313-321 | the run, from an empty system: where a waiter's priority falls, the asserted bound fails for an owner of two queues |
| BrwLock.MasksReadFields | kernel/include/kernel/brwlock.h:148-156 | masks and additions act on one field of the 64-bit word as long as the fields fit |
| BrwLockSafety.FastOk | kernel/include/kernel/brwlock.h:68-113 | optimistic acquires, releases and the two compare-and-swaps keep the invariant |
| BrwLockSafety.EnterOk | kernel/kernel/brwlock.cc:105-109 | taking thread_lock and turning a reader into a waiter keeps it |
| BrwLockSafety.ContendedReadOk | kernel/kernel/brwlock.cc:110-133 | every branch of the contended read keeps it, from the word seen earlier |
| BrwLockSafety.ContendedWriteOk | kernel/kernel/brwlock.cc:135-167 | every branch of the contended write keeps it |
| BrwLockSafety.ContendedUpgradeOk | kernel/kernel/brwlock.cc:229-246 | both branches of the contended upgrade keep it |
| BrwLockSafety.WakeStepOk | kernel/kernel/brwlock.cc:42-71 | each step of letting readers in one by one keeps it; whom the whole wake lets in is BrwLockWake.WakesAllReaders |
| BrwLockSafety.WakeWriterOk | kernel/kernel/brwlock.cc:45-52 | handing the lock to a waiting writer keeps it |
| BrwLockSafety.StepOk | kernel/kernel/brwlock.cc:17-246 | every step of every thread keeps the invariant |
| BrwLockSafety.RunOk | kernel/kernel/brwlock.cc:34-246 | the invariant holds in every state of every run |
| BrwLockSafety.WriterExcludes | kernel/kernel/brwlock.cc:100-246 | a thread holding the lock for writing excludes every other holder |
| BrwLockSafety.WaitersAreQueued | kernel/kernel/brwlock.cc:100-167 | with thread_lock free the waiter field is the length of the queue, which holds exactly the blocked threads |
| BrwLockSafety.NoLostWakeup | kernel/kernel/brwlock.cc:115-131 | in every state of every run, inside thread_lock too, while a thread is queued somebody holds the lock, is on the way into the slow path, or is inside and about to wake or to become the writer |
| BrwLockSafety.LastOneWakes | kernel/kernel/brwlock.cc:214-227 | the last thread on its way does call Wake |
| BrwLockSafety.WakeFindsSomeone | kernel/kernel/brwlock.cc:42-56 | Wake never starts on an empty queue or under a writer, and a writer it picks is first in the queue |
| BrwLockWake.WakesAllReaders | kernel/kernel/brwlock.cc:42-90 | in every run, from the start of a Wake that meets a reader first to its end: exactly the longest front part of readers of the queue is let in, everybody behind it waits on in their order, a reader behind a writer too |
| BrwLockWake.WakesOneWriter | kernel/kernel/brwlock.cc:45-52 | in every run, a Wake that meets a writer first makes that thread the writer, and everybody behind it waits on in their order |
| BrwLockWake.EveryPathDecides | kernel/kernel/brwlock.cc:17-246 | in every run, each move of a thread from one point of the protocol to another is one the lock word it saw, the queue and its own wish allow: who gets in, who waits, who wakes, who upgrades |
| BrwLockProgress.NeverStuck | kernel/kernel/brwlock.cc:17-246 | in every state of every run, a thread that is not in the queue can take the step it wants to, unless another thread has thread_lock and it needs that too |
| BrwLockProgress.NoDeadlock | kernel/kernel/brwlock.cc:17-246 | in every state of every run, while anybody waits, the thread inside thread_lock, or else one that sees to the waiters, can go on |
| BrwLockSafety.WriterIsKnown | kernel/include/kernel/brwlock.h:172-186 | while a thread has the lock for writing it is recorded as the writer |
| BrwLockSafety.FieldsFit | kernel/include/kernel/brwlock.h:148-156 | with fewer than 2^31 threads no field overflows |
| Mutex.StepOk | kernel/kernel/mutex.cc:123-300 | every step of every thread keeps the invariant |
| Mutex.RunOk | kernel/kernel/mutex.cc:123-300 | the invariant holds in every state of every run |
| Mutex.OneHolder | kernel/kernel/mutex.cc:123-196 | at most one holder |
| Mutex.WordAndQueueAgree | kernel/kernel/mutex.cc:154-181 | with thread_lock free CONTESTED is set iff somebody waits, and the queue is owned by the holder in the word |
| Mutex.WaitersHaveHolder | kernel/kernel/mutex.cc:154-196 | in every state of every run, while somebody waits the word names a thread that holds the mutex or is releasing it, or was handed it |
| Mutex.ReleaseNeverPanics | kernel/kernel/mutex.cc:215-290 | neither panic of a release is reachable, and the woken thread is always set |
| Mutex.HandsOffToFirst | kernel/kernel/mutex.cc:239-294 | the first waiter is the next holder, none has a higher priority, and nobody slips in between |
| Mutex.WokenIsHolder | kernel/kernel/mutex.cc:192-194 | a thread that returns from blocking is the holder |
| Mutex.EveryMoveDecides | kernel/kernel/mutex.cc:123-300 | in every run, a thread that moves goes where the word and the queue send it: who gets in at once, who waits, who hands on and to whom |
| Mutex.FirstLeavesFirst | kernel/kernel/mutex.cc:239-257 | in every run, whoever stops waiting was first in the queue, no waiter is more urgent, and the holder is releasing the mutex to it |
| Mutex.WaitsBehindEquals | kernel/kernel/mutex.cc:154-186 | in every run, whoever starts to wait goes behind all who are at least as urgent and before all others, and the queue is owned by the holder from then on |
| Mutex.NeverStuck | kernel/kernel/mutex.cc:123-300 | in every state of every run, a thread that is not in the queue can go on, unless another thread has thread_lock and it needs that too |
| Mutex.NoDeadlock | kernel/kernel/mutex.cc:123-300 | in every state of every run, while anybody waits, the thread inside thread_lock, or else the one the word names, can go on |
| TimerQueue.SaturationClamps | system/public/zircon/time.h:39-73 | the sign test of the overflow path clamps correctly for two 64-bit operands |
| TimerQueue.WindowHoldsDeadline | kernel/kernel/deadline.cc:13-37 | the slack window holds the deadline, also where it saturates; how far it reaches is TimerQueue.WindowIs |
| TimerQueue.WindowIs | kernel/kernel/deadline.cc:13-37 | a time is between earliest and latest iff it is at most the slack away, not before a late deadline and not after an early one |
| TimerQueue.CloserExactly | kernel/kernel/timer.cc:165-169 | saturated differences never change which neighbour is closer |
| TimerQueue.InsertTimer | kernel/kernel/timer.cc:84-197 | sorted, old queue plus one, in the window, coalesced iff a queued time lies in it; the closest queued time of the closed window is chosen iff none at its very end is beaten to it; the earlier one when equally close |
| TimerQueue.OnlyCutOffLoses | kernel/kernel/timer.cc:199-247 | for every deadline a caller can give: this happens only if centered slack reaches beyond the end of time |
| TimerQueue.EndOfWindowLoses | kernel/kernel/timer.cc:159-174 | such a deadline, and a queued time at the end of its window that loses although it is closer |
| Timers.HardwareInTime | kernel/kernel/timer.cc:69-82 | the hardware goes off no later than any finite timer or preemption |
| Timers.System.Set | kernel/kernel/timer.cc:199-247 | a timer is queued with a callback and the CPU stays armed; it fires when asked, or with a timer queued in its window iff there is one, the closest one unless the window is cut off at the end of time; never farther off than its slack, never early in late mode nor late in early mode; a cancelled timer is not set from its callback |
| Timers.System.PreemptReset | kernel/kernel/timer.cc:249-259 | the preemption timer has the given deadline, the queue stays, and the hardware is set to the deadline iff that is earlier than what it is set to |
| Timers.System.PreemptCancel | kernel/kernel/timer.cc:261-272 | the CPU stays armed without touching the hardware |
| Timers.System.Cancel | kernel/kernel/timer.cc:274-326 | the timer leaves its queue, on whatever CPU, iff it is not active on the calling CPU; both CPUs stay armed, and the hardware is touched only for the first timer of the calling CPU: set if the next one is sooner than what it is set to, stopped if nothing is left; every queued timer keeps a callback iff the early return did not meet a queued timer |
| Timers.System.CancelEnd | kernel/kernel/timer.cc:328-339 | once the callback has ended, the timer has none; every queued timer keeps its own iff nobody has set this one meanwhile |
| Timers.SetThenCancel | kernel/kernel/timer.cc:285-293 | for every system: a callback that sets and then cancels its timer leaves it queued without a callback |
| Timers.CancelledTimerFires | kernel/kernel/timer.cc:365-406 | the run: such a timer is taken off its queue when due although its callback is NULL |
| Timers.System.TickBegin | kernel/kernel/timer.cc:343-361 | the hardware has fired; the preemption timer is served if due |
| Timers.System.TickFire | kernel/kernel/timer.cc:365-406 | a due timer fires earliest first and is marked busy, none that is not due; it has a callback if every queued timer has |
| Timers.System.TickEnd | kernel/kernel/timer.cc:408-426 | the CPU is armed for whatever comes first, the front of the queue or the preemption timer |
| Timers.System.Adopt | kernel/kernel/timer.cc:450-462 | timers are merged without loss and keep their times |
| Timers.MergedHolds | kernel/kernel/timer.cc:450-462 | in a merged queue exactly the timers of both queues are found, with their times |
| Timers.System.TransitionOff | kernel/kernel/timer.cc:444-472 | another CPU takes over all timers, merged in order of time with its own, and is armed for them |
| Timers.System.Thaw | kernel/kernel/timer.cc:474-494 | the deadline is recomputed from the queue and the preemption timer |
| FairShare.RoundingIsHalfEven | system/ulib/ffl/include/ffl/fixed_format.h:87-158 | for values that are not negative, rounding is half-to-even except for odd integers with a fraction between a quarter and a half |
| FairShare.RoundsUpTooEarly | system/ulib/ffl/include/ffl/fixed_format.h:139-154 | 1.375 is rounded to 2 |
| FairShare.SliceBound | kernel/kernel/fair_scheduler.cc:478-496 | a slice exceeds the exact share by at most one granule, saturation included |
| FairShare.SliceEnough | kernel/kernel/fair_scheduler.cc:478-496 | a slice is at most half a granule and one unit of rounding below the exact share, so less than a granule, as long as the product does not saturate |
| FairShare.SliceNotMuchMore | kernel/kernel/fair_scheduler.cc:478-496 | above one granule it exceeds the exact share by less than three quarters of a granule, the quarter being the rounding flaw |
| FairShare.SliceMonotone | kernel/kernel/fair_scheduler.cc:478-496 | a heavier task never gets less |
| FairShare.SlicesEnough | kernel/kernel/fair_scheduler.cc:456-496 | a round gives all tasks together at least the period less one granule each |
| FairShare.RoundFitsTwice | kernel/kernel/fair_scheduler.cc:456-496 | every task gets a granule and a full round takes at most period plus task count, so at most two periods |
| FairScheduler.RoundOnCpu | kernel/kernel/fair_scheduler.cc:456-496 | the same for the queue, the count and the total of a CPU: everyone queued or running gets a granule, and a round takes at most two periods if the total is right |
| FairScheduler.Scheduler.FindTargetCpu | kernel/kernel/fair_scheduler.cc:242-296 | a CPU of affinity and active mask with the least total, or none above zero; despite the early exit the least one if the totals are right; the last CPU, then the current one, where these are as good |
| FairScheduler.Scheduler.TakeFront | kernel/kernel/fair_scheduler.cc:193-195 | the queued task with the earliest finish time, the earliest inserted among equals |
| FairScheduler.Scheduler.InsertTask | kernel/kernel/fair_scheduler.cc:577-605 | totals, count and place of a task that joins; a second insert does nothing |
| FairScheduler.Scheduler.Remove | kernel/kernel/fair_scheduler.cc:607-638 | totals and count of a task that leaves |
| FairScheduler.Scheduler.Requeue | kernel/kernel/fair_scheduler.cc:555-575 | a task goes where finish time and generation put it; an adjusted one keeps its generation |
| FairScheduler.Scheduler.EvaluateNext | kernel/kernel/fair_scheduler.cc:199-240 | conservation through every branch; a thread that is put back has the finish time computed for it and the next generation of its CPU; the next thread is the current one or has the earliest finish time, and not the current one if its slice expired and a queued one is earlier; idle only with an empty queue; a thread moves only to where it may run; nothing happens to any other thread or CPU |
| FairScheduler.Scheduler.Unblock | kernel/kernel/fair_scheduler.cc:656-677 | conservation, on the least loaded allowed CPU; an active thread is only marked ready |
| FairScheduler.Scheduler.Migrate | kernel/kernel/fair_scheduler.cc:799-837 | conservation, and a queued thread that may not stay ends up queued on the least loaded CPU where it may run, with the finish time computed there; others stay |
| FairScheduler.Scheduler.MigrateUnpinned | kernel/kernel/fair_scheduler.cc:839-879 | conservation; only pinned threads stay, in order; each of the others is at home on a CPU that is active and allowed, with the finish time computed for it, and no thread from elsewhere is touched |
| FairScheduler.Scheduler.UpdateWeight | kernel/kernel/fair_scheduler.cc:881-938 | all thread states: the new weight, total and place in the queue; every total stays right iff the thread is not active in a state that leaves the total alone, or the weight is the same, and is off by the difference otherwise |
| FairScheduler.BlockReweighed | kernel/include/kernel/wait_queue_internal.h:95-98 | for every scheduler: a running thread that is marked blocked, then reweighed, then leaves its CPU, changes the error of that CPU's total by exactly the difference |
| FairScheduler.TotalLeftBehind | kernel/kernel/fair_scheduler.cc:924-933 | the run, from an empty scheduler: nobody is left and the total is 10 |
| RunQueues.BoostsStayInRange | kernel/kernel/sched.cc:97-148 | a boost or deboost moves the priority by one step or none and keeps it in range |
| RunQueues.LowThreadKeepsBoost | kernel/kernel/sched.cc:126-143 | at base priority 3 a boost of 3 survives an expired quantum |
| RunQueues.DeboostAsIntended | kernel/kernel/sched.cc:116-148 | the deboost is as intended iff the quantum did not expire, the base priority is not low, or the boost is outside (-base, base] |
| RunQueues.HighestIsTop | kernel/kernel/sched.cc:275-278 | the bitmap formula finds the highest list that is not empty |
| RunQueues.Scheduler.RandCpu | kernel/kernel/sched.cc:151-179 | finds a CPU of the mask that is active iff there is one, the next in turn after the one before |
| RunQueues.Scheduler.FindCpu | kernel/kernel/sched.cc:182-237 | a CPU of affinity and active mask whenever there is one; an idle one if possible, the current one first, then the last one; without an idle one the last one, and the current one only if there is no other |
| RunQueues.Scheduler.Insert | kernel/kernel/sched.cc:240-258 | the thread joins its list in front or at the back as asked; bitmap, lists and the thread's own record stay in agreement |
| RunQueues.Scheduler.Remove | kernel/kernel/sched.cc:261-272 | the same, and the bit is cleared with the last thread |
| RunQueues.Scheduler.GetTop | kernel/kernel/sched.cc:280-308 | the first ready thread of the highest priority on that CPU |
| RunQueues.Scheduler.FindCpuAndInsert | kernel/kernel/sched.cc:333-354 | queued where it may run whenever that is possible, in front if its slice is not used up and at the back otherwise, and on no other list |
| RunQueues.Scheduler.PriorityChanged | kernel/kernel/sched.cc:640-689 | off the old list, then to the front of a higher list or the back of a lower one; nothing else moves |
| DrainCpu.TransitionOff | kernel/kernel/sched.cc:537-569 | if nobody is stranded it ends; pinned threads stay in their old order, all others are ready where they may run, nobody else moves |
| DrainCpu.KeepIs | kernel/kernel/sched.cc:549-569 | who stays: the pinned threads of a list, in their order |
| DrainCpu.NeverDrained | kernel/kernel/sched.cc:549-559 | otherwise it does not: with an unpinned ready thread none of whose CPUs is active the loop goes on after any number of rounds |
| FutexPool.ActiveBelowThreads | kernel/object/futex_context.cc:385-398 | active futexes are named by distinct threads, so there are fewer than threads while one runs |
| FutexPool.Context.Grow | kernel/object/futex_context.cc:191-202 | one state more for one thread more |
| FutexPool.Context.Shrink | kernel/object/futex_context.cc:204-211 | there is always a free state to give back |
| FutexPool.Context.Activate | kernel/object/include/object/futex_context.h:210-221 | the pool is never empty when a running thread needs a state |
| FutexPool.Context.Retire | kernel/object/include/object/futex_context.h:225-233 | only a futex without waiters goes back to the pool |
| FutexPool.Context.Wait | kernel/object/futex_context.cc:218-320 | all outcomes, and the exact queue by priority afterwards; a futex with a waiter is active |
| FutexPool.Context.Timeout | kernel/object/futex_context.cc:327-340 | at any point of any operation: a timed-out thread leaves the queue and still names its futex, which stays active |
| FutexPool.Context.CleanUp | kernel/object/futex_context.cc:349-421 | the last one out returns the state, whoever that is |
| FutexPool.Context.Wake | kernel/object/futex_context.cc:426-482 | exactly the first waiters run and name nothing: as many as asked for or there are, one at most if it is to be the owner; an emptied futex is returned |
| FutexPool.Context.Requeue | kernel/object/futex_context.cc:484-634 | all outcomes, the owner test included; exactly the first waiters are woken and the next ones moved by priority, naming the target; emptied futexes are returned; no state is lost |
| FutexPool.InsertAllSorted | kernel/object/futex_context.cc:596-607 | threads that are moved one by one leave the target in order of priority |
| Channel.Pigeonhole | kernel/object/channel_dispatcher.cc:262-273 | more ids than waiters cannot all be in use |
| Channel.Inbox.AllocTxid | kernel/object/channel_dispatcher.cc:262-273 | the search ends with the first unused id after the counter, with the high bit set, and the counter stands at that id |
| Channel.NextIdDiffers | kernel/object/channel_dispatcher.cc:262-273 | the id that is found is not the one found just before |
| Channel.TakenOk | kernel/object/channel_dispatcher.cc:203-204 | a reader takes the oldest message that is neither taken nor delivered |
| Channel.Inbox.WriteSelf | kernel/object/channel_dispatcher.cc:335-360 | a message goes to the one waiter with its id, or to the back of the queue, never both |
| Channel.Inbox.Deliver | kernel/object/channel_dispatcher.cc:387-393 | the waiter leaves the list with the message |
| Channel.Inbox.Read | kernel/object/channel_dispatcher.cc:176-210 | all outcomes; first in, first out; exactly one queued message is taken and no other changes its fate |
| Channel.Inbox.Register | kernel/object/channel_dispatcher.cc:276-281 | a waiter joins the list once, under an id of its own; the counter stands at that id |
| Channel.Inbox.EndCall | kernel/object/channel_dispatcher.cc:296-333 | a waiter removes itself iff nobody else has, and gets its reply |
| Channel.Inbox.CancelAll | kernel/object/channel_dispatcher.cc:133-144 | every listed waiter leaves with the status, all others are untouched |
| Channel.Write | kernel/object/channel_dispatcher.cc:212-231 | all outcomes; a failure changes nothing, a success is delivered or queued, once |
| Channel.Call | kernel/object/channel_dispatcher.cc:233-294 | all outcomes; a waiter in use on any channel is refused; registered before written, under the same id; the request is taken for a reply iff the other end waits under that id; a failed owner check leaves the waiter behind |
| Channel.Resume | kernel/object/channel_dispatcher.cc:314-333 | the waiter is free again, with its reply or its status, and the counter of ids stays |
| Channel.CallAgain | kernel/object/channel_dispatcher.cc:233-294 | for every channel: a call that ends and one made after it have different ids, so a late reply to the first is not taken for one to the second |
| Channel.CrossingCalls | kernel/object/channel_dispatcher.cc:262-284 | two calls that cross get the same id, and the second request is handed to the first caller as its reply |
| JobTree.Tree.AddChildProcess | kernel/object/job_dispatcher.cc:176-186 | only a ready job gains a process, and stays ready; counts and signals match |
| JobTree.Tree.CreateChild | kernel/object/job_dispatcher.cc:121-143 | only a ready job above the bottom gains a child, which is fresh, and stays ready |
| JobTree.Tree.RemoveChildProcess | kernel/object/job_dispatcher.cc:218-236 | the job is found ready to die iff it is being killed and this was its last child |
| JobTree.Tree.BeginKill | kernel/object/job_dispatcher.cc:350-381 | ready becomes killing, once; ready to die iff without children |
| JobTree.Tree.FinishDead | kernel/object/job_dispatcher.cc:279-298 | only a killed job without children dies, and its parent is not dead |
| JobTree.Tree.LeaveParent | kernel/object/job_dispatcher.cc:238-254 | the parent is found ready to die iff it is being killed and this was its last child; all else stays, processes included |
| JobTree.Tree.Die | kernel/object/job_dispatcher.cc:279-298 | deaths propagate upwards and end; no ready job and no process is affected |
| JobTree.Tree.Kill | kernel/object/job_dispatcher.cc:350-396 | recursion ends, states only move forward, below a job that is not ready nothing is ready except during a Kill, only jobs of the subtree stop being ready, and every job keeps its processes |
| JobTree.Tree.KillJob | kernel/object/job_dispatcher.cc:350-396 | afterwards exactly those jobs are ready that were and are not in the subtree, and every job has the processes it had |
| JobTree.SubtreeKilled | kernel/object/job_dispatcher.cc:350-396 | no ready job is left anywhere in the subtree |
| Fifo.Pow2Divides | kernel/object/fifo_dispatcher.cc:25-32 | a power of two divides the range of the counters |
| Fifo.WrapMod | kernel/object/fifo_dispatcher.cc:142 | a wrapped counter points to the right slot |
| Fifo.PatchAppends | kernel/object/fifo_dispatcher.cc:141-163 | copying into the next slots appends and disturbs nothing |
| Fifo.Ring.Write | kernel/object/fifo_dispatcher.cc:118-175 | all outcomes; as much as fits is appended, or nothing changes; the signals match |
| Fifo.WriteFromUser | kernel/object/fifo_dispatcher.cc:107-116 | refused iff the other end is gone, otherwise appended there |
| Fifo.Ring.Read | kernel/object/fifo_dispatcher.cc:177-236 | all outcomes; elements leave from the front in order, or nothing changes; the signals match |
| Inet6.FoldStep | bootloader/src/inet6.c:150-152 | folding makes the sum smaller and keeps its representative modulo 65535 |
| Inet6.Checksum | bootloader/src/inet6.c:140-154 | the representative in 1..0xFFFF of the sum of all words, odd lengths included |
| Inet6.OddLikePadded | bootloader/src/inet6.c:147-149 | an odd last byte counts like a word padded with zero |
| Inet6.Ip6Checksum | bootloader/src/inet6.c:169-183 | the complement of the total, never zero |
| Inet6.UdpSeal | bootloader/src/inet6.c:210-238 | the field is cleared, then set |
| Inet6.IcmpSeal | bootloader/src/inet6.c:242-266 | the field is set over whatever was there |
| Inet6.Receive | bootloader/src/inet6.c:268-284 | the receiver's test, with both special cases of the field |
| Inet6.SealedAccepted | bootloader/src/inet6.c:242-322 | a sealed packet is accepted iff the field held zero or 0xFFFF, the two zeros of the sum |
| Inet6.UdpRoundTrip | bootloader/src/inet6.c:210-284 | every UDP packet that is built is accepted |
| Inet6.IcmpRoundTrip | bootloader/src/inet6.c:242-322 | so is every ICMP packet, because both callers of icmp6_send clear the field first |
| Inet6.OneWordChanged | bootloader/src/inet6.c:268-284 | changing one other word is noticed unless zero and all ones are exchanged |
| Inet6.OddByteChanged | bootloader/src/inet6.c:147-149 | a change of an odd last byte is always noticed |
| Inet6.HeaderChanged | bootloader/src/inet6.c:169-176 | so is a change of the protocol, and of the length unless zero and all ones are exchanged |

## Left out

- OwnedWaitQueue.WaitQueues.WakeAndRequeue: the equation is proved if the wake queue lies on no cycle and its owner does not wait for the target's owner; it can fail otherwise, but not in every excluded state.
- FairScheduler.Scheduler.MigrateUnpinned: an unpinned thread with no online CPU is excluded, because FindTargetCpu asserts that there is one and has no defined result without.
- FairScheduler.Scheduler.UpdateWeight: that a blocked thread passes its change on to the queue it waits on is OwnedWaitQueue.WaitQueues.SetPriority, not part of this contract.
- OwnedWaitQueue.WaitQueues.Exit: the thread that exits is the running one; threads killed while blocked are woken first and exit later.
- FutexPool.Context.Wait: the owner of a pooled futex state is not tracked.
- JobTree.Tree.Kill: a job that is destroyed while ready, allocation failures, the death of processes, and the halt when the root job is empty are not modelled.
- BrwLockSafety.RunOk: the queue may be in any order and change it at any time, so nothing is said about fairness; weak memory orders are taken as sequentially consistent.
- Mutex.RunOk: memory orders are taken as sequentially consistent; threads that die holding the mutex are not modelled.
- Rescheduling interrupts, context switches, tracing, counters and debug output.
- The computation of virtual start and finish times in the fair scheduler; they are parameters.
- Real-time and deadline threads, the idle thread as a schedulable thread, and CPU hot-plug beyond draining a CPU.
- Ethernet and IPv6 address handling, neighbour discovery and the protocols above UDP.
- Handles, rights, observers and policies of kernel objects.
