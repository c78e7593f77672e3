# A verified model of the Saros kernel and its sequential neighbours

Saros is the small preemptive kernel that runs on the one hart of a home-built RISC-V computer. This
project models, in Dafny, the parts of it in which a mistake would be hardest to see, and proves what
they promise:

- **The kernel as one step machine** (`Kernel*.dfy`, on top of `Sched.dfy`, `Timers.dfy`, `Orbits.dfy`
  and `Pool.dfy`). A stretch of code that runs with interrupts off is one step. Between any two steps of a
  thread an interrupt may arrive, run its handlers and reschedule. Threads, events, signals, mutexes,
  timers and the two masked SD interrupts are unbounded in number and interleaved in any way. An
  assertion that fires, a pop from an empty list or an empty pool is an explicit `Abort`.
- **The same operations as code that updates objects in place** (`Scheduler.dfy`, `Sync.dfy`,
  `TimerDriver.dfy`, `PoolAllocator.dfy`): thread and timer objects, intrusive lists, loops. Each
  method is proved to do to its object's `View()` or `Value()` what the operation of the machine says.
- **The one-producer, one-consumer ring and the UART transmit path** (`Ring.dfy`, `Uart.dfy`), at the
  grain of single reads and writes of the shared indices.
- **The pool allocator's owners over whole histories** (`Owners.dfy`).
- **Nested interrupt locks** (`SpinLock.dfy`), as a law about saved interrupt states and as lock objects
  that are taken and released in nested scopes.
- **Four sequential algorithms**: FAT directory traversal and file reading (`Fat.dfy`), the Intel HEX
  writer (`Hex.dfy`) and the in-place realignment of SPI data (`Spi.dfy`).

A thread is named by its stack's slot in the stack pool, because the thread object lives at the top of
that stack. Because slots are reused, every thread also carries a serial number that is not.

## What the code does and what it is meant to do

Where the two differ the model keeps the code and says exactly when it does what is meant.

- `wakeOneThread` (saros.cpp:37-39) schedules the front waiter, which already unlinks it, and then pops
  again. The machine has a parameter, `AsWritten` or `Intended` (only the front is woken).
  `Sched.WakeOneAsWrittenKeepsIff` and `KernelSteps.UnlockKeepsIff` show that the code as written keeps
  the invariants if and only if nobody is waiting: with one waiter it pops an empty list, with more it
  leaves the second one asleep on no list. `KernelLock.UnlockMeetsWaiter` is a run of eight steps from
  start-up after which `unlock` does meet a waiter. Results over runs hold for `Intended` without
  restriction and for `AsWritten` for as long as `unlock` has not met a waiter
  (`KernelRuns.HitsWakeOne`). Mutual exclusion does not need that restriction and is proved for every run
  of either version.
- `Mutex::lock` tests `_locked` with interrupts on and sleeps on what it saw (mutex.cpp:10-11).
  `KernelLock.LockSleepsOnFreeMutexIff` says, over runs, when that puts a thread to sleep on a free mutex:
  exactly when, of what happened since the test, the last thing done to the mutex was to unlock it.
  `KernelLock.LockSleepsOnFreeMutex` is such a run.
- `Event::wait` can return although its event is unset from the call to the return: a setter has stored
  `_active` and is preempted before it wakes the waiters, the event is cleared, and the setter's wake-up
  reaches somebody who began to wait after that. `KernelWait.WaitReturnsUnset` is such a run, and
  `KernelDrive.WaitReturnsSetIff` says exactly from which states this can happen: those in which the event
  is unset and some setter is between its store and its wake-up.
- `handleTimerInterrupt` advances a periodic timer until its 64-bit time is after the sampled one, and the
  addition wraps. Let g be the largest power of two that divides the period. The times a timer visits
  have the maximum 2^64 - g + wake mod g, so it gets past `now` if and only if `now` is below that
  (`Orbits.EscapesIff`), and the loop ends if and only if every due periodic timer in the queue does
  (`Timers.LoopEndsIff`). For the first half of the counter's range it ends whatever the queue holds
  (`Timers.FirstHalfLoopEnds`); a period of 2^63 shows that in the second half it need not
  (`Timers.HalfRangeTimer`). That condition is the guard of the machine's timer interrupt, and no result
  assumes more about wrapping except the two that are about times in order: occurrences are fired in the
  order of their times if and only if no due timer wraps on its way (`Timers.FiringOrderIff`), and an
  arithmetic progression of times is what such a timer has (`Timers.OccurrencesSpec`,
  `Timers.PeriodicSettles`).
- `PoolAllocator::free` does not notice a slot that is free already. The links are a list afterwards if and
  only if the slot was live (`PoolAllocators.PoolAllocator.Free`); otherwise they run in a circle
  (`PoolAllocators.DoubleFreeCycles`).
- `TimerHandle::clear` frees the slot without unlinking the event and without clearing the handle.
  `KernelSteps.ClearKeepsIff` has the exact condition under which that is sound, and the machine clears
  handles only then.
- `postprocess_buffer` copies down from the top, so it smears bytes when the last line is more than half
  full. `Spi.InOrderIff` has the exact condition.
- `FAT::nextCluster` (fat.cpp:192) takes a remainder by the wrong number and does not mask the top four
  bits of an entry. The model leaves the successor of a cluster open: it is any function.
- `emptyPtr` makes a `Ptr` with a pool and no element, and clearing that reaches the range assertion of
  `free`. `Owners.AbortsIff` counts it among the two ways a history of owners can abort.

## Model

| member | source | states |
|---|---|---|
| KernelRuns.StepKeepsIff | CompuSar.srcs/saros/saros/saros.cpp:33-57 | from any state satisfying the invariant, any enabled action of a thread, an interrupt or a device keeps it and aborts exactly on a full pool, if and only if it is not `unlock` as written meeting a waiter; after an interrupt or a switch nobody Ready beats the running thread |
| KernelRuns.InvAlong | CompuSar.srcs/saros/saros/irq.cpp:282-300 | the invariant holds in every state of every run, with any number of threads and interrupts anywhere between two steps |
| KernelRuns.StartKeeps | CompuSar.srcs/saros/saros/saros.cpp:15-27 | start-up succeeds exactly with two stacks or more, and then satisfies the invariant, with the two UART events set, the SD interrupts masked, no timer queued and no mutex held |
| KernelRuns.EachThreadOnOneList | CompuSar.srcs/saros/saros/kernel/scheduler.cpp:35-131 | in every run each live thread is on exactly one list exactly once: its priority's ready list if Ready, one wait queue if Sleeping |
| KernelRuns.OnlyEmptyPoolsAbort | CompuSar.srcs/saros/saros/kernel/scheduler.cpp:85-131 | after any run the assertions of `sleepOn` and `schedule` and the empty-ready-queue abort cannot fire: an action aborts if and only if it asks a full pool for a slot |
| KernelRuns.RunningThreadIsHeadAndBest | CompuSar.srcs/saros/saros/kernel/scheduler.cpp:110-131 | in every state of a run the running thread heads its own ready list, and right after a reschedule no Ready thread has a better priority |
| KernelOrder.PreemptedBeforePeers | CompuSar.srcs/saros/saros/kernel/scheduler.cpp:110-131 | a thread that has run stays first of its priority while it stays Ready: whoever runs at that priority is that thread |
| KernelOrder.StaysHead | CompuSar.srcs/saros/saros/kernel/scheduler.cpp:98-122 | over any stretch of a run in which it stays Ready, a thread that ran stays at the head of its ready list |
| KernelOrder.StepHeads | CompuSar.srcs/saros/saros/kernel/scheduler.cpp:49-104 | no action changes the head of any ready list, unless the running thread has itself gone to sleep or stopped |
| KernelEffects.RunnerExactly | CompuSar.srcs/saros/saros/kernel/scheduler.cpp:85-131 | for every action: another thread runs afterwards only if the one that ran has fallen asleep or ended, or if an interrupt has come and the other is of better priority; waking a thread does not make it run |
| KernelEffects.ExternalInOrder | CompuSar.srcs/saros/saros/irq.cpp:93-100 | the external handlers put the waiters of the receive event, the display, the card and the data line at the ends of the ready lists in that order, each queue's in its own order |
| KernelRuns.NoLostWakeUp | CompuSar.srcs/saros/include/saros/sync/event.h:17-44 | in every run, while any thread is queued on an event the event is unset or some setter is between storing `_active` and waking |
| KernelCalls.WaitTestIff | CompuSar.srcs/saros/include/saros/sync/event.h:17-18 | `wait` returns at its first test if the event is set, and goes on to the second test if it is not |
| KernelCalls.SecondTestIff | CompuSar.srcs/saros/include/saros/sync/event.h:18-34 | the next own step of a thread that saw the event unset puts it to sleep on the event if and only if the event is unset still, and returns if and only if it is set by then |
| KernelDrive.WaitReturnsSetIff | CompuSar.srcs/saros/include/saros/sync/event.h:17-40 | from the end of any run, however the run goes on, a call of `wait` returns only after the event has been seen set, at the call or since, if and only if at the call the event is set or no setter is between storing `_active` and waking |
| KernelCalls.WaitReturnsSet | CompuSar.srcs/saros/include/saros/sync/event.h:17-40 | in any run, a call of `wait` begun with no such setter returns only after a state, from the call to the return, in which the event is set |
| KernelWait.WaitReturnsUnset | CompuSar.srcs/saros/include/saros/sync/event.h:17-44 | from start-up, with three stacks or more, nine actions let a `wait` return with the event unset in every state from the call to the return: stored, preempted, cleared, waited for, and only then woken |
| KernelCalls.SetWakesWaiters | CompuSar.srcs/saros/include/saros/sync/event.h:37-40 | the second half of `set` returns, having made Ready exactly the threads asleep on the event and changed no other thread |
| KernelCalls.WokenReturns | CompuSar.srcs/saros/include/saros/sync/event.h:33 | a thread woken from an event, a signal or the card's wait returns with its next own step |
| KernelEffects.ActiveExactly | CompuSar.srcs/saros/include/saros/sync/event.h:37-44 | for every action: an event is set afterwards if and only if the action sets it (`set`, the receive handler, or a timer interrupt that finds a timer in its slot due), or it was set and is neither cleared nor built anew |
| KernelEffects.WokenExactly | CompuSar.srcs/saros/saros/saros.cpp:33-50 | for every action: each thread other than the acting one is made Ready if the action wakes the queue it is on (all of an event's, signal's or device's queue, the front of a mutex's), and is exactly as it was if not |
| KernelCalls.SleepsUntilWoken | CompuSar.srcs/saros/saros/saros.cpp:29-50 | in any run a sleeping thread stays asleep on its queue, at its program point, until an action that wakes it |
| KernelCalls.SignalWaitSleeps | CompuSar.srcs/saros/include/saros/sync/signal.h:15-17 | `Signal::wait` always puts the caller to sleep on the signal's queue |
| KernelRuns.NoMaskedSleep | CompuSar.srcs/saros/saros/sd.cpp:293-308 | in every run, whoever sleeps for the data-idle or the card interrupt sleeps with that interrupt unmasked, whatever the lines do |
| KernelRuns.DataWaitSeesIdle | CompuSar.srcs/saros/saros/sd.cpp:300-303 | `waitDataIdle` is left only by its own test, in a state in which the line says idle |
| KernelCalls.DataTestIff | CompuSar.srcs/saros/saros/sd.cpp:296-306 | the test of `waitDataIdle` returns if and only if the line says idle, and then nothing is unmasked and nobody rescheduled; otherwise the caller is asleep for the data-idle interrupt with that interrupt unmasked |
| KernelCalls.DataWaitReturnsIdle | CompuSar.srcs/saros/saros/sd.cpp:293-308 | in any run a call of `waitDataIdle` ends with a test, in a state in which the line says idle |
| KernelCalls.CardWaitIff | CompuSar.srcs/saros/saros/sd.cpp:500-514 | the SD thread goes on at once if and only if it has looked and the card is gone; otherwise it is asleep for the card's interrupt with that interrupt unmasked |
| KernelEffects.MaskedExactly | CompuSar.srcs/saros/saros/sd.cpp:523-533 | for every action: the data-idle and the card interrupt are masked afterwards exactly if it has just arrived, or the SD thread has just masked it, or it was masked and nobody is going to sleep for it |
| KernelRuns.TimerQueueAndComparator | CompuSar.srcs/saros/saros/kernel/timer.cpp:63-118 | in every run the timer queue is sorted and stable among equal times, holds only live slots and each once, and the comparator is the head's time, or reset when it is empty; both pools' free lists are the complements of their live slots, so no two threads share a stack |
| KernelSleep.DeadlineExact | CompuSar.srcs/saros/saros/kernel/timer.cpp:82-88 | without overflow the 64-bit deadline is start + floor(ns * freq / 10^9) |
| KernelSleep.DeadlineOverflows | CompuSar.srcs/saros/saros/kernel/timer.cpp:82-88 | a product of exactly 2^64 makes the deadline the start, so the condition of `DeadlineExact` is needed |
| KernelSleep.SleepNsBlocks | CompuSar.srcs/saros/saros/saros.cpp:52-57 | `sleep_ns` puts the caller to sleep on the queue of a new, unset timer event that is in the timer queue at its deadline |
| KernelSleep.ExactlyOneTimer | CompuSar.srcs/saros/saros/saros.cpp:52-57 | a blocked sleeper's slot has exactly one event in the timer queue, exactly once |
| KernelSleep.SleeperStep | CompuSar.srcs/saros/saros/kernel/timer.cpp:94-118 | any step leaves a sleeper blocked if and only if it is not a timer interrupt whose sampled time is at or after the deadline; that one makes it Ready and takes its event out of the queue |
| KernelSleep.SleepsUntilDeadline | CompuSar.srcs/saros/saros/saros.cpp:52-57 | over a run the caller of `sleep_ns` is blocked up to the first such interrupt and Ready right after it |
| KernelSleep.SleepAndWake | CompuSar.srcs/saros/saros/saros.cpp:52-57 | such runs exist: from start-up, for every delay, clock and later interrupt time, the first thread can sleep and that interrupt wakes it |
| KernelCalls.SleepNsReturns | CompuSar.srcs/saros/saros/saros.cpp:52-57 | in any run a call of `sleep_ns` returns only after a timer interrupt that sampled a time at or after its deadline |
| KernelCalls.SleepNsEnds | CompuSar.srcs/saros/saros/kernel/timer.cpp:52-57 | the caller of `sleep_ns`, once it runs on, returns with its next own step and gives exactly its own timer slot back |
| KernelSleep.ComparatorInTime | CompuSar.srcs/saros/saros/kernel/timer.cpp:82-118 | in every state of a run the comparator is set, to a time at or before the deadline of each thread blocked in `sleep_ns` |
| KernelSleep.SlotFreedAfterLeaving | CompuSar.srcs/saros/saros/kernel/timer.cpp:52-57 | no step of a run gives back a timer slot whose event is still in the queue, `sleep_ns` clearing its handle included |
| KernelSteps.ClearKeepsIff | CompuSar.srcs/saros/saros/kernel/timer.cpp:52-57 | clearing a handle, which checks nothing, keeps the invariant if and only if its event has left the timer queue and no thread is using it |
| KernelCalls.RegisterTimerStarts | CompuSar.srcs/saros/saros/kernel/timer.cpp:63-80 | registering a timer takes one slot that was nobody's, with its event unset, and adds one event with the given times to the queue and nothing else |
| KernelCalls.FreeTimerFrees | CompuSar.srcs/saros/saros/kernel/timer.cpp:52-57 | destroying a handle makes its slot the first free one and touches no other slot, no queued event and no thread |
| KernelCalls.CreateBears | CompuSar.srcs/saros/saros/kernel/scheduler.cpp:49-67 | creating a thread adds exactly one, with a name nobody has had, outside the kernel and Ready at the end of its priority's list |
| KernelCalls.StopEnds | CompuSar.srcs/saros/saros/kernel/scheduler.cpp:69-79 | a thread that ends is on no list and its stack is the first free one; no other thread's program point or state changes |
| KernelMutex.MutualExclusion | CompuSar.srcs/saros/saros/mutex.cpp:8-42 | in every run of lock, try_lock and unlock under any preemption, at most one thread holds a mutex, and `_locked` is true exactly when one does |
| KernelCalls.LockReturnsHolding | CompuSar.srcs/saros/saros/mutex.cpp:8-25 | in every run of either version, when a call of `lock` returns, its caller holds the mutex |
| KernelCalls.NoTwoInside | CompuSar.srcs/saros/saros/mutex.cpp:8-42 | in every run of either version, two threads that have returned from `lock` on a mutex and have not unlocked it since are one thread |
| KernelCalls.LockGoesOn | CompuSar.srcs/saros/saros/mutex.cpp:9-24 | each own step of a thread in `lock`: the first test sees whether the mutex is held; the second takes it and returns if and only if it is still free, and goes round again if not; a thread that saw it held falls asleep on its queue |
| KernelCalls.TryLockTakesIff | CompuSar.srcs/saros/saros/mutex.cpp:27-33 | after `try_lock` the mutex is locked, and the caller holds it if and only if it was free |
| KernelEffects.HeldExactly | CompuSar.srcs/saros/saros/mutex.cpp:8-42 | for every action, and whatever `wakeOneThread` does: who holds a mutex afterwards is who acquires it by the action, and who held it and does not unlock it |
| KernelLock.LockSleepsOnFreeMutexIff | CompuSar.srcs/saros/saros/mutex.cpp:8-11 | in any run, a thread whose test saw the mutex held and whose next own action is to sleep falls asleep on the mutex's queue, and the mutex is free then if and only if some action in between unlocked it and none after that took it |
| KernelLock.LockSleepsOnFreeMutex | CompuSar.srcs/saros/saros/mutex.cpp:8-42 | such a run exists: from start-up, with three stacks or more, thirteen actions put the startup thread to sleep on a free mutex |
| KernelLock.FreeIff | CompuSar.srcs/saros/saros/mutex.cpp:8-42 | from a state in which a mutex is locked, it is free later in a run of either version if and only if the last action that changed that is `unlock` |
| KernelLock.UnlockMeetsWaiter | CompuSar.srcs/saros/saros/mutex.cpp:35-42 | from start-up, with three stacks or more, eight actions lead to a state in which the holder can unlock a mutex with a waiter queued |
| KernelSteps.UnlockKeepsIff | CompuSar.srcs/saros/saros/mutex.cpp:35-42 | `unlock` keeps the kernel's invariant if and only if `wakeOne` is as intended or nobody waits |
| KernelSteps.ExternalKeeps | CompuSar.srcs/saros/saros/irq.cpp:93-100 | the receive, display and card handlers, in any combination, keep the invariant, wake exactly the queues of their sources, set the receive event and mask the two SD interrupts that came, and change nothing else; the transmit handler, dispatched before them, wakes nobody and is `Uart.Step`, not part of this machine |
| KernelIrq.TimerHandlerKeeps | CompuSar.srcs/saros/saros/kernel/timer.cpp:94-118 | the timer handler, whenever its loop ends, keeps the invariant and makes Ready exactly the threads waiting on fired events |
| Sched.WakeAllSpec | CompuSar.srcs/saros/saros/saros.cpp:43-50 | waking all ends without an abort and appends the waiters, in order, to the ready lists of their priorities, changing no other wait queue |
| Sched.RescheduleKeeps | CompuSar.srcs/saros/saros/kernel/scheduler.cpp:110-131 | a reschedule changes only who runs: a head of its ready list that nobody Ready beats, and a runner that was Ready is replaced only by a better one |
| Sched.SleepOnKeeps | CompuSar.srcs/saros/saros/kernel/scheduler.cpp:85-96 | the running thread moves to the end of the queue, Sleeping, off its ready list, and the best Ready thread runs |
| Sched.StopThreadKeeps | CompuSar.srcs/saros/saros/kernel/scheduler.cpp:69-79 | the thread is gone from every list, its stack is the first free one, and the best Ready thread runs |
| Sched.CreateThreadFailsIff | CompuSar.srcs/saros/saros/kernel/scheduler.cpp:49-67 | thread creation aborts if and only if every stack belongs to a live thread |
| Sched.CreateThreadKeeps | CompuSar.srcs/saros/saros/kernel/scheduler.cpp:49-67 | a new thread has a stack nobody has, is Ready at the end of its priority's list, and nothing else changes |
| Sched.ScheduleFailsIff | CompuSar.srcs/saros/saros/kernel/scheduler.cpp:98-104 | in a sound state `schedule`'s assertion fires if and only if the thread is Ready already |
| Sched.WakeOneIntendedKeeps | CompuSar.srcs/saros/saros/saros.cpp:33-41 | waking one as it is meant, which is not as it is written, makes exactly the front waiter Ready |
| Sched.WakeOneAsWrittenKeepsIff | CompuSar.srcs/saros/saros/saros.cpp:33-41 | waking one, as written, keeps the lists sound if and only if nobody waits; one waiter: an empty list is popped; more: the first is made Ready, the second is left asleep on no list, and no other thread changes |
| Sched.BootKeeps | CompuSar.srcs/saros/saros/kernel/scheduler.cpp:35-47 | two stacks suffice and are needed; the idle thread is alone at priority 2 and the startup thread runs |
| Sched.OnExactlyOneList | CompuSar.srcs/saros/saros/kernel/scheduler.cpp:85-104 | sound hooks and homes put each thread on exactly one list, once |
| Schedulers.Scheduler.CreateThread | CompuSar.srcs/saros/saros/kernel/scheduler.cpp:49-67 | the method refines `Sched.CreateThread`, aborts included |
| Schedulers.Scheduler.Init | CompuSar.srcs/saros/saros/kernel/scheduler.cpp:35-47 | the method refines `Sched.Init` |
| Schedulers.Scheduler.StopThread | CompuSar.srcs/saros/saros/kernel/scheduler.cpp:69-79 | the method refines `Sched.StopThread`, and no stack in use is on the free list |
| Schedulers.Scheduler.SleepOn | CompuSar.srcs/saros/saros/kernel/scheduler.cpp:85-96 | the method refines `Sched.SleepOn`, assertion included |
| Schedulers.Scheduler.Schedule | CompuSar.srcs/saros/saros/kernel/scheduler.cpp:98-104 | the method refines `Sched.Schedule`, assertion included |
| Schedulers.Scheduler.Reschedule | CompuSar.srcs/saros/saros/kernel/scheduler.cpp:110-131 | both loops find the front of the first non-empty ready list, or abort |
| Schedulers.Scheduler.WakeAllThreads | CompuSar.srcs/saros/saros/saros.cpp:43-50 | the loop, which looks at the live queue each time, ends and does what waking the queue's first contents in order does |
| Schedulers.Scheduler.WakeOneThread | CompuSar.srcs/saros/saros/saros.cpp:33-41 | the method, as written, refines `Sched.WakeOneAsWritten` |
| Sync.Events.Set | CompuSar.srcs/saros/include/saros/sync/event.h:37-40 | the event is set and all its waiters are woken |
| Sync.Events.WaitTestedUnset | CompuSar.srcs/saros/include/saros/sync/event.h:18-34 | a wait that finds the event set puts the interrupt state back and blocks nobody; otherwise the caller sleeps with interrupts off |
| Sync.Mutex.Take | CompuSar.srcs/saros/saros/mutex.cpp:13-22 | the second test decides: the mutex is locked afterwards, by the caller exactly if it was free |
| Sync.Mutex.TryLock | CompuSar.srcs/saros/saros/mutex.cpp:27-33 | the mutex is locked afterwards, and success means that it was not before |
| Sync.Mutex.Unlock | CompuSar.srcs/saros/saros/mutex.cpp:35-42 | the mutex is free and its queue has been through `wakeOneThread` as written |
| Timers.PlaceKeeps | CompuSar.srcs/saros/saros/kernel/timer.cpp:31-43 | insertion keeps the queue sorted, first come first served among equal times |
| Timers.PlaceAt | CompuSar.srcs/saros/saros/kernel/timer.cpp:35-42 | walking past every event that is not later ends exactly where the sorted insertion puts the new one |
| Timers.RegisterKeeps | CompuSar.srcs/saros/saros/kernel/timer.cpp:63-80 | a registered timer is added and nothing else, the order is kept, and the comparator still follows the head |
| Orbits.LowBitSpec | CompuSar.srcs/saros/saros/kernel/timer.cpp:107-108 | g divides the period, and unless the period is 0 modulo 2^n the quotient is odd |
| Orbits.AtMostTop | CompuSar.srcs/saros/saros/kernel/timer.cpp:107-108 | no time that is a multiple of the period after wake, modulo 2^n, is beyond 2^n - g + wake mod g |
| Orbits.ReachTop | CompuSar.srcs/saros/saros/kernel/timer.cpp:107-108 | that bound is itself one of those times |
| Orbits.EscapesIff | CompuSar.srcs/saros/saros/kernel/timer.cpp:107-108 | advancing a time by its period in 64 bits gets past `now` if and only if `now` is below 2^64 - g + wake mod g |
| Timers.LoopEndsIff | CompuSar.srcs/saros/saros/kernel/timer.cpp:98-111 | for every queue, the loop reaches its exit after some number of turns if and only if every due periodic event in the queue satisfies that condition |
| Timers.FirstHalfLoopEnds | CompuSar.srcs/saros/saros/kernel/timer.cpp:98-111 | for a sampled time below 2^63 that is so of every queue, whatever the periods |
| Timers.HalfRangeTimer | CompuSar.srcs/saros/saros/kernel/timer.cpp:107-110 | a timer of period 2^63 gets past exactly the times below 2^63 + wake mod 2^63 |
| Timers.TurnProgress | CompuSar.srcs/saros/saros/kernel/timer.cpp:98-111 | each turn of the loop lowers by exactly one the number of turns the events in the queue still need, even when it places an event again |
| Timers.FiringOrderIff | CompuSar.srcs/saros/saros/kernel/timer.cpp:98-111 | occurrences are fired in non-decreasing order of time if and only if no due periodic event wraps past 64 bits before it gets past `now` |
| Timers.NoWrapIsStraight | CompuSar.srcs/saros/saros/kernel/timer.cpp:107-110 | an event does not wrap on its way whenever now + period stays below 2^64 |
| Timers.ExpireSettles | CompuSar.srcs/saros/saros/kernel/timer.cpp:98-111 | whenever the loop ends, each event is fired exactly at its own time and at those it is advanced to while they are due; a due one-shot leaves; a due periodic one stays, at the first of those times after `now` |
| Timers.OccurrencesSpec | CompuSar.srcs/saros/saros/kernel/timer.cpp:107-110 | the occurrences of an event that does not wrap are wake, wake + repeat, wake + 2 repeat, and so on as far as now |
| Timers.PeriodicSettles | CompuSar.srcs/saros/saros/kernel/timer.cpp:107-110 | in any queue for which the loop ends, a due periodic event that does not itself wrap is left at its first time after now congruent to its old one, fired once, in order, for each time skipped |
| Timers.InterruptKeeps | CompuSar.srcs/saros/saros/kernel/timer.cpp:94-118 | after the interrupt nothing due is left, every event is settled, the queue is sorted and the comparator is its head or reset |
| TimerDrivers.TimerDriver.Place | CompuSar.srcs/saros/saros/kernel/timer.cpp:31-43 | the loop over the live list is the sorted insertion |
| TimerDrivers.TimerDriver.RegisterTimer | CompuSar.srcs/saros/saros/kernel/timer.cpp:63-80 | the method refines `Timers.Register`; the slot's event starts unset with an empty queue |
| TimerDrivers.TimerDriver.SleepNs | CompuSar.srcs/saros/saros/saros.cpp:52-57 | the method registers a one-shot timer at the deadline and then sleeps on its unset event, aborts included |
| TimerDrivers.TimerDriver.ClearHandle | CompuSar.srcs/saros/saros/kernel/timer.cpp:52-57 | clearing a null handle does nothing; clearing any other frees its slot, and the free list stays sound exactly if the slot was live |
| TimerDrivers.TimerDriver.FireDue | CompuSar.srcs/saros/saros/kernel/timer.cpp:98-111 | for every queue `Timers.LoopEndsIff` lets end, the loop ends, and setting each event as it fires comes to the same as settling the queue first and setting the events afterwards |
| TimerDrivers.TimerDriver.HandleTimerInterrupt | CompuSar.srcs/saros/saros/kernel/timer.cpp:94-118 | the whole handler, on the objects, is the machine's timer handler |
| PoolAllocators.PoolAllocator.constructor | CompuSar.srcs/saros/include/ds/pool.h:114-137 | the links of a new pool meet every slot once, in address order, and end |
| PoolAllocators.PoolAllocator.Alloc | CompuSar.srcs/saros/include/ds/pool.h:146-154 | the first free slot is handed out, or the empty pool aborts, and the links stay finite, acyclic and without repetition |
| PoolAllocators.PoolAllocator.Free | CompuSar.srcs/saros/include/ds/pool.h:156-164 | a slot goes to the front of the free list, which stays sound if and only if the slot was live; an address outside the pool aborts and changes nothing |
| PoolAllocators.DoubleFreeCycles | CompuSar.srcs/saros/include/ds/pool.h:156-164 | after a slot that is free already has been freed, following the links meets no finite list of slots and never ends |
| PoolAllocators.PoolAllocator.Store | CompuSar.srcs/saros/include/ds/pool.h:17-20 | whatever the owner of a live slot writes in it, the free list is untouched |
| PoolAllocators.Ptr.Move | CompuSar.srcs/saros/include/ds/pool.h:56-59 | ownership passes and the source is empty |
| PoolAllocators.Ptr.Release | CompuSar.srcs/saros/include/ds/pool.h:88-94 | the element is handed out and the owner is empty |
| PoolAllocators.Ptr.Clear | CompuSar.srcs/saros/include/ds/pool.h:105-111 | what is owned is freed and the owner is empty; the free list stays sound if and only if what was owned was live |
| PoolAllocators.Ptr.Assign | CompuSar.srcs/saros/include/ds/pool.h:60-64 | the target owns what the source did, the source is empty, and what the target owned is freed; assigned to itself an owner keeps what it has |
| Pools.AllocKeeps | CompuSar.srcs/saros/include/ds/pool.h:146-154 | allocation fails if and only if every slot is live, and otherwise makes a dead slot live |
| Pools.FreeKeeps | CompuSar.srcs/saros/include/ds/pool.h:156-164 | freeing a live slot succeeds and keeps the free list the complement of the live slots |
| Pools.Conservation | CompuSar.srcs/saros/include/ds/pool.h:146-164 | free + live = N |
| Owners.HistoryKeeps | CompuSar.srcs/saros/include/ds/pool.h:48-164 | after every history of alloc, move, assign (also to itself), release, clear and destruction, the free list is duplicate-free and the complement of the live slots, each live slot has one owner, and free + live = N |
| Owners.OwnedExactly | CompuSar.srcs/saros/include/ds/pool.h:48-164 | after every operation a slot is owned by its owner's heir (the target of a move or assignment, whoever was given a released address) and by nobody else, and a slot nobody owned becomes owned only by allocation, as the first free one |
| Owners.AbortsIff | CompuSar.srcs/saros/include/ds/pool.h:105-168 | an operation aborts if and only if it allocates from a full pool or destroys what `emptyPtr` made |
| Ring.ConsumedIsPrefix | CompuSar.srcs/saros/include/p1c1.h:18-49 | for every capacity and interleaving of single accesses the consumed values are a prefix, in order, of the produced ones, at most N - 1 behind |
| Ring.FullTestIff | CompuSar.srcs/saros/include/p1c1.h:22-24 | the producer gets past its full test, at the read of the consumer's index, if and only if fewer than N - 1 values are held then |
| Ring.EmptyTestIff | CompuSar.srcs/saros/include/p1c1.h:18-20 | the consumer gets past its empty test if and only if a value was held when it read the producer's index |
| Ring.ProduceCompletes | CompuSar.srcs/saros/include/p1c1.h:22-33 | in any interleaving, a producer that begins with room appends exactly its value to what has been produced, with its seventh access |
| Ring.ConsumeCompletes | CompuSar.srcs/saros/include/p1c1.h:18-44 | in any interleaving, a consumer that begins with a value held takes exactly the oldest one, with its seventh access |
| Ring.NoSlotOverwritten | CompuSar.srcs/saros/include/p1c1.h:26-44 | every value produced and not yet consumed is still in its slot |
| Ring.ProducerKeeps | CompuSar.srcs/saros/include/p1c1.h:22-33 | each single access of the producer keeps the ring's invariant |
| Ring.ConsumerKeeps | CompuSar.srcs/saros/include/p1c1.h:35-44 | each single access of the consumer keeps it |
| Ring.P1C1.IsEmpty | CompuSar.srcs/saros/include/p1c1.h:18-20 | equal indices mean that nothing is held |
| Ring.P1C1.IsFull | CompuSar.srcs/saros/include/p1c1.h:22-24 | the test holds exactly when N - 1 values are held |
| Ring.P1C1.Produce | CompuSar.srcs/saros/include/p1c1.h:26-33 | the value is appended to the contents |
| Ring.P1C1.Consume | CompuSar.srcs/saros/include/p1c1.h:35-44 | the first of the contents is taken |
| Uart.SentIsPrefix | CompuSar.srcs/saros/saros/uart.cpp:36-81 | with the transmit interrupt between any two accesses of the sender, what the UART is given is a prefix, in order, of what was passed to `uart_send` |
| Uart.WaitingIsUnmasked | CompuSar.srcs/saros/saros/uart.cpp:36-77 | while characters wait, the interrupt is unmasked or the sender is about to unmask it |
| Uart.FullIsUnmasked | CompuSar.srcs/saros/saros/uart.cpp:70-71 | a sender waiting for room in a full buffer never waits with the interrupt masked |
| Uart.DrainSpec | CompuSar.srcs/saros/saros/uart.cpp:37-38 | the handler's loop sends as many characters as the device takes or the ring holds |
| Uart.TxIrqSpec | CompuSar.srcs/saros/saros/uart.cpp:36-43 | the transmit interrupt sends the oldest characters, as many as the device takes or the ring holds, and masks itself if and only if none is left or it was masked |
| Uart.SendCompletes | CompuSar.srcs/saros/saros/uart.cpp:68-77 | in any run, a call of `uart_send` that begins with room returns after eight steps of its own, with exactly its character added to what is to be sent and the interrupt unmasked |
| Uart.AllSent | CompuSar.srcs/saros/saros/uart.cpp:36-77 | in every state of a run between two calls, an interrupt is possible while anything waits, and one that finds the device ready for all of it has sent everything passed to `uart_send` |
| Uart.UartTx.HandleTxReadyIrq | CompuSar.srcs/saros/saros/uart.cpp:36-43 | the waiting characters go out in order for as long as the device is ready, and the interrupt is masked exactly when none is left or it already was |
| Uart.UartTx.Send | CompuSar.srcs/saros/saros/uart.cpp:68-81 | while the kernel runs, the character joins the buffer and the interrupt is unmasked; before, it goes straight out |
| SpinLocks.SpinLock.Lock | CompuSar.srcs/saros/include/saros/spin_lock.h:22-26 | interrupts are off and what they were is remembered; taking a held lock fails |
| SpinLocks.SpinLock.Unlock | CompuSar.srcs/saros/include/saros/spin_lock.h:32-42 | what was remembered is restored, and exactly when the two assertions fail is said |
| SpinLocks.Scopes.EnterScope | CompuSar.srcs/saros/include/saros/spin_lock.h:12-26 | constructing a held lock on the hart does what entering a scope does to the interrupt state and to the stack of saved states |
| SpinLocks.Scopes.LeaveScope | CompuSar.srcs/saros/include/saros/spin_lock.h:20-42 | destroying the innermost lock does what leaving a scope does |
| SpinLocks.Scopes.Execute | CompuSar.srcs/saros/include/saros/spin_lock.h:12-42 | any properly nested sequence of scopes, carried out on lock objects, comes to the stack of saved states of `NestedScopes`, fails no assertion, and ends with the interrupt state it began with |
| SpinLocks.NestedScopes | CompuSar.srcs/saros/include/saros/spin_lock.h:22-42 | for every properly nested sequence of scopes no assertion fails, interrupts are off while a lock is held, and the outermost release restores the state before the outermost acquire |
| Fat.RangeFor | CompuSar.srcs/saros/saros/fs/fat.cpp:198-261 | a range-for over a directory with any finite chain ends, having visited exactly `Visited`, in order, unless it has to leave a cluster that is out of range, and exactly then it aborts |
| Fat.VisitedSpec | CompuSar.srcs/saros/saros/fs/fat.cpp:207-224 | `Visited` is strictly increasing and holds the first position and every later one that is not free and comes before any end marker, across clusters |
| Fat.ScanSpec | CompuSar.srcs/saros/saros/fs/fat.cpp:207-259 | stepping from a position completes if and only if no cluster it has to leave is out of range |
| Fat.ConstIterator.Deref | CompuSar.srcs/saros/saros/fs/fat.cpp:198-205 | the entry at the iterator's position in the chain |
| Fat.ConstIterator.IterNext | CompuSar.srcs/saros/saros/fs/fat.cpp:234-259 | one position further, across the end of a cluster, or past the end of the chain, or the range assertion |
| Fat.ConstIterator.Increment | CompuSar.srcs/saros/saros/fs/fat.cpp:207-224 | to the next entry in use, or the end |
| Fat.ContentsSpec | CompuSar.srcs/saros/saros/fs/fat.cpp:325-340 | whatever the successor function, even a cyclic one, what is delivered is the first min(size, 512 k) bytes of the first k clusters, k being the number of valid ones |
| Fat.ExtentExists | CompuSar.srcs/saros/saros/fs/fat.cpp:325-340 | every file, on every successor function, has such a k |
| Fat.ContentsAborts | CompuSar.srcs/saros/saros/fs/fat.cpp:186-187 | reading aborts if and only if it reaches, with more to read, a valid cluster that is out of range |
| Fat.UsableClusters | CompuSar.srcs/saros/include/saros/fs/fat.h:20-34 | the cluster numbers that can be read are 2 to 0x0FFFFFF6, and a block of 512 bytes holds sixteen entries |
| Fat.File.ReadBlock | CompuSar.srcs/saros/saros/fs/fat.cpp:325-340 | the block delivered, followed by what remains, is what remained before; zero means that nothing did |
| Fat.ReadAll | CompuSar.srcs/saros/saros/main.cpp:93-102 | the loop that dumps a file ends, having delivered exactly the file's contents, or aborts as they do |
| Hex.MakeHex | scripts/make_hex.py:82-90 | the text of every image at every offset decodes; for an offset and length within 2^32 it decodes to exactly the image at its offset and nothing else |
| Hex.HexLine.WriteLine | scripts/make_hex.py:28-55 | the running sum and the formatted fields come to the record's frame: mark, length, offset, type, data, checksum |
| Hex.HexLine.Write | scripts/make_hex.py:11-21 | an Extended Linear Address Record exactly when the upper half changes, then the data record |
| Hex.HexLine.End | scripts/make_hex.py:24-25 | the End of File Record |
| Hex.LineReadsBack | scripts/make_hex.py:28-55 | every record's bytes add up to 0 modulo 256, and its line reads back as the record |
| Hex.TextReadsBack | scripts/make_hex.py:28-55 | the text of any sequence of records reads back as that sequence |
| Hex.KnownLines | scripts/make_hex.py:28-55 | three lines written out: the End of File Record, the address record for base 0xFFFF0000, a data record |
| Hex.KnownText | scripts/make_hex.py:82-90 | the whole text of a one-byte image at 2 MiB, written out |
| Hex.AtMostSixteen | scripts/make_hex.py:31-34 | no record is longer than 16 bytes, so the writer's assertion never fails |
| Hex.SixteenEach | scripts/make_hex.py:86-88 | while 16 bytes are left there is a data record that holds just those, at their offset modulo 2^16 |
| Hex.ImageLoads | scripts/make_hex.py:11-21 | loading the records of an image, from any base already announced, is loading the image at its addresses modulo 2^32 |
| Hex.LoadPlaces | scripts/make_hex.py:82-88 | within 2^32, loading an image writes exactly its addresses |
| Spi.PostprocessBuffer | CompuSar.srcs/saros/common/spi.cpp:28-39 | for every size and line length the loop leaves the buffer as `Realigned` says: only the first bytes of the last partial line change |
| Spi.SourceIsLeast | CompuSar.srcs/saros/common/spi.cpp:34-37 | byte i ends as the original byte at the least offset at or above rem congruent to i modulo line - rem |
| Spi.InOrderIff | CompuSar.srcs/saros/common/spi.cpp:28-39 | whatever it is, the payload ends up in order from offset 0 if and only if the last line is at most half full |

## Left out

- Register access, CSR instructions and the context-switch assembly. Switching out is taken to save the thread and reschedule, switching in to set the running thread and turn interrupts on.
- Memory ordering. There is one hart and the barriers are compiler barriers, so steps are sequentially consistent.
- The moments between the allocation of a thread's stack or of a disk block and its use: pool operations are atomic steps, because the allocator has no lock of its own; thread creation is one step for the same reason. Concurrent callers of `uart_send` are excluded on the same ground.
- `waitDataIdle`, `threadMain` and the retry loop of `Mutex::lock` as methods: they wait for other threads, so they are steps of the machine (`DataTest`, `CardWait`, `LockTest` and their neighbours) and not methods that return. `Event::wait` and `sleep_ns` are methods up to the switch.
- The interval between `initIrq` and the first switch: the machine starts with the startup thread running.
- Interrupt masks other than the transmit, data-idle and card ones, and the receive side of the UART, whose handler is only seen to set its event. `uart_recv_char` clears the event after testing for empty, so no wake-up is claimed there.
- Progress of `Mutex::lock`: a missed unlock leaves it asleep. What its return means and what each of its steps does is proved, not that it returns. The same goes for the other calls that wait for somebody else.
- A timer interrupt whose loop does not end: the machine has no next state for it, so the interrupt's guard is the condition of `Timers.LoopEndsIff`, which every sampled time below 2^63 satisfies.
- Timers.OccurrencesSpec: assumes that the event does not wrap, because the times of one that does are not a progression; `Timers.ExpireSettles` covers both.
- Timers.PeriodicSettles: assumes the same of the one event it is about, for the same reason.
- KernelSleep.SlotFreedAfterLeaving: that a thread clears a handle only when its event has left the queue is the guard of the machine's step; `KernelSteps.ClearKeepsIff` shows that the code, which does not check it, needs exactly that.
- Clearing a handle twice, which `TimerHandle::clear` allows because it does not reset the handle: `PoolAllocators.DoubleFreeCycles` says what comes of it, and the machine has no such step.
- Sched.WakeOneIntendedKeeps: describes the intended step; the cited lines pop once more, which is `Sched.WakeOneAsWrittenKeepsIff`.
- KernelSteps.ExternalKeeps: the transmit handler touches no thread, event or timer; `Uart.dfy` models it, on its own.
- TimerDrivers.TimerDriver.SleepNs: stops at the switch to another thread; the clearing of the handle afterwards is `ClearHandle`, and the two together are the machine's `SleepNs` and `SleepReturn`.
- Wait queues are named by identifiers and looked up in one table, where the source embeds a list in each object; unlinking removes the thread from that list's contents, where the source rewires two pointers.
- The table lookup inside `FAT::nextCluster`, mounting, and reads that fail (`emptyPtr`): a block read delivers the cluster's bytes. Cluster numbers and sizes are unbounded, which is no loss because nothing adds to them.
- `Directory::dir`, hexadecimal and decimal printing, MBR printing: output only.
- `Hex.MakeHex`: the command line is not modelled; the offset may be any integer, negative ones included.
- SPI transactions themselves and flash commands; the ELF loader; DDR, GPIO and display set-up; trap dumps; SD commands and card initialisation.
