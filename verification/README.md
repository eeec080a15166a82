# Verified model of the miniRTOS kernel

This project models the platform-neutral kernel of miniRTOS (the C files under `kernel/src`) as one
state machine and proves what the scheduler, mutexes with chained priority inheritance, timeouts,
queues, semaphores and intrusive lists promise, over every reachable state and every run.

Three layers:

* **Heap.** `IntrusiveList` is the doubly linked list with its node pointers; `HeapLists` puts the lists
  of the kernel and the nodes of its TCBs into one `KernelHeap`. `Representation.Represents(h, s)` says
  that the memory `h` shows the abstract state `s`: which nodes each list links in which order, every
  `linked` flag, every TCB field of the model. The scheduler and time operations of `HeapKernel` work on
  the pointers; each takes memory that represents `s` to memory that represents the state after the
  operation. `Layouts.LayOut` builds such memory for any state with the invariant. `Validate` is
  `os_KernelValidate` on a heap of any shape.
* **Kernel object.** `KernelObject.Kernel` is a class with the fields of `g_os_kernel` and the object
  pools; lists are sequences. Its methods do what the C functions do, with their loops and updates in
  place; each method's postcondition ties the new state to a function of the old one.
* **State machine.** `Sched`, `KernelObjects`, `Time` and `Setup` hold those functions on an immutable
  `State`; `Machine` turns them into steps (`Op`, `Next`) and runs (`Run`, `Reachable`). The recomputation
  of priorities is specified declaratively: `Inheritance.Inherited` is the highest base priority over all
  waiting chains that end in a task.

The functions of the state machine are the one specification of the other two layers: the methods of
`KernelObject.Kernel` and of `HeapKernel` are each proved against them, and all theorems are about them.

Each kernel call is one step, because the ports serialise kernel calls
(`kernel/include/os_port.h:23-24`). Two rules limit the steps. Idle never locks a mutex
(`Machine.Allowed`): the Idle task only yields (`kernel/src/os_task.c:32-42`), and
`Guarantees.RecomputeExactlyWhen` and `Guarantees.IdleWouldStayBoosted` show exactly what would break
otherwise. Runs end before `os_KernelStopAll`. Everything else is arbitrary: any interleaving of calls,
ticks, gives from interrupts and critical sections, any arguments including invalid handles, any number
of wrap-arounds of the 32-bit clock, deadlocked tasks included.

Where the documents and the code differ, the model follows the code: two sorted delay lists instead of
one unsorted list, slices of 200 ticks (`include/os.h:34-35`) instead of 20, and an Idle task. The ready lists are
documented as FIFO (`docs/design.md:380`). The code keeps that except when a task locks a mutex that
another task owns and waits: the first ready task a is picked before priorities are recomputed, and if a
task at the end of the chain of owners then inherits more than a has, a is dropped again and goes to the
end of its list (`kernel/src/os_mutex.c:162-179`). `ReadyOrder.ReadyOrderKept` states when exactly,
`ReadyOrder.LosesItsPlace` gives a state.

## Main results

1. `Machine.HighestPriorityRuns`: with no switch pending, no ready task outranks the running one, and
   nothing is ready while nothing runs. Lock asks only about the direct owner, unlock, give and tick
   only about the woken task; `Inheritance.WaitingStarts`, `WaitingStops` and `OwnershipMoves` are why
   these local questions suffice. `Sections.HighestRunsOutside`: a switch is pending only inside a
   critical section, so outside of one this holds after every run.
2. `Machine.PriorityIsInheritedMaximum`: after every step each effective priority is exactly the
   highest base priority over the task and all tasks that transitively wait for it.
   `Machine.NoUnboundedInversion` follows.
3. `KernelObject.Kernel.Propagate`: the bounded in-place iteration reaches that fixed point within as
   many passes as there are tasks, in any mutex order and with deadlock cycles; the early exit is never
   too soon.
4. `Replies`: for every call, exactly when it succeeds, is refused, or puts its caller to sleep, and what
   it changes, told from the state before it. `Timing.TimedCallEnds`, `Timing.ForeverCallEnds`,
   `Timing.DelayIsExact`, `Timing.WaitOutcome`: the timeouts of every call and delays are exact in
   unbounded time, and a waiter leaves by exactly one wake with the right result.
5. `Accounts.QueueIsFifo`, `Accounts.SemConservation`: over any run a queue is a plain FIFO and no
   semaphore unit is lost or invented.
6. `Turns.EveryTurn`: the running task loses the processor only by giving it up, to a task of higher
   priority, or to an equal one when it yields or its slice ends. `Slices.FullSlice`: a task just switched
   to keeps the processor for its full slice; `RoundRobin.RoundRobinBound`: with i tasks of its priority
   ahead of it, a ready task runs within (i + 1) full slices.
7. `WaitOrder.ArrivalOrderKept`, `DelayOrder.SleepOrderKept`, `WakeOrder.WakesInOrder`: waiting lists
   are first come, first served among tasks whose priorities do not change, delay lists among tasks with
   the same wake tick, and tasks that one tick wakes are served in that order.
8. `Ownership.OwnerChanges`, `Ownership.LockExcludes`: a mutex changes hands only by the lock that takes
   it while it is free and by the unlock or exit of its owner, so it excludes everybody else in between.
9. `ReadyOrder.ReadyOrderKept`, `ReadyOrder.FirstComeFirstServed`: ready tasks of one priority are served
   first come, first served, in every run and for every step, with one exact exception (above).
10. `Validate.KernelHeap.KernelValidate` ends on any heap and returns true exactly for heaps whose lists
    contain what they should; `Verdict` says what that means, and `Layouts.ReachableValidates` shows that
    every reachable state, laid out in memory, passes.
11. `HeapKernel`: on linked lists with shared TCBs, the ready, waiting and delay list operations and the
    scheduler switch do exactly what the state machine says, with every other list left as it was.

## Model

| member | source | states |
|---|---|---|
| Machine.HighestPriorityRuns | kernel/src/os_sched.c:194-231 | In every reachable state after start with no pending switch, no READY task has a higher effective priority than the running one, nothing is READY while `current` is NULL, and exactly `current` is RUNNING |
| Sections.PendingOnlyInside | kernel/src/os_sched.c:71-85 | Over any run that never enters a critical section at nesting 2^32-1, a switch is pending only while the nesting is above 0 |
| Sections.HighestRunsOutside | kernel/src/os_sched.c:194-231 | After any such run, outside critical sections, no switch is pending and no READY task outranks the running one |
| Sections.EnteringAtTheLimit | kernel/src/os_sched.c:63-68 | With a switch pending, entering keeps it inside a section if and only if the nesting counter is not at its limit |
| Sections.LeaveUndoesEnter | kernel/src/os_sched.c:63-85 | With no switch pending outside a section, leaving undoes entering if and only if the counter is below its limit |
| Machine.PriorityIsInheritedMaximum | kernel/src/os_mutex.c:71-126 | In every reachable state the effective priority of each task bounds the base priorities along all waiting chains that end in it, and some chain attains it |
| Machine.NoUnboundedInversion | kernel/src/os_mutex.c:164-179 | When the chain of owners a task waits for ends in a READY or RUNNING task, what runs has at least that task's priority |
| Machine.SliceAlwaysInRange | kernel/src/os_time.c:166-198 | The slice of the running task lies between 1 and the full slice after every step |
| Turns.EveryTurn | kernel/src/os_sched.c:194-277 | In every step the running task goes on with its slice, one tick less after a tick, or goes to sleep or ends exactly when its call says so, or goes behind the last task of its priority: outranked, or, when it yields or its slice ends, in favour of an equal one |
| Turns.PostponedInside | kernel/src/os_sched.c:430-451 | Inside a critical section a give, send, receive or unlock does not switch, and afterwards a switch is pending exactly when one was before or somebody ready outranks the running task |
| Slices.NewTurnIsFull | kernel/src/os_sched.c:32-59 | In every step, a task that did not run before starts with a full slice |
| Slices.KeepsProcessor | kernel/src/os_time.c:173-198 | Over any run with fewer ticks than are left of its slice, a task that nobody outranks and that does not give way runs on, its slice shrinking by one per tick |
| Slices.FullSlice | kernel/src/os_time.c:173-198 | A task just switched to still runs after any such run with fewer than 200 ticks |
| Slices.SliceEnds | kernel/src/os_time.c:173-198 | On the tick that uses up the slice, the first ready task of the same priority runs and the task that ran goes behind the last one |
| Slices.YieldRotates | kernel/src/os_sched.c:234-247 | Yielding, or delaying 0 ticks, lets the first ready task of the same priority run and puts the caller behind the last one; alone, the caller starts another slice |
| ReadyOrder.ReadyOrderKept | kernel/src/os_sched.c:88-168 | In every step, of two ready tasks of one unchanged priority the one that stands first runs or still stands first, if and only if the step is not a waiting lock that picks it and lets a less urgent owner inherit more than it has |
| ReadyOrder.FirstComeFirstServed | kernel/src/os_sched.c:88-168 | Over any run without such a lock, the one that stands first runs first |
| ReadyOrder.LosesItsPlace | kernel/src/os_mutex.c:162-179 | A concrete state and lock after which the task that stood first neither runs nor stands before the other any more |
| Machine.NextKeeps | kernel/src/os_sched.c:528-744 | Every allowed step keeps the invariant: exact list membership and order, exact bitmap, delay lists on time, object counts, inherited priorities, top task running |
| Guarantees.BaseIsFixed | kernel/src/os_task.c:60-143 | The base priority of a created task never changes |
| Inheritance.InheritedIsClosed | kernel/src/os_mutex.c:71-77 | No task stands below a task that waits for it |
| Inheritance.InheritedIsLeast | kernel/src/os_mutex.c:71-77 | The inherited priorities are the least assignment that is closed under waiting |
| Inheritance.WaitingStarts | kernel/src/os_mutex.c:172-179 | When a task starts to wait, priorities only rise, and whoever rises ends no higher than the direct owner |
| Inheritance.RiserIsReached | kernel/src/os_mutex.c:172-179 | Whoever rises when a task starts to wait is reached from the owner, and rises to no more than the waiting task has |
| Inheritance.WaitingStops | kernel/src/os_time.c:153-171 | When a waiter gives up, priorities only fall, and whoever falls stood no higher than that waiter |
| Inheritance.OwnershipMoves | kernel/src/os_mutex.c:206-216 | When a mutex passes to its top waiter, that waiter keeps its priority and the old owner falls only from the new owner's level |
| Inheritance.ProgressPass | kernel/src/os_mutex.c:87-120 | After k passes every priority level is final or has more than k tasks |
| Inheritance.EnoughPasses | kernel/src/os_mutex.c:87-88 | As many passes as tasks reach the fixed point, cycles included |
| Inheritance.QuietPassIsFinal | kernel/src/os_mutex.c:116-119 | A pass that changes nothing has reached the fixed point |
| KernelObject.Kernel.HighestWaiter | kernel/src/os_mutex.c:100-109 | The loop over the waiters finds the maximum of the wanted priorities of owner and waiters |
| KernelObject.Kernel.Pass | kernel/src/os_mutex.c:91-114 | One pass stays below the inherited priorities and lifts every owner to what its waiters wanted |
| KernelObject.Kernel.Propagate | kernel/src/os_mutex.c:87-120 | The in-place array ends up holding exactly the inherited priorities |
| KernelObject.Kernel.MutexWaitersChanged | kernel/src/os_mutex.c:78-126 | All tasks get their inherited priority and move to their new place in the lists |
| KernelObject.Kernel.MutexLockCurrent | kernel/src/os_mutex.c:135-180 | For every caller, refines the lock function (all refusals, free lock, block and boost); for every caller but Idle it keeps the invariant |
| Replies.LockReplies | kernel/src/os_mutex.c:135-180 | Locking is answered OK exactly when the mutex is free, and then only makes the caller its owner; BAD_STATE exactly for the owner, TIMEOUT exactly when another task owns it and the timeout is 0; otherwise the caller waits at the mutex |
| KernelObject.Kernel.MutexUnlockCurrent | kernel/src/os_mutex.c:188-217 | Refines the unlock function and keeps the invariant |
| Replies.UnlockReplies | kernel/src/os_mutex.c:188-217 | Unlocking is answered OK exactly for the owner, and hands the mutex to the front waiter or frees it; NOT_OWNER exactly for any other task, and then only that result changes |
| KernelObject.Kernel.MutexReleaseTask | kernel/src/os_mutex.c:225-250 | Refines the release of all mutexes of an ending task |
| MutexProofs.LockTop | kernel/src/os_mutex.c:174-179 | If the direct owner does not outrank the new running task, nobody does |
| MutexProofs.HandOffTop | kernel/src/os_mutex.c:206-216 | After a hand-off the caller kept its priority, or the new owner has the caller's old, higher one |
| MutexProofs.ReleaseFromKeeps | kernel/src/os_mutex.c:225-250 | After the release the task owns nothing and all lists are in order |
| Guarantees.UnlockHandsToTop | kernel/src/os_mutex.c:206-216 | Unlocking hands the mutex to a highest-priority waiter, or frees it if nobody waits |
| Ownership.OwnerChanges | kernel/src/os_mutex.c:135-250 | In every step an owner changes only from none to the running task by its lock, or from the running task to the front waiter or none by its unlock or exit |
| Ownership.OwnerStays | kernel/src/os_mutex.c:135-250 | Over any run an owner stays owner until its own unlock or exit |
| Ownership.LockExcludes | kernel/src/os_mutex.c:135-217 | From the lock that was answered OK until the mutex is given back, no lock of another task is answered OK and every unlock of another task is answered NOT_OWNER |
| Guarantees.ExitReleases | kernel/src/os_sched.c:264-277 | A task that ends is TERMINATED and each of its mutexes goes to a top waiter or is freed; other mutexes stay as they are |
| Guarantees.TerminatedOwnsNothing | kernel/src/os_mutex.c:219-250 | In no reachable state does a TERMINATED task own a mutex |
| Guarantees.WaitedMutexIsOwned | kernel/src/os_mutex.c:149-172 | A mutex with waiters has a live owner that is not among them |
| Guarantees.RecomputeExactlyWhen | kernel/src/os_sched.c:306-312 | Recomputing installs the inherited priorities if and only if no task that inherits 0 is boosted |
| Guarantees.IdleWouldStayBoosted | kernel/src/os_sched.c:310-312 | A concrete state in which Idle owns a mutex: after unlock Idle keeps priority 3 and keeps running before the ready task it held up |
| HeapKernel.ReadyEnqueue | kernel/src/os_sched.c:91-106 | On pointers: a READY task whose node is not linked goes to the end of the list of its priority and the bit is set; otherwise nothing changes; all other lists and TCBs stand |
| HeapKernel.ReadyRemove | kernel/src/os_sched.c:113-134 | On pointers: a linked READY task leaves the list of its priority, whose bit is cleared exactly when the list becomes empty |
| HeapKernel.ReadyPopHighest | kernel/src/os_sched.c:137-168 | On pointers: the first task of the highest list with a bit set is unlinked and returned, or null when the bitmap is 0 |
| HeapKernel.WaitInsertByPriority | kernel/src/os_sched.c:286-299 | On pointers: the walk along the list links the node before the first waiter of lower priority |
| HeapKernel.WaitPop | kernel/src/os_sched.c:392-402 | On pointers: the first waiter is unlinked and returned, or null when nobody waits |
| HeapKernel.TaskSetEffectivePriority | kernel/src/os_sched.c:306-337 | On pointers, and even while other tasks are between lists: the node moves to its new ready list or its new place in the waiting list its TCB points to |
| HeapKernel.WaitMakeReady | kernel/src/os_sched.c:409-427 | On pointers: an unlinked waiter leaves the delay list its TCB points to, its wait record is cleared and it enters its ready list |
| HeapKernel.TimeDelayListInsert | kernel/src/os_time.c:41-78 | On pointers: the node leaves its old delay list and is linked behind all tasks that wake no later in the list of the right epoch |
| HeapKernel.TimeDelayListRemove | kernel/src/os_time.c:84-90 | On pointers: the node leaves the delay list its TCB points to, if any |
| HeapKernel.PickNext | kernel/src/os_sched.c:171-231 | On pointers: the first task of the highest ready list becomes current and RUNNING, or current becomes null |
| HeapKernel.SchedSchedule | kernel/src/os_sched.c:194-231 | On pointers: the switch decision, preemption and rotation included |
| HeapKernel.SchedYieldCurrent | kernel/src/os_sched.c:234-247 | On pointers: the caller goes behind the tasks of its priority and the next task runs |
| Placement.EnqueueKeeps | kernel/src/os_sched.c:91-106 | A READY task that is in no list ends up at the end of the list of its priority, every other list unchanged and all lists and bits exact |
| Placement.ReadyRemoveKeeps | kernel/src/os_sched.c:113-134 | Taking a READY task out of its list leaves exactly that task unlisted, with lists and bits exact for all others |
| KernelObject.Kernel.ReadyHighestPriority | kernel/src/os_sched.c:137-148 | The scan of the 8-bit word finds the highest priority of the set it stands for |
| KernelObject.Kernel.ReadyPopHighest | kernel/src/os_sched.c:151-168 | Refines taking the first task of the highest ready list |
| KernelObject.Kernel.SchedStart | kernel/src/os_sched.c:171-186 | Refines the start of the scheduler and keeps the invariant |
| SchedProofs.PickNextKeeps | kernel/src/os_sched.c:171-231 | With nobody running, picking the next task makes a highest READY task run, or finds that none is READY |
| KernelObject.Kernel.SchedYieldCurrent | kernel/src/os_sched.c:234-247 | Refines yielding and keeps the invariant |
| KernelObject.Kernel.SchedTerminateCurrent | kernel/src/os_sched.c:264-277 | Refines termination and keeps the invariant |
| KernelObject.Kernel.WaitInsertByPriority | kernel/src/os_sched.c:286-299 | The scan inserts behind all waiters of the same or a higher priority |
| KernelObject.Kernel.TaskSetEffectivePriority | kernel/src/os_sched.c:306-337 | Refines the priority change with its ready, waiting and unlisted cases |
| KernelObject.Kernel.WaitBlockCurrent | kernel/src/os_sched.c:348-389 | Refines blocking with clamped timeout, deadline, delay list and switch |
| BlockProofs.MakeReadyKeeps | kernel/src/os_sched.c:409-427 | Waking a waiter that left its waiting list makes it READY with the given result in the right ready list and out of every delay list; nobody else moves |
| StepProofs.MaybePreemptStep | kernel/src/os_sched.c:430-451 | If nobody but the woken task can outrank the running one, the preemption decision restores the invariant, postponed switches included |
| KernelObject.Kernel.ExitCritical | kernel/src/os_sched.c:71-85 | Refines leaving a critical section and keeps the invariant |
| BitmapWord.SetBit | kernel/src/os_sched.c:27-30 | Setting a bit of the word adds exactly that priority to the set |
| BitmapWord.ClearBit | kernel/src/os_sched.c:129-131 | Clearing a bit of the word removes exactly that priority |
| BitmapWord.SameBits | kernel/src/os_sched.c:594-596 | Two words are equal exactly when they stand for the same set |
| Placement.ReadyHighestIsHighest | kernel/src/os_sched.c:137-148 | With exact lists the bitmap scan gives the highest priority of any READY task |
| Placement.WaitPopTakes | kernel/src/os_sched.c:392-402 | Popping takes a waiter that no other waiter outranks, or finds that nobody waits |
| Placement.SetEffectivePriorityKeeps | kernel/src/os_sched.c:306-337 | Changing a priority keeps every list exact and ordered and changes one TCB, even while other tasks are between lists |
| SchedProofs.ScheduleKeeps | kernel/src/os_sched.c:194-231 | Whether or not it switches, the scheduler ends with a top task running |
| Guarantees.LeaveCatchesUp | kernel/src/os_sched.c:71-85 | Leaving the outermost critical section clears `sched_pending` and leaves a top task running |
| Guarantees.WaitListIsExact | kernel/src/os_sched.c:286-337 | Each waiting list holds exactly its waiters, once each, sorted by current effective priority |
| Guarantees.ReadyListIsExact | kernel/src/os_sched.c:546-596 | Each ready list holds exactly the READY tasks of its priority, once each, and its bit is exact |
| Guarantees.DelayListIsExact | kernel/src/os_sched.c:598-646 | The delay lists hold exactly the delayed and time-limited tasks, each in one list and on time, sorted by wake tick |
| WaitOrder.ArrivalOrderKept | kernel/src/os_sched.c:286-299 | Over any run, two tasks that keep waiting at one object with unchanged priorities keep their order |
| WaitOrder.StepKeepsOrder | kernel/src/os_sched.c:306-337 | The same for each kernel step, inheritance changes elsewhere included |
| WaitOrder.ArrivesBehindEquals | kernel/src/os_sched.c:283-299 | A new waiter goes behind waiters of its own or a higher priority and ahead of the others |
| KernelObject.Kernel.TimeDelayListInsert | kernel/src/os_time.c:41-78 | The scan inserts behind all tasks that wake no later, in the list of the right epoch |
| DelayLists.DelayRemoveKeeps | kernel/src/os_time.c:84-90 | Removing a task from its delay list leaves the lists exact, sorted and on time, and changes only that record |
| DelayOrder.DelayOrderKept | kernel/src/os_time.c:67-77 | In every step, two tasks that sleep on in one delay list keep their order |
| DelayOrder.SleepOrderKept | kernel/src/os_time.c:67-77 | The same over any run, wrap-arounds of the clock included |
| DelayOrder.SleepsBehindEquals | kernel/src/os_time.c:67-77 | A task that starts to sleep stands behind every sleeper of its list that wakes no later and before every one that wakes later |
| WakeOrder.WakesInOrder | kernel/src/os_time.c:136-171 | If one tick wakes two tasks of equal and unchanged priority, the one that slept ahead runs or stands before the other in the ready list |
| KernelObject.Kernel.TimeDelayCurrent | kernel/src/os_time.c:97-115 | Refines delaying, with 0 as a yield and long delays clamped, and keeps the invariant |
| KernelObject.Kernel.ExpireAll | kernel/src/os_time.c:136-171 | The loop over list heads refines the expiry of all due tasks and the preemption flag |
| KernelObject.Kernel.TimeTick | kernel/src/os_time.c:123-201 | Refines one tick and keeps the invariant |
| DelayLists.DelayInsertKeeps | kernel/src/os_time.c:41-78 | A delay of 1 to 2^31-1 ticks is put where it comes due after exactly that many ticks, in a list that stays sorted; the order among equals is stated by the DelayOrder rows |
| DelayLists.CurrentListEmptyAtWrap | kernel/src/os_time.c:129-134 | The current delay list is empty whenever the tick wraps and the lists are swapped |
| DelayLists.AdvanceClockKeeps | kernel/src/os_time.c:125-134 | Advancing the clock, with or without a swap, brings every sleeper exactly one tick closer |
| DelayLists.HeadIsDueExactly | kernel/src/os_time.c:25-28 | The signed 32-bit comparison is true at a head exactly when its tick has come |
| DelayLists.NoneLeftBehind | kernel/src/os_time.c:139-144 | Stopping at the first head that is not due leaves no expired task behind |
| TickProofs.ExpiredKeepsVerdict | kernel/src/os_time.c:167-170 | Comparing only the woken task decides preemption rightly even when the running task loses inherited priority |
| Effects.TickEffect | kernel/src/os_time.c:123-201 | A tick wakes exactly the sleepers whose time is up, waiters with TIMEOUT, leaves the jobs of all ready and ended tasks alone, and touches no semaphore, queue or mutex |
| Effects.StepEffect | kernel/src/os_sched.c:392-427 | Any other step wakes exactly the front waiters it serves, with OK and with what they waited for; all other sleepers sleep on, and the jobs of all ready and ended tasks are left alone |
| Timing.DelayIsExact | kernel/src/os_time.c:97-115 | A task that delays n ticks is asleep before the n-th tick and awake right after it, in any interleaving |
| Replies.SleepsExactlyWhen | kernel/src/os_sched.c:348-389 | Take, send, receive and lock put their caller to sleep exactly when what they ask for is not there and the timeout is not 0 |
| Timing.CallStartsWait | kernel/src/os_sched.c:348-389 | For each call that must wait, the countdown is its timeout, at most 2^31-1 ticks, or there is none for wait-forever; lock includes the recomputation of priorities |
| Timing.WaitStarts | kernel/src/os_sched.c:348-389 | Blocking starts a countdown of the clamped timeout, even when the deadline equals the wait-forever value |
| Timing.WaitOutcome | kernel/src/os_sched.c:409-427 | A waiter that leaves has result OK if and only if the step is not a tick and serves it as the front waiter, and TIMEOUT if and only if its time was up on this tick |
| Timing.TimedCallEnds | kernel/src/os_time.c:136-171 | Take, send, receive and lock with a finite timeout: a call that must wait ends within that many ticks of any run, served, or with TIMEOUT exactly on the last tick; any other call does not wait |
| Timing.ForeverCallEnds | kernel/src/os_sched.c:348-389 | With the wait-forever timeout, a call that must wait waits on through any run until a step serves it; any other call does not wait |
| Timing.TimedWaitEnds | kernel/src/os_time.c:136-171 | From any state in the middle of a wait: with n ticks left it ends within n ticks, served, or unserved exactly on the n-th |
| RoundRobin.RoundRobinBound | kernel/src/os_time.c:173-198 | With i tasks ahead and nobody above, a ready task runs within (i + 1) full slices of ticks |
| RoundRobin.OneTickCloser | kernel/src/os_time.c:173-198 | Each tick the task runs or its bound shrinks, and its place in the list never grows |
| KernelObject.Kernel.SemTakeCurrent | kernel/src/os_sem.c:95-126 | Refines taking and keeps the invariant |
| Replies.TakeReplies | kernel/src/os_sem.c:95-126 | Taking is answered OK exactly when the count is above 0, whatever the timeout, and then only takes one unit; TIMEOUT exactly when the count and the timeout are 0; otherwise the caller waits at the semaphore |
| ObjectProofs.GiveAnySettled | kernel/src/os_sem.c:134-161 | After a give, whoever calls, lists and objects are in order and only the woken task may outrank the running one |
| Effects.GiveAnyEffect | kernel/src/os_sem.c:134-161 | A give wakes the front waiter and leaves the count, or wakes nobody; no other sleeper and no queue is touched |
| Accounts.GiveUnit | kernel/src/os_sem.c:163-178 | A successful give by a task adds exactly one unit, to the count or to the waiter that takes it at once; a refused one adds none |
| KernelObject.Kernel.SemGiveCurrent | kernel/src/os_sem.c:163-178 | Refines giving by a task and keeps the invariant |
| Replies.GiveReplies | kernel/src/os_sem.c:134-178 | Giving is refused exactly at the maximum; otherwise the front waiter gets the unit, or the count grows by one |
| Replies.GiveIsrReplies | kernel/src/os_api.c:81-93 | The same for gives from interrupts |
| KernelObject.Kernel.SemaphoreGiveFromIsr | kernel/src/os_api.c:81-93 | Refines enter, give, maybe preempt, exit, and keeps the invariant |
| Accounts.SemConservation | kernel/src/os_sem.c:95-178 | Over any run, initial count plus successful gives equals final count plus successful takes |
| Guarantees.SemaphoreBounds | kernel/src/os_sem.c:95-161 | The count never exceeds its maximum, and tasks wait only while it is 0 |
| KernelObject.Kernel.QueueSendCurrent | kernel/src/os_queue.c:152-202 | Refines sending and keeps the invariant |
| Replies.SendReplies | kernel/src/os_queue.c:152-202 | Sending is answered OK exactly when the ring is not full, TIMEOUT exactly when it is full and the timeout is 0; otherwise the caller waits at the queue with its message |
| KernelObject.Kernel.QueueReceiveCurrent | kernel/src/os_queue.c:210-267 | Refines receiving, refill from the first sender included, and keeps the invariant |
| Replies.ReceiveReplies | kernel/src/os_queue.c:210-267 | Receiving is answered OK exactly when the ring is not empty, TIMEOUT exactly when it is empty and the timeout is 0; otherwise the caller waits at the queue |
| KernelObject.Kernel.QueueSnapshot | kernel/src/os_queue.c:120-144 | Copies the oldest messages, at most the given number, in the order in which they will be received; nothing for an invalid queue |
| QueueRing.PutAppends | kernel/src/os_queue.c:183-189 | Writing at the tail of the ring appends one message |
| QueueRing.DropRemoves | kernel/src/os_queue.c:228-233 | Advancing the head removes the oldest message |
| Accounts.QueueIsFifo | kernel/src/os_queue.c:146-267 | Over any run, ring contents plus accepted messages equal received messages plus final ring contents; messages of timed-out senders never appear |
| Guarantees.QueueExclusive | kernel/src/os_queue.c:152-267 | Receivers wait only at an empty ring and senders only at a full one, never both; tail is head plus count modulo capacity |
| KernelObject.Kernel.constructor | kernel/src/os_task.c:148-177 | The initial state, which satisfies the invariant |
| KernelObject.Kernel.TaskCreate | kernel/src/os_task.c:60-143 | Refines task creation before start, with its status; the number of tasks grows exactly when the status is OK |
| KernelObject.Kernel.UserTaskCreate | kernel/src/os_task.c:179-202 | The public call refuses the priority of Idle and keeps the invariant |
| KernelObject.Kernel.EnsureIdleTask | kernel/src/os_task.c:204-220 | Refines the creation of Idle, once, with its status, and keeps the invariant |
| Setup.TaskCreateStep | kernel/src/os_task.c:60-143 | Creating tasks and Idle keeps the invariant |
| Creation.CreateTaskReplies | kernel/src/os_task.c:60-143 | A task is created exactly before the start, with a priority above that of Idle, while there is room; it is ready with that priority behind all others of it, and nothing else changes |
| Creation.EnsureIdleReplies | kernel/src/os_task.c:204-220 | Idle is created exactly when there is none yet, before the start, while there is room |
| Creation.StartReplies | kernel/src/os_sched.c:171-186 | The scheduler starts once, with the first task of the highest priority that is ready |
| IntrusiveList.List.PushBack | kernel/src/os_list.c:34-52 | Appends to the node sequence, keeps all links consistent, and leaves every disjoint list as it was |
| IntrusiveList.List.InsertBefore | kernel/src/os_list.c:60-85 | Inserts at the position of the given node; other lists untouched |
| IntrusiveList.List.PopFront | kernel/src/os_list.c:88-111 | Removes and unlinks the first node; other lists untouched |
| IntrusiveList.List.Remove | kernel/src/os_list.c:118-143 | Removes and unlinks the given node; other lists untouched |
| IntrusiveList.List.Contains | kernel/src/os_list.c:151-171 | Ends on any heap and answers whether the node is within the first bounded number of steps |
| IntrusiveList.ContainsIsMembership | kernel/src/os_list.c:144-171 | On a consistent list of at most the maximum number of tasks the bounded search is exact membership |
| IntrusiveList.NoCycle | kernel/src/os_list.c:34-143 | Doubly consistent nodes can not run in a circle |
| IntrusiveList.SharedNode | kernel/src/os_list.c:34-143 | Two consistent lists that share a node are the same list |
| HeapLists.Append | kernel/src/os_list.c:34-52 | Linking an unlinked node at the tail of one kernel list appends its task to that queue and to no other |
| HeapLists.Insert | kernel/src/os_list.c:60-85 | Linking an unlinked node before the i-th node of one kernel list inserts its task at place i of that queue; the other queues stand |
| HeapLists.Unlist | kernel/src/os_list.c:118-143 | Unlinking the node of a task removes the task from that queue and from no other |
| HeapLists.PopTask | kernel/src/os_list.c:88-111 | Unlinking the first node of a kernel list returns the TCB of the first task of that queue |
| Validate.Walk | kernel/src/os_sched.c:546-591 | The walk over one list ends on any heap; it accepts exactly the lists that consist of fitting, doubly linked, ordered nodes, and counts each task's occurrences |
| Validate.KernelHeap.CheckTask | kernel/src/os_sched.c:648-728 | The checks of one TCB decide whether it is where its state demands |
| Validate.KernelHeap.KernelValidate | kernel/src/os_sched.c:534-744 | Returns true if and only if there are list contents for which everything fits |
| Verdict.ReadyPartition | kernel/src/os_sched.c:546-596 | After a positive verdict the ready lists partition the READY tasks by priority, each once, and the bitmap is exact |
| Verdict.DelayMembership | kernel/src/os_sched.c:606-646 | After a positive verdict a task is in a delay list exactly when it is delayed or waits with a limit, and in one only |
| Verdict.DelaySorted | kernel/src/os_sched.c:606-646 | After a positive verdict the delay lists are acyclic, of the stated size, sorted by wake tick, each task once |
| Verdict.ListsDisjoint | kernel/src/os_sched.c:546-646 | After a positive verdict no node is in two lists |
| Verdict.OnlyCurrentRuns | kernel/src/os_sched.c:684-697 | After a positive verdict exactly the task `current` points to runs |
| Representation.ReachableIsCertified | kernel/src/os_sched.c:528-744 | Every memory that represents a reachable state passes the check; Layouts.LayOut shows that there is one for each |
| Layouts.LayOut | kernel/src/os_list.c:34-52 | Every state with the invariant, so every reachable one, is represented by some memory, built list by list |
| Layouts.ReachableValidates | kernel/src/os_sched.c:528-744 | The check, run on the memory built for any reachable state, returns true |
| Layouts.Boot | kernel/src/os_task.c:148-177 | The initial heap of empty lists and unused TCBs represents the initial state |

## Left out

- Ports, demos, console dashboard, observer callback and display names: hardware and display only.
- `last_from`, `last_to`, `last_reason`, `switch_count` and the runtime snapshot: a display trace that no decision reads.
- `os_KernelStopAll` and `os_KernelHasLiveTasks`: host shutdown, which deliberately leaves kernel objects stale; runs end before it.
- `osGetLastError` and the public wrappers of `os_api.c` other than `xSemaphoreGiveFromISR`: plain forwarding.
- Interrupts in the middle of a kernel call: each call is one step, as the ports guarantee.
- Calls before `os_Init` and the `initialized` flag of the state machine: the machine starts in the initial state. `Validate` does model the flag.
- Validation of names, entry points, stacks and item sizes in the create functions, and their `entry != NULL` check in `os_KernelValidate`: one-branch facts about fields the model does not have.
- Semaphore, queue and mutex creation: the slot is a parameter of the step, any unused one, instead of the first free one; creation is modelled on values only.
- Bytes of messages: a message is one value and a wait buffer is one cell of the task; `memcpy` and slot addresses are not modelled.
- KernelObject.Kernel.ReadyEnqueue: like the other methods of the class, it works on lists as sequences under their owner's name, so `linked` is membership in the list of the task's own priority. `HeapKernel` has the flag and the pointers.
- HeapKernel.SchedSchedule: the memory of `HeapKernel` has the lists, the bitmap, `current` and those TCB fields that `os_KernelValidate` reads; results, slices, message cells and the object pools are in the class `KernelObject.Kernel` only. The tick and the started flag are parameters.
- KernelObject.Kernel.MutexLockCurrent: promises the invariant only for callers other than Idle, for the reason that `Guarantees.IdleWouldStayBoosted` shows.
- KernelObject.Kernel.TaskCreate: models the checks of priority, state and pool; see the line on names, entry points and stacks.
- Validate.Walk: is one method for the two walks of the check, which differ only in what a node must satisfy; membership counters are values passed along instead of local arrays.
