# Three schedulers for an xv6 kernel, modelled and verified in Dafny

The repository replaces the scheduler of an xv6-riscv kernel in three ways: per-CPU task
queues with work stealing (`work stealing/proc.c`), shortest-job-first with aging
(`adaptive/proc.c`) and longest-processing-time-first rounds (`lpt/proc.c`). The three files
share one process and lock protocol. This project models that protocol together with
`trap.c` and `sysproc.c`, puts the three schedulers into it, and proves what the protocol and
the selection algorithms are for.

`dafny verify dfyconfig.toml` checks everything.

## How it is modelled

**The protocol is a step relation** (`Kernel.dfy`). A fixed, arbitrary number of CPUs and of
process slots; every process has a kernel thread whose program counter is its place in the C
code, with the C locals; an interrupt adds a frame of its own. One step is the code between
two lock operations. A run is any interleaving from the state that userinit leaves. Locks
are atomic and carry their owner; memory is sequentially consistent; a `panic`, and a lock
that is taken, have no step.

| module | C code |
|---|---|
| `Kernel.ForkCode` | allocproc, freeproc, kfork (`adaptive/proc.c:134-222`, `311-372`) |
| `Kernel.WaitCode` | kwait (`adaptive/proc.c:436-482`) and waitx (`adaptive/proc.c:875-925`) |
| `Kernel.SleepCode`, `Kernel.WakeCode` | sleep, wakeup (`adaptive/proc.c:698-755`) |
| `Kernel.ExitCode` | kexit, reparent (`adaptive/proc.c:374-432`) |
| `Kernel.KillCode`, `Kernel.EntryCode` | kkill, setkilled (`adaptive/proc.c:760-788`) |
| `Kernel.PauseCode` | sys_pause (`sysproc.c:67-87`) |
| `Kernel.TickCode` | update_process_times, yield, sched (`adaptive/proc.c:862-871`, `639-657`, `614-633`) |
| `Kernel.IrqCode`, `Kernel.TimerStep` | clockintr and the timer branches of usertrap and kerneltrap (`trap.c:78-87`, `155-174`) |
| `Kernel.SwtchStep`, `ClearStep`, `DispatchStep` | swtch on both sides of a dispatch (`lpt/proc.c:490-504`) |

The core carries the fields of all three builds: a push is a place without effect in the
builds without queues, and priorities have no effect outside the adaptive one. History
variables record what the theorems speak of and no step depends on them: `disp`, `ready` and
`hist` (dispatches, timer interrupts, those of CPU 0, those that made a process yield, counters
of reaped processes), `seen` (the tick of sys_pause's last test), `dropped` (a push has found its queue full), `runs` and `ran`.

In `Kernel` the scheduler of a CPU is an abstract dispatcher: it may lock and unlock slots
and may run a slot that is RUNNABLE and whose lock is the only one it holds.

**The invariants of the protocol** are proved for the abstract dispatcher, in
`KernelLocks`/`KernelSafe` (lock hand-off), `KernelTree` (process tree), `KernelWait` (no lost
exit), `KernelTicks` (sys_pause), `KernelCounts` and `KernelCharges` (accounting), `KernelPush`
and `KernelRunnable` (who makes a process RUNNABLE and who ends it). `KernelCalls` states what a
system call has achieved at each of its places, `KernelReports` what calls do over whole runs,
`KernelTimes` what the times in a slot mean.

**The three schedulers** are machines over the same core, `StealingMachine`,
`AdaptiveMachine` and `LptMachine`, each with its scheduler's own places and variables.
Each is proved to refine the abstract dispatcher (`Refinement`), so every theorem about the
core holds for all three. `LockOrder`, `Progress` and `AllocDeadlock` are about the adaptive build;
`LostProcess` is a run of the work stealing build, written out.

**The algorithms** that work step by step on arrays and fields are classes and methods with
loops: the ring buffer (`Ring`), the random victim (`Victim`), the search over the queues
(`Sweep`), the priority scan (`AdaptiveScan`, arithmetic in `Aging`), the round's collect,
sort and copy (`LptRound`). `Congruence`, `Words` and `Sequences` hold the arithmetic and
the counting. `AdaptiveFair` follows age_start through the traces of the
core, and `AdaptiveRuns` joins the two in the runs of the adaptive scheduler. In the same way
`StealingRuns` ties the passes of the work stealing machine to `Sweep`, and `LptRuns` the rounds
of the LPT machine to `LptRound`.

The number of CPUs and of slots is a parameter everywhere; a hypothesis such as "a power of
two" is stated where it is needed. Counters in the core are unbounded; the 32-bit arithmetic
of the aging formula, of sys_pause and of the generator is written out where it is used.

## What the code does that its comments do not say

- The adaptive scan is commented as never holding two process locks
  (`adaptive/proc.c:508-510`). It holds its candidate's lock while it acquires the next one
  (`adaptive/proc.c:540`, `557-565`). What saves it is the ascending order of the slots.
- allocproc takes tickslock under a process lock (`adaptive/proc.c:152`) and clockintr takes
  process locks under tickslock (`trap.c:170-173`). `AllocDeadlock.Deadlock` is a run of 19
  states in which two CPUs wait for each other for ever; `LockOrder.DeadlockNeedsAlloc` shows that
  every deadlock of waiting CPUs contains this place, and `Progress.StopsInCycle` that nothing
  else can stop all CPUs.
- The effective priority is commented as clamped to both ends (`adaptive/proc.c:492`); the
  code clamps from below only (`adaptive/proc.c:552-554`). A wait just past 214748364 ticks
  overflows the int subtraction, which C leaves undefined; 500 ticks later the value is large
  instead of 0 without any overflow (`Aging.OverflowsWhen`, `Aging.AgingBreaksAt`).
- "Adaptive" priorities do not adapt: nothing ever changes estimated_runtime from 5000
  (`AdaptiveFair.PriorityNeverChanges`).
- A yielding process is pushed twice (`work stealing/proc.c:629-630`, `578-581`) and popped
  once, so stale entries pile up until the queue is full. A push on a full queue is dropped
  silently (`work stealing/proc.c:463-467`); a yielding process gets its second push, but a
  process that is forked or woken then is lost for ever (`StealingMachine.PushLoses`,
  `LostForever`, `LostProcess.LosesChild`).
- kkill wakes a sleeper without resetting age_start (`adaptive/proc.c:769-772`), so the bound
  on overtaking by a slot holds between such wakes of that slot.
- etime is stamped at the start of kexit (`adaptive/proc.c:394-396`) while rtime can still
  grow: the turnaround time of waitx is the lifetime up to that moment
  (`KernelTimes.TurnaroundIsLifetime`), and nothing is claimed about the sign of its wait_time.
- est_time is an int and rtime is unsigned: from rtime 2147483647 on the estimate is not
  positive and such a process sorts behind all others (`LptRound.EstimatesCompare`).

## Model

| member | source | states |
|---|---|---|
| `KernelSafe.OneCpuPerProcess` | adaptive/proc.c:586-597 | In every state of every run at most one CPU has c->proc == p, for every p. |
| `KernelSafe.FreeLockRunning` | work stealing/proc.c:571-583 | A process whose lock is free is RUNNING if and only if some CPU executes it, and then exactly one does. |
| `KernelSafe.ResumesSavedContext` | lpt/proc.c:490-504 | A dispatch resumes a context that swtch or allocproc has saved and that no CPU executes, and p->lock passes from the scheduler to the resumed thread without being released: no CPU runs a process between its yield or sleep and its saved context. |
| `KernelSafe.SchedChecksPass` | adaptive/proc.c:615-633 | The panics of sched never fire: inside sched the CPU holds p->lock and no other spinlock (no process lock, not wait_lock, not tickslock), no handler is running and the state is not RUNNING. |
| `KernelSafe.RunSafe` | work stealing/proc.c:602-633 | The lock invariant holds in every state of every run: each lock is owned by the CPU whose place in the code holds it, on either side of swtch, each process state fits the place of its thread, and a USED slot belongs to one forking process. |
| `KernelLocks.BasePermitted` | adaptive/proc.c:699-779 | Every write that a system call makes to a slot happens under the lock that protects the field and from a state from which it is meant. |
| `KernelTree.ParentsAlive` | adaptive/proc.c:375-430 | A non-null parent is live (neither UNUSED, USED nor ZOMBIE) and has a smaller pid than its child, in every state; so a zombie has no children. |
| `KernelTree.LivePidsDistinct` | adaptive/proc.c:118-128 | The pids of all slots that are not UNUSED are distinct. |
| `KernelTree.TreeRootedAtInit` | adaptive/proc.c:345-367 | From every live or zombie process the chain of parents has no cycle and ends at initproc. |
| `KernelWait.NoLostExit` | adaptive/proc.c:391-482 | Whenever wait_lock is free, a process SLEEPING on its own address in kwait or waitx has no ZOMBIE child, over all interleavings of kexit, reparent, sleep, wakeup and kkill. |
| `KernelTicks.PauseWaits` | sysproc.c:78-86 | Where sys_pause leaves its loop to return 0, the tick count is at least n above its local ticks0, although the test compares 32-bit differences. |
| `KernelTicks.PauseLasts` | sysproc.c:67-87 | When a call sys_pause(n) is about to return 0, at least n ticks have been counted since that call was entered, whatever happened in between. |
| `KernelTicks.NoLostTick` | trap.c:166-174 | Whenever tickslock is free, a process SLEEPING on &ticks is in sys_pause, last tested its condition at the current tick value, and has not slept enough: fewer than n ticks have passed since it sampled them (or 2^32 and more). |
| `KernelTicks.NoPauseForZero` | sysproc.c:78-84 | sys_pause(0) never sleeps: whoever sleeps on &ticks has asked for at least one tick. |
| `KernelCalls.KillsVictim` | adaptive/proc.c:764-775 | Where kkill(v) is about to return 0, it holds the lock of the slot whose pid is v, that process is marked as killed, and it is not asleep. |
| `KernelCalls.ReapsChild` | adaptive/proc.c:447-464 | Where kwait or waitx is about to return a pid, it holds the lock of the child's slot and the slot is free: UNUSED, pid 0, no parent, no channel, not killed. |
| `KernelCalls.WaitFails` | adaptive/proc.c:455-474 | kwait and waitx return -1 only to a process that is killed or has no children at all, and kwait also after a failed copyout, when the zombie child is still there. |
| `KernelCalls.ForksChild` | adaptive/proc.c:361-371 | Where kfork is about to return, it holds the lock of a RUNNABLE slot whose parent is the caller and whose pid is greater. |
| `KernelCalls.PauseFails` | sysproc.c:79-82 | sys_pause returns -1 only to a killed process. |
| `KernelReports.SearchPasses` | adaptive/proc.c:764-778 | As long as kkill looks for its victim it marks nobody, and every slot that it has passed had another pid when it was looked at; likewise allocproc changes nothing while it looks, and every slot that it has passed was in use. |
| `KernelReports.SearchFails` | adaptive/proc.c:139-147 | kkill returns -1, and kfork fails for want of a slot, only after all slots of the table have been looked at in vain. |
| `KernelReports.ReportedOnce` | adaptive/proc.c:889-910 | The child that kwait or waitx reports was a ZOMBIE child of the caller, and its pid never occurs in the table again. |
| `KernelReports.WokenOnItsChannel` | adaptive/proc.c:732-755 | Over any part of a run of any scheduler, a process that was asleep and is not any more has been woken by a wakeup of the very channel on which it slept, or by a kkill of its pid. |
| `KernelReports.SleepsWithReason` | adaptive/proc.c:472-480 | A process that goes to sleep in kwait or waitx is not killed and has children, none of them a ZOMBIE; one that goes to sleep in sys_pause is not killed and has ticks to wait for. |
| `KernelReports.RunChans` | adaptive/proc.c:715-722 | In every state p->chan is set only between the moment a process falls asleep and the moment it runs again inside sleep. |
| `KernelTimes.TurnaroundIsLifetime` | adaptive/proc.c:892-895 | From kexit's stamp on, and in every ZOMBIE, ctime <= etime <= ticks, and etime - ctime is the number of ticks between the creation of exactly this process and its entry to kexit. |
| `KernelTimes.ReadySince` | adaptive/proc.c:739-748 | age_start of a RUNNABLE process is the tick count at which it yielded or was woken on its channel; if kkill woke it or kfork published it, age_start is what it was before. |
| `KernelCounts.SwitchConservation` | adaptive/proc.c:615-633 | All dispatches so far are the nswtch of live processes, plus that of reaped ones, plus one for every process that is dispatched and has not reached the increment in sched. |
| `KernelCounts.ReportedSwitches` | adaptive/proc.c:889-911 | The nswtch that waitx reads from a ZOMBIE is exactly the number of that process's dispatches. |
| `KernelCounts.RunTimeWithinTimers` | trap.c:84-87 | The rtime of all live processes plus that of all reaped ones never exceeds the number of timer interrupts of all CPUs. |
| `KernelCharges.RunTimeExact` | adaptive/proc.c:862-871 | The timer interrupts that have made a process yield are exactly the rtime of all live and reaped processes, plus one for every process that has been hit and not charged yet. |
| `KernelCharges.TicksAreClocks` | trap.c:166-174 | ticks is exactly the number of timer interrupts of CPU 0, minus one while clockintr has not counted its own yet. |
| `KernelCharges.TimerPreempts` | trap.c:80-87 | When the handler of a timer interrupt ends, the process that it hit is about to be charged and to yield, unless it is killed and in user mode. |
| `KernelCounts.RunTimeWithinTicks` | adaptive/proc.c:862-871 | On one CPU that sum never exceeds ticks, and every process past allocproc's initialisation has rtime <= ticks - ctime. |
| `KernelRunnable.DispatchedSince` | lpt/proc.c:494-498 | Over any part of a run of any of the schedulers, a slot that was RUNNABLE and no longer is has been dispatched in between: nothing else takes a process out of RUNNABLE. |
| `StealingMachine.Refines` | work stealing/proc.c:515-590 | Every run of the work stealing scheduler, seen without its own variables, is a run of the abstract dispatcher up to stuttering. |
| `StealingMachine.NoLostProcess` | work stealing/proc.c:528-582 | In every interleaving in which no push has been dropped, every RUNNABLE process is in some CPU's queue, or popped by a CPU that has not locked it yet, or locked by a CPU that is about to push or run it. |
| `StealingMachine.PushLoses` | work stealing/proc.c:706-743 | The premise is needed: at the pushes of wakeup, kkill and kfork the pushed RUNNABLE process is lost (executed by nobody, in no queue, in no hand, in nobody's charge) if and only if the queue holds MAX_TASKS - 1 entries and the process has no other entry. |
| `StealingMachine.PushBackLoses` | work stealing/proc.c:576-582 | A yielding process is pushed a second time by the scheduler it returns to; that push loses it under exactly the same condition. |
| `StealingMachine.LostForever` | work stealing/proc.c:528-590 | Whatever happens afterwards, a lost process stays RUNNABLE and lost: no CPU ever dispatches it again. |
| `LostProcess.LosesChild` | work stealing/proc.c:277-325 | That happens: a run in which 62 yields fill the queue with stale entries and the child of the second kfork after them is lost. |
| `StealingRuns.AloneTakes` | work stealing/proc.c:528-566 | If nobody else moves during a pass of the machine, the process it then runs is the RUNNABLE entry nearest to the rear of its own queue or, when that holds none, nearest to the front of the queue of a victim it picked, and the queues are left as `Sweep.FindWork` leaves them. |
| `StealingRuns.AloneGivesUp` | work stealing/proc.c:545-587 | A pass that nobody disturbs gives up after exactly NCPU - 1 victims, with its own queue and theirs emptied of stale entries only and the others untouched; if the victims were all other CPUs, no queue held a RUNNABLE entry. |
| `StealingRuns.SearchStartsAtHome` | work stealing/proc.c:515-551 | Every search, after a process has come back or an earlier search has failed, begins with the CPU's own queue, and its count of attempts never falls. |
| `StealingRuns.OnlyRunnableQueued` | work stealing/proc.c:576-582 | A queue grows only at its rear, by a process that is RUNNABLE and whose lock is held by the CPU that owns the queue. |
| `Ring.TaskQueue.constructor` | work stealing/proc.c:64-68 | A new queue is valid and represents the empty sequence. |
| `Ring.TaskQueue.PushBack` | work stealing/proc.c:459-473 | push_back appends at the rear, or leaves a queue of MAX_TASKS - 1 entries unchanged, as seen on the sequence between front and rear modulo MAX_TASKS. |
| `Ring.TaskQueue.TakeFront` | work stealing/proc.c:475-489 | pop_front returns and removes the first entry, or returns null and changes nothing on an empty queue. |
| `Ring.TaskQueue.TakeBack` | work stealing/proc.c:491-505 | pop_back returns and removes the last entry, or returns null and changes nothing on an empty queue. |
| `Ring.Conservation` | work stealing/proc.c:459-505 | For every sequence of operations the entries left plus the entries popped are, with multiplicity, the entries at first plus those pushed while there was room; the length stays below MAX_TASKS. |
| `Victim.Generator.SelectVictim` | work stealing/proc.c:447-456 | select_victim terminates for every NCPU >= 2, returns another CPU, namely the first draw that is not id, and takes at most two draws when NCPU is even. |
| `Victim.EverySeed` | work stealing/proc.c:441-445 | The generator has full period: from any seed every 32-bit value is reached within 2^32 calls. |
| `Victim.DrawsDiffer` | work stealing/proc.c:447-456 | 2^k consecutive draws modulo 2^k are all different, for every k up to 32 and every seed. |
| `Victim.VictimCoverage` | work stealing/proc.c:547-551 | For NCPU = 2^k, NCPU - 1 consecutive calls of select_victim(id) return every other CPU exactly once, from any seed. |
| `Victim.CoverageIff` | work stealing/proc.c:447-456 | For every NCPU from 1 to 2^32: a full round of calls covers the other CPUs exactly once, from every seed and on every CPU, if and only if NCPU is a power of two. |
| `Victim.CoverageFails` | work stealing/proc.c:26 | For instance with three CPUs, from the seed at boot, two calls of CPU 1 both return CPU 2. |
| `Sweep.DrainLocal` | work stealing/proc.c:528-541 | The local loop leaves the queue empty after popping stale entries only, or stops at the RUNNABLE entry closest to the rear and leaves what was before it. |
| `Sweep.DrainVictim` | work stealing/proc.c:552-566 | The loop over a victim does the same from the front. |
| `Sweep.FindWork` | work stealing/proc.c:528-587 | With NCPU a power of two and no interference, a pass finds a process if and only if some queue held a RUNNABLE entry; otherwise all queues are then empty and every discarded entry was not RUNNABLE. When it finds one, every other queue is untouched or emptied of stale entries. |
| `AdaptiveMachine.Refines` | adaptive/proc.c:518-605 | Every run of the adaptive scheduler is a run of the abstract dispatcher up to stuttering. |
| `AdaptiveMachine.RunsRunnable` | adaptive/proc.c:578-594 | The slot that the scheduler marks RUNNING without looking again is still RUNNABLE and its lock is the only one the scheduler holds. |
| `AdaptiveMachine.AfterScan` | adaptive/proc.c:535-579 | At the end of a scan the CPU holds exactly the lock of its candidate, or no process lock if there is none, and neither wait_lock nor tickslock. |
| `AdaptiveMachine.AloneScanSelects` | adaptive/proc.c:535-586 | If no other CPU moves during a scan of the machine, the slot it then runs is the one that AdaptiveScan selects. |
| `LockOrder.WantsBlocks` | adaptive/proc.c:539-540 | The lock that a CPU's place in the code waits for really blocks it: while it is taken that CPU has no step. |
| `LockOrder.Ascending` | adaptive/proc.c:539-576 | Except in the middle of allocproc, what a CPU waits for ranks above everything it holds: wait_lock and tickslock below process locks, process locks by slot. |
| `LockOrder.DeadlockNeedsAlloc` | adaptive/proc.c:535-576 | CPUs that scan and CPUs in any other code never form a cycle of waiting, unless one of them is in allocproc between its two locks. |
| `LockOrder.DeadlockExactly` | adaptive/proc.c:149-154 | CPUs wait in a cycle if and only if the owner of tickslock waits, over any number of CPUs, for the lock of the slot that a CPU in the middle of allocproc is allocating. |
| `Progress.NoDeadEnd` | adaptive/proc.c:518-605 | In every state of every run each CPU can take a step of its own, without waiting for an interrupt, unless it waits for a lock that is taken or runs initproc into kexit, which panics. |
| `Progress.StopsInCycle` | adaptive/proc.c:149-154 | If no CPU can take a step of its own and none panics, some CPUs wait in the cycle of `LockOrder.DeadlockExactly`: nothing but allocproc's order of locks ever stops the whole kernel. |
| `AllocDeadlock.Deadlock` | adaptive/proc.c:149-154 | That exception happens: a run with two CPUs ends with allocproc and clockintr waiting for each other. |
| `Aging.AgingIsExact` | adaptive/proc.c:546-554 | For every wait up to 214748364 ticks and priority in [0, 10000] the code's 64-, 32-bit and int arithmetic computes max(0, priority - 10 * wait) without int overflow, also when ticks wraps in between. |
| `Aging.OverflowsWhen` | adaptive/proc.c:552 | The int subtraction overflows if and only if 10 * wait modulo 2^32 lies above 2^31 - 1 and at most the priority above 2^31. |
| `Aging.AgingExactWhen` | adaptive/proc.c:546-554 | For all waits for which it does not overflow: the result is right if and only if the wait is within the bound or 10 * wait modulo 2^32 is again between the priority and 2^31 - 1. |
| `Aging.OverflowWrapsRight` | adaptive/proc.c:552-554 | Where it overflows, a machine that wraps around computes the right value, 0. |
| `Aging.AgingBreaksAt` | adaptive/proc.c:552-554 | At the one priority that occurs, 5000: the first wait past the bound overflows, and 500 ticks later the effective priority is 2147483646 instead of 0, without any overflow. |
| `Aging.OlderIsMoreUrgent` | adaptive/proc.c:47-50 | With the default priority a strictly smaller effective priority means a strictly longer wait, where waits count up to 500 ticks. |
| `AdaptiveScan.Scan` | adaptive/proc.c:535-576 | The locking scan finds a slot if and only if an eligible one exists, returns the lowest slot of minimal effective priority, and ends with exactly that slot's lock held. |
| `AdaptiveScan.Choose` | adaptive/proc.c:535-594 | The iteration changes the table in the selected slot only, to RUNNING with its priority reset. |
| `AdaptiveScan.OldestFirst` | adaptive/proc.c:535-576 | With the priorities and waits that occur every RUNNABLE slot is eligible, and a slot is selected if and only if no RUNNABLE slot is older, waits saturating at 500 ticks and ties going to the lower slot. |
| `AdaptiveFair.PriorityNeverChanges` | adaptive/proc.c:163-172 | In every state of every run each process past allocproc's initialisation has priority == estimated_runtime == 5000, and its age_start is not in the future. |
| `AdaptiveMachine.RefinesSteps` | adaptive/proc.c:518-605 | Step by step: each step of the adaptive scheduler is a step of the abstract dispatcher or a stutter, so a run with its steps is a trace of the core. |
| `AdaptiveRuns.ChoiceIsSelected` | adaptive/proc.c:535-597 | In a run of the adaptive scheduler, a dispatch whose scan nobody disturbed, and every dispatch on one CPU, runs the selected slot of that moment: on one CPU interrupts are off during a scan. |
| `AdaptiveRuns.OvertakesApart` | adaptive/proc.c:648-654 | In a run of the adaptive scheduler, once ticks has passed the age_start of a RUNNABLE p, two dispatches of the same other slot ahead of p are at least 500 ticks apart, if the second scan was undisturbed (always so on one CPU), kkill did not wake that slot in between and p's wait is within the 32-bit bound. |
| `AdaptiveRuns.FewOvertakes` | adaptive/proc.c:535-597 | So in any span of fewer than 500 ticks at most NPROC - 1 dispatches precede p, if the scans in it were undisturbed and kkill woke nobody. |
| `AdaptiveRuns.FewOvertakesOnOneCpu` | adaptive/proc.c:535-597 | On one CPU that bound holds without any assumption about the scans. |
| `LptMachine.Refines` | lpt/proc.c:433-511 | Every run of the LPT scheduler is a run of the abstract dispatcher up to stuttering. |
| `LptMachine.RoundServesAll` | lpt/proc.c:487-504 | When a round ends, each slot it collected has been dispatched since it was seen RUNNABLE, and this CPU has dispatched no slot twice and none it had not collected. |
| `LptMachine.RoundFairness` | lpt/proc.c:445-504 | A process seen RUNNABLE during the collect step has been dispatched, by this CPU or another, before this CPU's round ends. |
| `LptRuns.SortsByEstimate` | lpt/proc.c:458-467 | Whatever other CPUs do, if nobody writes est_time while a CPU sorts, its list is a permutation of what it collected in descending order of est_time. |
| `LptRuns.AloneRoundOrder` | lpt/proc.c:445-485 | If nobody else moves from the start of a round of the machine to its first dispatch, the list is exactly the RUNNABLE slots, longest run time first. |
| `LptRuns.LongestRunsFirst` | lpt/proc.c:437-498 | On one CPU, in every run, the first process of every round is a RUNNABLE process of greatest rtime. |
| `LptRound.EstimatesCompare` | lpt/proc.c:448 | Two estimates compare as the run times do if and only if rtime + 1 is an int for both or for neither, over all 32-bit run times. |
| `LptRound.Collect` | lpt/proc.c:445-451 | The batch is the RUNNABLE slots in table order, and exactly their est_time changes, to rtime + 1 wherever that is an int. |
| `LptRound.ExchangeSort` | lpt/proc.c:458-467 | The sort permutes the batch even if every comparison reads different estimates, and if the estimates are frozen the batch ends in descending order. |
| `LptRound.Chunk` | lpt/proc.c:469-485 | For every NCPU >= 1 the chunk loop terminates and final_list is the batch, unchanged. |
| `LptRound.Order` | lpt/proc.c:442-485 | final_list is a duplicate-free permutation of exactly the RUNNABLE slots, even if est_time changes during the sort; it is non-increasing in est_time when no estimate moves, and non-increasing in rtime itself when no other CPU writes est_time and every rtime + 1 is an int. |

## Left out

- Page tables, trapframes, kalloc, growproc and sys_sbrk: vm.c and kalloc.c are not part of this model; an allocation succeeds or fails nondeterministically.
- File descriptors, cwd and the log: kexit closes files and may sleep for the log between stamping etime and taking wait_lock; the model's exiting process goes straight on.
- kexec, forkret's first call and the return to user mode: only forkret's release of p->lock is kept.
- Device handling: an external interrupt is a wakeup of some other channel on any CPU; registers, PLIC, UART and virtio are not modelled.
- Spinlock internals and memory ordering: locks are atomic and memory is sequentially consistent. Each CPU's queue lock and pid_lock are held inside one step only.
- copyout results of waitx, procdump, either_copyin and either_copyout: user memory and output. waitx's wait_time, the turnaround minus rtime, has no theorem of its own.
- affinity_cpu and last_cpu: they never influence a decision.
- KernelTree.ParentsAlive: pids are unbounded, because nextpid is an int that the code never checks.
- AdaptiveRuns.OvertakesApart: with several CPUs it assumes that nobody moves during the second scan, because a scan that interleaves with wakeups has no single moment at which its choice is best.
- Aging.Effective: where the int subtraction overflows, which C leaves undefined, it is the value of a machine that wraps around; Aging.OverflowsWhen says when that is.
- StealingRuns.AloneTakes: it assumes that no other CPU moves, since another CPU may push, pop or run entries in between; what holds without it is StealingMachine.NoLostProcess.
- Sweep.FindWork: one pass without other users of the queues or of rand_seed; concurrent passes are covered by StealingMachine.NoLostProcess, which lets a victim be any other CPU.
- LptRound.Collect: the table does not change during the loop; the interleaved collect is LptMachine's.
- LptRuns.SortsByEstimate: a comparison of the sort reads its two estimates at one moment, in the machine and in LptRound.ExchangeSort.
- LptRuns.AloneRoundOrder: with several CPUs it assumes that nobody moves, because another CPU's collect step overwrites the estimates that this one sorts by.
- Victim.Generator.SelectVictim: rand_seed is shared by all CPUs without a lock; races on it are not modelled.
- Deadlock freedom of the other two builds: their schedulers hold one process lock at a time.
