# Verified model of the SMP kernel core

A Dafny model of an AArch64 RTOS kernel for up to four cores: run queues, selection,
waking, migration and balancing; semaphores, mutexes, event flags and message queues; the
exclusives-based spinlock; the context switch, the first activation of a task and the
interrupt save and restore; and the DMA submit and complete path.

Two forms are used side by side.

- Code that updates things in place is written as imperative Dafny (classes, arrays,
  loops) and proved against specification functions: modules Scheduler, SchedSteps, Frames,
  Rings, Dma, Semaphores, MsgQueue, Mutex and Event.
- What depends on interleaving is a machine over its steps, and the results are about every
  run: any number of cores, tasks, semaphores and waiting calls, any order of steps, a timer
  interrupt wherever interrupts are open, a device that completes in any order. The
  machines are in Spinlock, LockOrder, Kernel, Balancer, PingPong, ContextSwitch, Resume,
  DmaRun, DmaData and DmaWorkers, and in the second halves of MsgQueue, Mutex and Event. Each has an inductive
  invariant, one lemma per kind of step, and main results that mention only runs.

The layers meet as follows. Spinlock justifies taking a locked section as one step
elsewhere. LockOrder shows that the sections nest without cyclic waits and give the
interrupt mask back. Kernel is the machine for queues and semaphores; Balancer and PingPong
are further results about its runs, and Semaphores proves that the code of `sem_wait` and
`sem_post` takes exactly its steps. SchedSteps does the same for the scheduler's code: ticks,
yields, migrations, registrations and balance decisions on the arrays are steps of Kernel.
LockedSteps shows that whatever a step of Kernel changes is locked in LockOrder. ContextSwitch refines the switch to the grain of single
stores, where interrupts matter; Resume adds the memory contents. DmaRun is the DMA path
with counting semaphores, and DmaWorkers composes it with Kernel: the composed machine, whose
waits and posts are the kernel's own steps, refines DmaRun. DmaData adds the contents of the
buffers.

## Grain

`pick_next_ready` drops the queue lock (kernel/sched.c:139) before the caller writes
`current` (kernel/sync.c:75, kernel/sched.c:336, kernel/main.c:361, kernel/main.c:443). In
Kernel, picking, publishing and saving are one step. In ContextSwitch they are separate
steps, and migration is added with an exact condition: from any good state, a migration
keeps the stacks exclusive and every chosen task loadable in all continuations if and only
if no CPU has the task between pick and save (ContextSwitch.MigrationIsSafeExactly).

## What the code does not promise

Each of these is a lemma with the failing family and the condition under which it is fine;
the ones about runs come with a run from the initial state in which it happens.

- A second `sem_wait` on a semaphore with a registered waiter loses the first waiter for
  good, and nothing else ever loses one (Kernel.LostWakeupsExactly). The message queue and
  the mutex have the same single slots (MsgQueue.LostWakeupsExactly,
  Mutex.LostWakeupsExactly).
- Load-aware selection without load charges passes over a task at every pick at which a less
  loaded one is READY (Selection.ChargeFreePicks).
- `accel_submit_copy` has no full-ring check (Rings.StoreAppendsExactly), and the comment
  that identifier 0 means "none" (kernel/accel.c:131-132) fails once every 2^32 submissions
  (Rings.ZeroIdExactly).
- `mutex_unlock` never looks at the owner (Mutex.UnlockIsSafeExactly).
- A second `event_wait` always harms a blocked first one (Event.SecondWaitInterferes) and
  can replace the result of a woken one (Event.WokenBitsExactly); waiting for any bit of an
  empty mask never returns (Event.EmptyMaskBlocksForever).
- A migration between pick and save (ContextSwitch.MigrationIsSafeExactly), and an open
  interrupt window after `current = next` (ContextSwitch.OpenWindowCorruptsTcb).
- Balance passes overlapping each other (Balancer.MoveLowersExactly); the code runs them
  from CPU0's tick only.

## Model

| member | source | states |
|---|---|---|
| `Spinlock.MutualExclusion` | kernel/spinlock.h:9-25 | In every interleaving of the LDAXR/STXR/STLR/WFE instructions of any number of cores, at most one core is between acquiring and releasing |
| `Spinlock.SleepersWaitForAHolder` | kernel/spinlock.h:9-25 | A core asleep at WFE with no pending event implies that the lock is held, by another core |
| `Spinlock.SomeCoreCanExecute` | kernel/spinlock.h:9-25 | While any core is unfinished some core can execute: nobody sleeps through the last release |
| `Spinlock.LockedCounterIsExact` | kernel/smp.c:77-86 | The self-test's locked counter equals the increments made so far in every state, and cores times rounds once all have finished |
| `Spinlock.RunKeepsInv` | kernel/spinlock.h:9-25 | The invariant tying monitors, event bits, lock word and program counters holds in every state of every run |
| `LockOrder.EveryPathIsNeutral` | kernel/sched.c:145-204 | Every kernel path takes locks masked, in the order accel, semaphore, lower queue, higher queue, uart alone, releases all and restores the caller's mask, for every parameter |
| `LockOrder.EveryPathDoesItsDuty` | kernel/sched.c:163-211 | Every path does to shared data exactly what it is there for, in order: with the row above, all of it under the locks that protect it, both queues of a migration included |
| `LockOrder.WorkIsLocked` | kernel/sched.c:172-203 | In every run, a task about to touch shared data holds every lock that protects it |
| `LockOrder.WorkIsExclusive` | kernel/spinlock.h:9-39 | No two tasks are ever about to touch data under one lock: a locked section is one step to everybody else |
| `LockOrder.HoldersAreMaskedAndRunning` | kernel/spinlock.h:29-39 | In every run, a task holding any lock has IRQs masked and is on a core |
| `LockOrder.FinishedPathRestoresMask` | kernel/spinlock.h:29-39 | At the end of any path, through nesting, interrupts and switches, the mask is the one it began with and nothing is held |
| `LockOrder.NoCyclicWait` | kernel/sync.c:87-113 | No cycle, of any length, of tasks each spinning on a lock held by the next is reachable |
| `LockOrder.NoDeadlock` | kernel/main.c:318-334 | In every reachable state some step is enabled, switches included: spinning never stops the whole machine |
| `LockedSteps.ChangesAreLocked` | kernel/sched.c:135-204 | Whatever a step of the kernel machine changes (queue, index, semaphore, woken task, moved task) is protected by a lock that the path doing the step holds |
| `LockedSteps.StepsRunLocked` | kernel/sync.c:87-113 | In every run of the lock machine, a task about to do the work of a kernel step holds all those locks |
| `QueueSpec.SwapRemoveContents` | kernel/sched.c:192-193 | Swap-remove takes out exactly one entry, keeps every other and creates no duplicate |
| `QueueSpec.RemovalKeepsPlaces` | kernel/sched.c:192-194 | After a removal the last entry is in the gap, every other entry is where it was, and current_idx is unchanged if still in range and 0 otherwise |
| `QueueSpec.ExtremesAreUnique` | kernel/sched.c:220-224 | The busiest and the idlest secondary are determined uniquely by the queue lengths |
| `QueueSpec.MoveLowersImbalance` | kernel/sched.c:217-248 | One move between queues two or more apart lowers the sum of squared lengths by at least 2 and keeps all lengths between the old extremes |
| `QueueSpec.MoveChangesImbalance` | kernel/sched.c:191-199 | A move between any two secondaries changes the sum of squares by exactly twice (destination length + 1 - source length) |
| `Kernel.ExactlyOneQueue` | kernel/sched.c:43-53 | In every run a registered task is in the queue its cpu names and in no other, once; sizes stay within MAX_TASKS and current_idx in range |
| `Kernel.NoTaskOnTwoCpus` | kernel/sched.c:163-211 | No task is current on two CPUs in any run with migrations |
| `Kernel.StaleMigrateChangesNothing` | kernel/sched.c:163-201 | A migrate whose unlocked read of the home CPU has become stale leaves CPUs, tasks and semaphores as they were |
| `Kernel.HomeIsFrozenWhileBlocked` | kernel/sched.c:163-201 | A task's home CPU does not change over any stretch of a run in which it stays BLOCKED |
| `Kernel.WakeLocksTheRightQueue` | kernel/sched.c:145-151 | When sched_wake makes a task READY, the CPU it read without a lock still names the queue that holds the task |
| `Kernel.SemaphoreConservation` | kernel/sync.c:87-113 | initial + posts = count + grants, grants = returns + tasks still on their way out, a waiter implies an exhausted count, and counts never go negative |
| `Kernel.ReturnUsesItsGrant` | kernel/sync.c:64-78 | Each return from a blocking sem_wait uses up exactly one grant that this READY task owned |
| `Kernel.StepsAndOrphans` | kernel/sync.c:87-113 | An orphaned waiter stays one under every step, and a step that overwrites no registered waiter orphans nobody |
| `Kernel.OrphanStaysInRun` | kernel/sync.c:87-101 | A lost waiter is BLOCKED for the rest of any run |
| `Kernel.LostWakeupsExactly` | kernel/sync.c:87-113 | A lost wake-up exists at a point of a run if and only if some earlier sem_wait overwrote a registered waiter |
| `KernelWitness.TwoWaitersLoseOne` | kernel/sync.c:87-101 | A run from boot, one CPU and two tasks, that loses a waiter |
| `Kernel.NoLostWakeup` | kernel/sync.c:64-113 | Without overwriting, a BLOCKED task is the registered waiter or a post is between clearing and waking it, across CPUs and migrations |
| `KernelBooks.StepBooks` | kernel/sync.c:87-113 | A semaphore's counts of posts and returns change by a post and by a returning wait, and by no other kernel step |
| `KernelBooks.StepPhase` | kernel/sync.c:64-101 | Where a task stands in sem_wait changes by its own steps only |
| `KernelBooks.CallSteps` | kernel/sched.c:217-248 | A pass or migrate call changes by its own steps only, ends by giving up or by its section, and changes nothing else before that |
| `Kernel.RunKeepsInv` | kernel/sched.c:135-151 | The kernel invariant over queues, phases, semaphores and calls in progress holds in every state of every run |
| `Semaphores.SemT.constructor` | kernel/sync.c:80-84 | A new semaphore has its initial count and no waiter |
| `Semaphores.SemT.Wait` | kernel/sync.c:87-101 | The code takes exactly the machine's WaitTake or WaitBlock step, on semaphore and task states |
| `Semaphores.SemT.Post` | kernel/sync.c:103-113 | The code's effect is that of the machine's steps of one whole sem_post |
| `Balancer.OnlyIdleReadyTasksMove` | kernel/sched.c:217-248 | In runs whose migrations come from balance passes, only READY, unpinned tasks that no CPU runs change home, from secondary to secondary, into a queue with room, and CPU0 is untouched |
| `Balancer.StepLowersImbalance` | kernel/sched.c:217-248 | With one pass at a time, interleaved with every other kernel step, a step that moves a task lowers the sum of squared secondary lengths by at least 2 and no step raises it |
| `Balancer.BalancingEnds` | kernel/sched.c:217-248 | Twice the number of moves made plus the imbalance left never exceeds the initial imbalance: only finitely many moves |
| `Balancer.GapNeverWidens` | kernel/sched.c:225-226 | Once all secondary lengths lie between two bounds they do so for the rest of the run |
| `Balancer.MoveLowersExactly` | kernel/sched.c:186-201 | With any number of passes and migrations under way at once, a move lowers the sum of squares, by 2 or more, if and only if the source is still two or more longer when the locks are held |
| `Balancer.TwoPassesOvershoot` | kernel/sched.c:217-248 | A run from boot with two overlapping passes that takes lengths 3, 1 to 2, 2 and on to 1, 3 |
| `PingPong.OneToken` | kernel/smp.c:37-51 | In every run on any number of CPUs, with everything else going on, the token is in exactly one of four places |
| `PingPong.CountersStayClose` | kernel/smp.c:33-51 | rounds <= pongs <= rounds + 1 and both semaphore counts stay within 0..1 |
| `PingPong.NeverBothBlocked` | kernel/smp.c:37-51 | The two tasks are never both BLOCKED |
| `ContextSwitch.OpenIrqsMeanOwnStack` | kernel/sync.c:64-78 | With a timer IRQ possible at each unmasked step, a CPU with open IRQs has SP in the stack of its own current task |
| `ContextSwitch.SavedSpIsOwn` | kernel/switch.S:12-58 | No switch ever stores an SP into another task's TCB |
| `ContextSwitch.StacksAreExclusive` | kernel/main.c:423-454 | No two CPUs run on one task's stack |
| `ContextSwitch.NextTaskCanBeLoaded` | kernel/switch.S:38-58 | The SP switch_to loads always exists and is a point of the next task's own stack |
| `ContextSwitch.SwitchIsTransparent` | kernel/sync.c:58-78 | A task that is interrupted, yields or blocks comes out of that switch, on any CPU, current, on its own stack, with its original mask, at the code it left or polling, whatever was picked, saved, loaded, woken and migrated in between |
| `ContextSwitch.BlockedUntilWoken` | kernel/sync.c:64-78 | A task that blocks is not READY again before it is woken |
| `ContextSwitch.MaskDecides` | kernel/sched.c:32-41 | Masking and unmasking decide whether the timer interrupt may be taken |
| `ContextSwitch.OpenWindowCorruptsTcb` | kernel/sched.c:331-340 | Were IRQs open between `current = next` and switch_to, one interrupt would store the old task's SP into the new task's TCB |
| `ContextSwitch.MigrateKeepsInv` | kernel/sched.c:163-201 | A migration of a task that no CPU has between pick and save keeps the whole invariant |
| `ContextSwitch.GapMigrationBreaks` | kernel/sched.c:163-201 | From every good state, whatever the target CPU is doing, a migration of a task that its CPU has picked but not published, or published away from but not saved, can be followed without further migrations by two CPUs on one stack or a CPU with no SP to load |
| `ContextSwitch.MigrationIsSafeExactly` | kernel/sched.c:135-141 | From every good state, a migration keeps stacks exclusive and chosen tasks loadable in all continuations if and only if no CPU has the task between pick and save |
| `ContextSwitch.MigrationBreaksReachably` | kernel/sync.c:64-78 | Runs from boot on two CPUs to either end of the gap, from which one migration leads to such a failure |
| `Frames.SwitchRoundTrip` | kernel/switch.S:12-58 | Loading the 14-word frame switch_to stored gives back x19..x30, SP, DAIF and the return address, whatever the registers hold meanwhile |
| `Frames.IrqRoundTrip` | kernel/vectors.S:72-122 | The 34-word interrupt frame gives back x0..x30, SP, DAIF and the interrupted instruction |
| `Frames.StoresAre` | kernel/switch.S:18-38 | The stores of switch_to, word by word, including when the pointer they end with lies in the frame |
| `Frames.LoadsAre` | kernel/switch.S:40-58 | The loads of switch_to, register by register |
| `Frames.IrqStoresAre` | kernel/vectors.S:77-99 | The stores of irq_el1h, word by word |
| `Frames.InitTcbWords` | kernel/task.c:18-42 | Word by word, task_init leaves the saved SP, the task's entry, both canaries, a frame that returns to task_trampoline with DAIF 0, and every other word as it was |
| `Frames.Machine.PushFrame` | kernel/switch.S:18-24 | The pushes put each register and DAIF at its word, keep the padding word and touch nothing outside the frame |
| `Frames.Machine.PopFrame` | kernel/switch.S:46-52 | The pops fetch each register from the word its push used |
| `Frames.Machine.SaveOld` | kernel/switch.S:12-38 | Memory is the specified frame plus the saved SP, interrupts are masked, the new SP is kept |
| `Frames.Machine.SwitchTo` | kernel/switch.S:12-58 | The whole routine meets the store and load specification the round trip is about |
| `Frames.Machine.TaskInit` | kernel/task.c:18-42 | The loop and stores build the fresh TCB of Frames.InitTcbWords, with the entry and the saved SP in their words |
| `Frames.Machine.Trampoline` | kernel/task.c:8-16 | task_trampoline opens IRQs and calls the entry found in the current TCB |
| `Frames.Machine.IrqEntry` | kernel/vectors.S:72-99 | Exception entry stores the full register frame below SP, masks IRQs and leaves ELR and SPSR in x0 and x1, all other registers intact |
| `Frames.Machine.IrqReturn` | kernel/vectors.S:101-122 | The restore and eret load every register from that frame |
| `Resume.TaskInitIsFresh` | kernel/task.c:18-42 | task_init establishes the starting state the run results assume of a task |
| `Resume.SleepingContextIsKept` | kernel/switch.S:12-58 | While a task is off all cores, its saved SP and its stack keep every word, whatever any core writes to the other fields of its TCB (state, load, cpu) |
| `Resume.NextFrameIsThere` | kernel/switch.S:40-58 | Every switch finds a whole frame inside the next task's own stack |
| `Resume.ResumeIsExact` | kernel/switch.S:12-58 | On any number of cores, after any switches, interrupts and writes, a task resumes, on the same core or another, with exactly its callee-saved registers, SP and DAIF, at its return address |
| `Resume.FirstActivation` | kernel/task.c:8-42 | A fresh task's first switch, on any core, lands in task_trampoline with the entry it was initialised with still in its TCB, IRQs open, SP 16-byte aligned and both canaries intact, however long it waited |
| `Resume.PreemptionIsTransparent` | kernel/vectors.S:72-122 | An interrupted task continues, on the same core or another, with every register, SP, DAIF and PC as they were, even if the handler switched away and back |
| `Selection.ChargeClimbs` | kernel/sched.c:125-129 | A charge keeps a load within 0..997 and raises every load below 997 |
| `Selection.ChargeLaw` | kernel/sched.c:121-129 | The new load is seven tenths of the old plus three tenths of 1000, rounded down |
| `Selection.GapDecays` | kernel/sched.c:121-129 | After k ticks of an always-running task its distance to 1000 is at least (7/10)^k of what it was, and its excess over the saturated distance at most that fraction |
| `Selection.SaturatesAtTick18` | kernel/sched.c:121-129 | From load 0 the saturated load 997 is reached at the 18th tick and not before |
| `Selection.ScanVisits` | kernel/sched.c:65-66 | The i-th entry the scan visits, wrap-around included |
| `Selection.ChoiceIsUnique` | kernel/sched.c:63-110 | Each policy's description fits one entry only |
| `Selection.EqualLoadsMeanRoundRobin` | kernel/sched.c:84-110 | With equal loads among READY tasks the two policies choose the same entry, in both directions |
| `Selection.RoundRobinIsFair` | kernel/sched.c:63-82 | A task that stays READY is picked within num_tasks picks whatever the others do |
| `Selection.LoadsStayInRange` | kernel/sched.c:121-129 | In any run of ticks loads never leave 0..997 |
| `Selection.TickLowersMeasure` | kernel/sched.c:84-129 | A tick that does not pick a READY task lowers the pair of remaining slack and cyclic distance to it |
| `Selection.LoadAwareIsFairOverTicks` | kernel/main.c:424-425 | Under charge-then-pick ticks a task that stays READY is picked within (997 n + 1) n ticks however the others block and wake |
| `Selection.ChargeFreePicks` | kernel/sched.c:84-110 | Without charges and however the READY set changes, a task is passed over at every pick at which a READY one is less loaded, and picked within any n picks at which none is |
| `Selection.ChargeFreePicksExactly` | kernel/sched.c:84-110 | Without charges, on an unchanging READY set and over at least n picks, a READY task is picked if and only if it is among the least loaded |
| `Selection.BestOfFirstStep` | kernel/sched.c:88-96 | Visiting one more entry keeps the running best of the load-aware scan |
| `Scheduler.RunQueues.constructor` | kernel/sched.c:14-22 | Zero-initialised queues are valid and empty |
| `Scheduler.RunQueues.Resync` | kernel/sched.c:75-81 | With nobody READY the current task is kept and current_idx points at it if it is queued here |
| `Scheduler.RunQueues.ScanRoundRobin` | kernel/sched.c:65-72 | The loop finds the READY entry at the least cyclic distance, or shows that none is READY |
| `Scheduler.RunQueues.ScanLoadAware` | kernel/sched.c:86-96 | The loop finds the least loaded READY entry, the nearest among equals, or shows that none is READY |
| `Scheduler.RunQueues.RoundRobinSelectNext` | kernel/sched.c:63-82 | The next READY task cyclically, or else the current one; current_idx and one select_count change, nothing of other CPUs |
| `Scheduler.RunQueues.LoadAwareSelectNext` | kernel/sched.c:84-110 | The best READY task, or else the current one, with the same state update as round robin |
| `Scheduler.EwmaOnTick` | kernel/sched.c:125-129 | Only the charged task's load changes, by the EWMA law |
| `Scheduler.RunQueues.RegisterOn` | kernel/sched.c:43-53 | A fresh task is appended and each task stays in exactly the queue it names; a full queue changes nothing |
| `Scheduler.RunQueues.IndexIn` | kernel/sched.c:187-190 | The first position of a task in a queue, or none if and only if it is not there |
| `Scheduler.RunQueues.Append` | kernel/sched.c:196-198 | Appending keeps the partition of tasks over queues |
| `Scheduler.RunQueues.RemoveAt` | kernel/sched.c:192-194 | Swap-remove keeps the partition, leaves the task nowhere, and keeps current_idx if still in range, else 0 |
| `Scheduler.RunQueues.Migrate` | kernel/sched.c:163-211 | Success if and only if the task is READY, not current, in the source queue and there is room; then exactly one task moves, and otherwise nothing changes |
| `Scheduler.RunQueues.FindExtremes` | kernel/sched.c:218-224 | The loop finds the first busiest and first idlest secondary |
| `Scheduler.RunQueues.FindVictim` | kernel/sched.c:239-245 | The first READY, unpinned entry that is not the busiest CPU's own current task, or none if and only if there is none |
| `Scheduler.RunQueues.ChooseMove` | kernel/sched.c:217-245 | A victim is found exactly when the secondaries are two or more apart and the busiest has an eligible task |
| `Scheduler.RunQueues.BalancePass` | kernel/sched.c:217-248 | A pass moves a task if and only if balancing is possible, keeps the partition and CPU0's queue, and lowers the sum of squares by at least 2 |
| `SchedSteps.RunSwitches` | kernel/sched.c:331-340 | In every run of the kernel machine a tick, yield or blocking wait makes the chosen entry current and current_idx its position, and changes no other CPU, no queue and no task's state or home |
| `SchedSteps.SwitchStep` | kernel/main.c:355-364 | The same from any state, with semaphores, pins and migrations under way untouched |
| `SchedSteps.PickAndPublish` | kernel/sync.c:64-76 | The code of pick_next_ready under either policy followed by `current = next`, on the arrays, is the machine's Preempt or SwitchAway step to the entry the policy chooses |
| `SchedSteps.TimerTick` | kernel/main.c:423-443 | Charge, pick and publish, on the arrays, are a step of the machine and a tick in the sense of the fairness results |
| `SchedSteps.MigrateStep` | kernel/sched.c:163-211 | sched_migrate's section on the arrays succeeds exactly when the machine may move the task and has exactly the effect of the machine's Move |
| `SchedSteps.RegisterStep` | kernel/sched.c:43-53 | sched_register_on of a task in no queue is the machine's Register, or nothing when the queue is full |
| `SchedSteps.WakeStep` | kernel/sched.c:145-151 | sched_wake's section is the machine's PostWake |
| `SchedSteps.ChooseStep` | kernel/sched.c:217-245 | The decision of a balance pass on the arrays takes a task exactly when the machine's pass can take one, and one it can take |
| `Rings.WrappedIndex` | kernel/accel.c:126-148 | The slot index from the 32-bit counter is that of the unbounded count, across wrap-around |
| `Rings.WrappedEquality` | kernel/accel.c:194-204 | Wrapped counters compare equal if and only if the counts are a multiple of 2^32 apart, and so tell empty from non-empty while at most 16 entries are unconsumed |
| `Rings.StoreAppendsExactly` | kernel/accel.c:126-148 | Storing at the tail appends to the FIFO if and only if fewer than 16 entries are unconsumed (or the overwritten entry is the same) |
| `Rings.StoreHolds` | kernel/accel.c:126-148 | With any number of entries unconsumed, a store at the tail gives the consumer the new entry last and also in place of every entry a multiple of 16 back |
| `Rings.LoadRemoves` | kernel/accel.c:194-204 | Loading at the head yields the oldest entry and leaves the rest |
| `Rings.IdsCollideExactly` | kernel/accel.c:130-132 | Two submissions share an identifier if and only if they are a multiple of 2^32 apart |
| `Rings.ZeroIdExactly` | kernel/accel.c:130-132 | The identifier 0 is handed out exactly once every 2^32 submissions |
| `Rings.Accel.SubmitCopy` | kernel/accel.c:126-148 | The descriptor queued last is OPCODE_COPY with the caller's source, destination and length and the returned identifier; with fewer than 16 unfetched it is appended to the queue, with more it also replaces the one 16 places back |
| `Rings.Accel.HasCompletion` | kernel/accel.c:196 | The register test is true if and only if the number of waiting completions is no multiple of 2^32: with at most 16, if and only if one is waiting |
| `Rings.Accel.DrainOne` | kernel/accel.c:197-201 | The oldest completion is taken |
| `Rings.Accel.DrainMulti` | kernel/accel.c:194-204 | With the device completing throughout, in any number, what is drained and what is left are exactly those of the drain of the ring's contents |
| `Rings.DrainIsFifo` | kernel/accel.c:194-204 | While at most 16 completions are unconsumed, the drained entries are the oldest in order, none is lost or repeated, and an early stop means an empty queue |
| `Dma.FirstTrue` | kernel/main.c:291-301 | The first slot that fits, or none if and only if none fits |
| `Dma.RegistrationSucceedsExactly` | kernel/main.c:291-301 | A command's completion can find its slot if and only if the table had a free slot |
| `Dma.DispatchOrderIsImmaterial` | kernel/main.c:322-332 | Completions of different commands may be dispatched in either order with the same table and the same posts |
| `Dma.RecordedOnce` | kernel/main.c:322-332 | A done slot keeps its result, a completion whose slots are all done is dropped without a post, any other is recorded in one slot |
| `Dma.PendingTable.Register` | kernel/main.c:291-301 | The first free slot is filled, or nothing changes |
| `Dma.PendingTable.Deliver` | kernel/main.c:323-331 | A completion is recorded in the first waiting slot with its identifier and that slot's semaphore is posted once, or nothing changes |
| `Dma.PendingTable.Dispatch` | kernel/main.c:318-334 | A whole batch is recorded and posted as the machine's Match and Post steps do (DmaRun.DispatchRefines) |
| `Dma.PendingTable.Lookup` | kernel/main.c:579-582 | The first used slot with the identifier, or none |
| `DmaRun.DeliveredExactlyOnce` | kernel/main.c:318-334 | For any completion order and timing, no completion is dropped, each submitted command is in exactly one place at any time, and a semaphore is posted at most once and only after its own command's verdict |
| `DmaRun.NothingLeftBehind` | kernel/main.c:556-577 | When device, ring and dispatcher are empty, every worker that submitted has been posted |
| `DmaRun.LookupAlwaysSucceeds` | kernel/main.c:577-583 | After sem_wait returns, the unlocked lookup finds a slot with the worker's cmd_id holding the device's verdict on that command |
| `DmaRun.CommandsAreOwned` | kernel/main.c:556-574 | Different workers wait for different commands, each in a slot naming that worker's semaphore |
| `DmaRun.GapWouldDropCompletion` | kernel/main.c:548-574 | In every state between doorbell and registration the new command's completion would match no slot: the two must share one critical section |
| `DmaRun.DispatchRefines` | kernel/main.c:318-334 | The machine's steps over a whole batch, from every state of every run, have exactly the table and the posts the dispatch loop is proved to produce |
| `DmaRun.RunKeepsInv` | kernel/main.c:291-334 | The invariant of table, rings, dispatcher, semaphores and workers holds in every state of every run |
| `DmaData.DataArrives` | kernel/main.c:583-594 | In every run, with completions in any order and other code writing outside the buffers, a worker that looks up status OK finds in its destination, word for word, what its source held, and the source intact |
| `DmaWorkers.ActRefines` | kernel/main.c:556-583 | Every act of the DMA path on the kernel machine is an enabled step of DmaRun or leaves it alone; in particular a worker whose sem_wait returns had a post to take |
| `DmaWorkers.RunRefines` | kernel/main.c:556-583 | The same for every run, on any number of CPUs with everything else the kernel does in between |
| `DmaWorkers.PostedOnce` | kernel/main.c:318-334 | In every run a worker's kernel semaphore is posted at most once and returned from at most as often |
| `DmaWorkers.NoWorkerSleepsOn` | kernel/main.c:556-577 | Once everything is completed, drained and dispatched and no post on its semaphore is under way, a worker that submitted is not BLOCKED |
| `DmaWorkers.WakesToItsResult` | kernel/main.c:577-583 | When the kernel's sem_wait returns to a worker, its lookup finds its own slot with the device's verdict on its own command |
| `MsgQueue.PushAppends` | kernel/sync.c:226-229 | Storing at tail appends to the contents, across the wrap |
| `MsgQueue.PopTakesOldest` | kernel/sync.c:247-250 | Loading at head takes the oldest item and leaves the rest |
| `MsgQueue.Queue.TrySend` | kernel/sync.c:223-242 | One turn appends the item and readies the receiver, or registers the caller and marks it BLOCKED exactly when the ring is full |
| `MsgQueue.Queue.TryRecv` | kernel/sync.c:244-263 | One turn takes the oldest item and readies the sender, or registers the caller and marks it BLOCKED exactly when the ring is empty |
| `MsgQueue.FifoRefinement` | kernel/sync.c:208-263 | In every run of any mix of retrying senders and receivers, received items are a prefix of sent items and the ring holds exactly the rest |
| `MsgQueue.SendsItsItem` | kernel/sync.c:223-242 | However often a sender waits and retries, its call puts in the item it was called with, once |
| `MsgQueue.LostWakeupsExactly` | kernel/sync.c:223-263 | At any point of any run some task is BLOCKED with no waiter slot naming it if and only if an earlier turn blocked while the slot for its direction was taken |
| `MsgQueue.LostSleepsOn` | kernel/sync.c:223-263 | A task BLOCKED with no slot naming it is so for the rest of any run |
| `MsgQueue.StepsAndLost` | kernel/sync.c:223-263 | A lost task stays lost under every step, and a step that overwrites no waiter loses nobody |
| `MsgQueue.TwoReceiversLoseOne` | kernel/sync.c:244-263 | A run from the initial state with two receivers that loses one |
| `MsgQueue.NobodyLostMeansOneSleeper` | kernel/sync.c:223-263 | With nobody lost at most one task is BLOCKED, a sender only on a full ring and a receiver only on an empty one |
| `MsgQueue.NeverBothBlocked` | kernel/sync.c:208-263 | One sender and one receiver are never both BLOCKED in any run |
| `Mutex.MutexT.Lock` | kernel/sync.c:127-138 | A free mutex goes to the caller; a taken one registers and blocks the caller and keeps its owner |
| `Mutex.MutexT.Unlock` | kernel/sync.c:140-152 | A registered waiter becomes owner and READY with the mutex still locked; without one the mutex is free |
| `Mutex.MutualExclusion` | kernel/sync.c:127-152 | With owner-only unlock and any number of tasks, at most one task is between being given the mutex and unlocking, and it is the recorded owner |
| `Mutex.HandoverHolds` | kernel/sync.c:140-152 | After an unlock with a waiter, no third task holds the mutex at any point before the new owner unlocks |
| `Mutex.UnlockIsSafeExactly` | kernel/sync.c:140-152 | An unlock by an arbitrary task leaves at most one holder, at once and after the next lock, if and only if it is the owner, the mutex is free, or the owner is itself the registered waiter |
| `Mutex.HarmfulUnlock` | kernel/sync.c:140-152 | Any other unlock puts owner and waiter in possession at once, or else the owner and whichever task locks next |
| `Mutex.ForeignUnlockReachable` | kernel/sync.c:140-152 | A run from the initial state to such an unlock, with both tasks inside afterwards |
| `Mutex.LostWakeupsExactly` | kernel/sync.c:127-138 | At any point of any run some task is BLOCKED without being the registered waiter if and only if an earlier lock call found both the mutex and its waiter slot taken |
| `Mutex.StepsAndLost` | kernel/sync.c:127-152 | A lost task stays lost under every step, and a step that overwrites no waiter loses nobody |
| `Mutex.LostSleepsOn` | kernel/sync.c:127-138 | A lost task is BLOCKED for the rest of any run |
| `Mutex.TwoWaitersLoseOne` | kernel/sync.c:127-138 | A run from the initial state with one holder and two later callers that loses one |
| `Mutex.SleeperIsNext` | kernel/sync.c:127-152 | A sleeping task that is not lost sleeps only while another task owns the mutex, and the next unlock serves it |
| `Mutex.RelockIsForever` | kernel/sync.c:127-138 | A task that locks the mutex it holds never returns and the mutex is never free again |
| `Event.EventT.Set` | kernel/sync.c:175-185 | The bits are added to the flags, and the registered waiter is woken exactly when the new flags meet its condition, with the bits as of now |
| `Event.EventT.Clear` | kernel/sync.c:187-191 | Only flags change |
| `Event.EventT.Wait` | kernel/sync.c:193-206 | A met condition returns the masked flags at once; otherwise the caller is registered and BLOCKED |
| `Event.WaiterIsUnsatisfied` | kernel/sync.c:170-206 | In every run with one waiting task, BLOCKED and registered are the same, and a registered waiter's condition is unmet |
| `Event.FlagsExactly` | kernel/sync.c:175-191 | In any run, with any number of waiting tasks, a bit is up if and only if it was up at the start or has been set, and no clear since had it |
| `Event.AllBitsWake` | kernel/sync.c:170-206 | A blocked wait for all of a mask is woken once every bit of it has been set and not cleared since, whichever sets brought them |
| `Event.PendingWait` | kernel/sync.c:175-206 | A blocked wait is either still blocked with its condition unmet all along, or woken by the first satisfying set with the bits of that moment |
| `Event.ReturnsBitsOfSatisfyingSet` | kernel/sync.c:193-206 | event_wait returns the masked flags as of the first satisfying set, all of the mask or some of it, whatever clears and sets follow |
| `Event.CanBeMetExactly` | kernel/sync.c:170-173 | A condition can be met by some flags if and only if it waits for all bits or its mask is not empty |
| `Event.EmptyMaskBlocksForever` | kernel/sync.c:193-206 | Waiting for any bit of an empty mask stays BLOCKED in every run |
| `Event.SecondWaitInterferes` | kernel/sync.c:193-206 | A second event_wait while one is BLOCKED always takes its slot or replaces the condition it is woken by |
| `Event.WokenBitsExactly` | kernel/sync.c:175-206 | With any number of waiting tasks, a woken task that has not returned gets the bits it was woken with if no set in between woke another waiter, and otherwise the bits of the last such set |
| `Event.WokenBitsOverwritten` | kernel/sync.c:193-206 | A run in which a task that waited for one bit returns another task's |

## Left out

- UART output, GIC, PSCI, PCI and boot code: MMIO, firmware calls and one-off set-up; only the IRQ mask and the fact that an interrupt may arrive are modelled.
- The DEBUG_HOOKS, DISABLE_REAL_DMA, switch-history and crash-dump builds: diagnostics.
- Real time, wake latency and weak or Device-memory ordering: steps are sequentially consistent.
- The unprotected counter of the self-test: it promises nothing.
- How the device works: it carries out a descriptor at the moment it completes it, in any order; only OPCODE_COPY is modelled.
- Exclusivity of running tasks against migration at a grain finer than pick, publish and save: false of the code, see ContextSwitch.MigrationIsSafeExactly.
- Agreement of current_idx and select_count with the current task after a migration: swap-remove moves neither (kernel/sched.c:192-194).
- An idle task kept by each secondary: idle tasks are not pinned, so a balance pass may move one.
- Liveness with several waiters on one semaphore, mutex, queue direction or event: one slot by design; the lost tasks are characterised instead.
- Non-contiguous online CPUs: the online CPUs are a prefix of the CPU ids, as the code assumes.
- Kernel.NoLostWakeup: posts come from any CPU or handler and the machine does not say which; the wait loop and the single waiter slot are exact.
- Scheduler.RunQueues.Migrate: one section with both queue locks held; the unlocked read of the home CPU is the parameter src, and Kernel interleaves it.
- Scheduler.RunQueues.BalancePass: nothing runs beside it; the interleaved form is in Balancer.
- Event.EventT.Set: a flag word is the set of its one bits, without the 32-bit width, because no operation carries between bits.
- Semaphores.SemT.Post: the steps of one post with nothing in between; interleavings with other steps are in Kernel.
- Balancer.StepLowersImbalance: one pass at a time, as CPU0's tick runs them; the scan over queue lengths is one step, although the code reads them one by one. Overlapping passes are the subject of Balancer.MoveLowersExactly.
- DmaRun.DeliveredExactlyOnce: each worker submits once, as worker_entry does, so there are at most as many submissions as slots.
- DmaWorkers.NoWorkerSleepsOn: the dispatcher may go on matching before its sem_post has released the semaphore, which allows more runs than the code has.
- Resume.ResumeIsExact: code writes the free stack of its own task or words that hold no context; a switch is one step; interrupts do not nest on one task.
- Selection.ChargeFreePicksExactly: an unchanging READY set; Selection.ChargeFreePicks is about changing ones.
- MsgQueue.FifoRefinement: single CPU, as the queue protects itself by masking interrupts only.
- Mutex.MutualExclusion: single CPU, for the same reason.
- Event.WaiterIsUnsatisfied: single CPU, for the same reason, and one waiting task at a time.
- SchedSteps.TimerTick: a tick in the sense of the fairness results only when current_idx is on the current task, which a migration can undo.
- SchedSteps.ChooseStep: all CPUs online.
- DmaData.DataArrives: a buffer is a range of words; the fill pattern and the word-by-word comparison of worker_entry are its consequences.
