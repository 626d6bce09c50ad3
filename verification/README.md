# A model of the Pandos+ kernel and its pager

Pandos+ is a small operating system: a nucleus (processes, ready queues, semaphores, a scheduler)
and, above it, a support level that gives user processes (U-procs) virtual memory. This project
models both in Dafny and proves what they keep over every run.

**Lists.** All queues of the nucleus are intrusive circular lists threaded through static tables.
`Lists.dfy` has the cells and pointer writes of `list.h` and `util.h` in a class, with one ghost
sequence per sentinel: every operation is proved to do to one sequence what its name says and
nothing to the others.

**Nucleus.** `Kernel.dfy` is the abstract state (process table, free list, two ready queues, one
queue per semaphore, process forest, two counters) and the ownership invariant; `Progeny.dfy` is
killing a process with its descendants; `Steps.dfy` is what each system call, interrupt and fault
does, and `Scheduling.dfy` what `schedule` does with the result. `Runs.dfy` puts them together: any
sequence of events from power-on keeps the invariant, and its consequences are stated there.
`Effects.dfy` says what every single event does, seen from outside and without the functions the steps
are made of: who is born or dies, who waits where, how the ready queues change and who gets the processor.
`Nucleus.dfy` is the C program: static tables as arrays, globals as fields, three families of linked
lists, loops and the recursion of `kill_progeny`. Each of its procedures is proved to take the tables
from representing one abstract state to representing the next (`Ties.dfy` says what representing
means), up to `exception_handler`, which is exactly one step of the runs. `Pid.dfy` is the 32-bit
arithmetic of process identifiers.

**Protocols on binary semaphores.** Both P and V may block. `Semaphores.dfy` is what they do to one
semaphore; the kernel's steps are proved to do just that, and the protocols are built on it.
`Conservation.dfy` counts completed operations over whole runs of the machine, `Fairness.dfy` and
`Turns.dfy` follow one process through the high and the low ready queue, `SwapMutex.dfy` is the mutex of
the swap pool with its batons, and `Barrier.dfy` is the master semaphore on which the root process awaits
its U-procs.

**Paging.** `Paging.dfy` has page tables, swap pool, TLB and flash as values, word by word where the code
computes with words. `Words.dfy` says which of those words a page fault writes; `Coherence.dfy` says when
they agree; `FlatMemory.dfy` proves which runs are a flat memory; `Protection.dfy` is about write
protection, `Replacement.dfy` about victims and write-back; `Pager.dfy` is the C code, with its loops over
the swap pool table and page tables updated in place.

**Printing.** `Numerals.dfy` and `Nitoa.dfy` are `nitoa`: a bounded printer into a character buffer.

`Options.dfy`, `Sequences.dfy`, `Arithmetic.dfy` and `Bits.dfy` hold what the others share.

## What the code does not do

Three things the proofs bring out, each with the exact condition:

- The README of Pandos+ (lines 25-45) allows `MAX_PROC` up to `2^MAX_PROC_BITS`. The reserved pid 0 stays
  outside the process table exactly when it is strictly smaller (`Pid.ReservedPidNeedsSpareSlot`).
- `support_tlb` (`phase3/src/pager.c:387`) invalidates the victim's entry in the page table of the
  U-proc that faults, although its comment speaks of the owner's. A fault keeps page tables, TLB and swap
  pool in agreement exactly when the victim frame is unoccupied or belongs to that same U-proc, or a
  transfer fails (`Coherence.FaultCoherentIff`). It also keeps the contents of everybody's pages exactly
  when the frame is unoccupied or its own, or the write fails, or the read fails and leaves in the frame
  what was there (`Coherence.FaultSparesIff`); a run is a flat memory throughout exactly when this holds
  of all its faults (`FlatMemory.FlatIffSparing`). Otherwise the owner goes on using a frame that holds
  another U-proc's page (`FlatMemory.StolenFrameIsRead`, with a run in `FlatMemory.TwoUProcsMixTheirPages`)
  or finds its page destroyed (`Coherence.FailedReadLosesPage`), and the U-proc that faults loses track of
  its own page of the same index, if that is resident, and reads an old copy of it later
  (`Words.OwnPageForgotten`, `Words.ForgottenPageIsReread`).
- `init_page_table` means to mark .text pages read-only and leaves their dirty flag off
  (`Protection.TextStartsClean`), but `update_page_table` sets the flag of every page it makes valid. In
  every run of any number of U-procs a store to any page goes through exactly when a load from there does,
  and the TLB modification exception that `support_tlb` tests for never arises
  (`Protection.StoresPassWhereLoadsDo`); a run that overwrites a .text page is in
  `Protection.AnyPageIsOverwritten`.

## Model

| member | source | states |
|---|---|---|
| Lists.Links.InitListHead | os/include/os/list.h:100-104 | the sentinel's list is empty afterwards and every other list is untouched |
| Lists.Links.InsertBetween | os/include/os/list.h:113-119 | four pointer writes put the entry between two neighbours of one circular list, whose sequence gains it there; no other list changes |
| Lists.Links.ListAdd | os/include/os/list.h:129-132 | the entry becomes the first of one list; the frame condition covers all others |
| Lists.Links.ListAddTail | os/include/os/list.h:142-145 | the entry becomes the last of one list |
| Lists.Links.ListDel | os/include/os/list.h:155-171 | the list loses exactly that entry and keeps its order; the entry's own pointers stay as they were |
| Lists.Links.ListSdel | os/include/os/util.h:40-46 | as list_del for an entry on the list, no effect for one that is on none, and the entry's pointers are NULL afterwards |
| Lists.Links.OnListNotNull | os/include/os/util.h:30-33 | an entry that is on a list never looks like one with NULL pointers, which is what list_null callers rely on |
| Lists.Links.ListEmpty | os/include/os/list.h:193-196 | true exactly when the sequence is empty |
| Lists.Links.ListNext | os/include/os/list.h:206-212 | the first entry, or NULL for an empty list |
| Lists.Links.ListSearch | os/include/os/util.h:76-85 | terminates with the first entry that satisfies the comparison, or NULL when none does |
| Lists.Links.ListContains | os/include/os/util.h:106-110 | membership in the sequence |
| Lists.Links.ListSize | os/include/os/util.h:54-63 | terminates with the length of the sequence |
| Lists.SpliceInserts | os/include/os/list.h:113-119 | on the memory of cells: the pointer writes of an insertion turn the ring of a sequence into the ring of the longer one |
| Lists.BridgeRemoves | os/include/os/list.h:155-159 | on the memory of cells: joining two neighbours turns the ring of a sequence into the ring without the entry |
| Pid.PidRoundTrip | os/include/os/scheduler_impl.h:16-21 | for every slot of a table smaller than 2^MAX_PROC_BITS and every 32-bit recycle count, the pid gives back the slot and the count modulo 2^27 and is never the reserved pid 0 |
| Pid.PidsCollide | os/include/os/scheduler_impl.h:18-19 | two pids are equal exactly when slots are equal and recycle counts agree modulo 2^27 |
| Pid.LastPidWraps | os/include/os/scheduler_impl.h:18-19 | with a 32nd slot, recycle count 2^27 - 1 yields the reserved pid |
| Pid.ReservedPidNeedsSpareSlot | README.md:25-45 | pid 0 is outside the table, both as a lookup and as a generated pid, exactly when MAX_PROC is strictly below 2^MAX_PROC_BITS |
| Kernel.EnqueueKeeps | os/src/scheduler.c:47-53 | enqueueing the process that has the processor keeps the ownership invariant, with nobody off the lists |
| Kernel.UnreadyKeeps | os/src/scheduler.c:55-61 | dequeueing a ready process keeps the invariant with that process off the lists |
| Kernel.BlockOnKeeps | os/src/semaphores.c:23-29 | blocking the process that is off the lists keeps the invariant, the soft-block count included |
| Kernel.WakeKeeps | os/src/semaphores.c:55-58 | waking the longest waiter keeps the invariant |
| Kernel.SpawnKeeps | os/src/scheduler.c:71-82 | a spawned process joins a ready queue with a fresh pid and the invariant holds |
| Kernel.AdoptKeeps | os/src/pcb.c:137-149 | giving a childless, parentless live process a parent that is older keeps the invariant, acyclicity of the forest included |
| Progeny.PostorderMembers | os/src/scheduler.c:112-121 | the order in which kill_progeny frees contains exactly the process and its descendants |
| Progeny.PostorderNoDup | os/src/scheduler.c:112-121 | and contains each of them once |
| Progeny.DescendsIsYounger | os/src/scheduler.c:112-121 | a proper descendant was spawned later, so the recursion terminates and the forest has no cycle |
| Progeny.KillTwice | os/src/scheduler.c:112-121 | killing one group and then another is killing both at once |
| Progeny.DetachThenKill | os/src/pcb.c:151-168 | detaching a child first makes no difference to what killing its tree leaves |
| Progeny.NextChild | os/src/scheduler.c:116-118 | one turn of the loop: with j children's trees gone, detaching and killing the next leaves j + 1 gone |
| Progeny.LastChild | os/src/scheduler.c:116-120 | after the loop, killing the process itself completes the killing of its tree |
| Progeny.KillTreeKeeps | os/src/scheduler.c:112-121 | killing the tree of any live process keeps the ownership invariant |
| Runs.KilledExactly | os/src/scheduler.c:88-121 | exactly the process and its descendants die, everybody else's pcb is unchanged, and the free list gains exactly the dead |
| Runs.KilledQueues | os/src/scheduler.c:88-121 | both ready queues and every semaphore queue become what they were without the dead, in the same order; process_count drops by the size of the tree and softblock_count by the number of its members that waited |
| Runs.KilledForest | os/src/scheduler.c:112-121 | survivors keep their children, except that the parent of the killed process loses that one |
| Runs.CallerSurvivesIffOutside | os/src/syscall.c:56-75 | after terminating a live pid the caller is re-enqueued exactly when it is not in the killed tree |
| Steps.PSound | os/src/semaphores.c:16-38 | P by the running process never panics and leaves a state fit for the scheduler |
| Steps.VSound | os/src/semaphores.c:40-63 | V by the running process never panics and leaves a state fit for the scheduler, blocking at value one included |
| Steps.TickKeeps | phase2/src/exception.c:66-72 | the loop of interrupt_timer ends with the clock semaphore at one and the invariant kept |
| Steps.TickTurn | phase2/src/exception.c:69-70 | one V of that loop leaves the result of the rest of the loop unchanged and shortens the queue or ends it |
| Steps.CreateSound | os/src/syscall.c:26-49 | CREATEPROCESS keeps the invariant, with no free pcb and with bad arguments too |
| Steps.TerminateSound | os/src/syscall.c:56-75 | TERMPROCESS of oneself, of any live pid and of an unknown pid keeps the invariant |
| Steps.DoIoSound | os/src/syscall.c:107-136 | DOIO keeps the invariant, or panics exactly when the device semaphore is free of waiters and above zero |
| Steps.PassUpOrDieSound | os/src/puod.c:12-28 | a fault keeps the invariant, whether it is passed up or kills the process and its descendants |
| Steps.YieldSound | os/src/syscall.c:194-198 | YIELD leaves exactly the yielder off the lists |
| Steps.HandleSound | phase2/src/exception.c:198-240 | every event leaves a state fit for the scheduler unless it is the DOIO panic, and that is a panic |
| Scheduling.AllWait | os/src/scheduler.c:164-173 | when nobody is ready or running, process_count equals softblock_count, so the branch of the deadlock panic is unreachable |
| Scheduling.ScheduleSound | os/src/scheduler.c:175-206 | schedule dispatches only a live process that is on no list, waits only while every process waits, halts exactly with no process left, and never reports a deadlock |
| Runs.BootSound | os/src/init.c:19-41 | power-on ends with the first process dispatched and the invariant holding |
| Runs.EveryRunIsSound | os/src/scheduler.c:175-206 | all of this after every event of every run from power-on, for every MAX_PROC from 1 to 31 |
| Runs.ExactlyOnePlace | os/src/scheduler.c:47-121 | every slot is in exactly one of: free list, high queue, low queue, one semaphore queue, processor; pid, p_sem_add and p_prio say which |
| Runs.LivePidsDiffer | os/src/scheduler.c:71-82 | no two live processes share a pid |
| Runs.FindProcessIsSearch | os/src/scheduler.c:63-69 | find_process of any 32-bit word, 0 and dead pids included, finds exactly what a search of the table for a live process with that pid would |
| Runs.DescriptorsSuffice | os/src/asl.c:93-111 | no more descriptors are active than processes wait, so one is left whenever some slot does not wait |
| Runs.CountersMeanQueues | os/src/scheduler.c:164-173 | softblock_count is the total length of the semaphore queues and process_count the number of live slots |
| Effects.BootEffect | os/src/init.c:19-41 | after power-on exactly one process lives, of low priority and without parent, and has the processor; no queue holds anybody |
| Effects.SliceEffect | phase2/src/exception.c:56-60 | the end of a time slice, or a call that only asks, puts the running process at the end of the queue of its priority and gives the processor to the head of the high queue, else of the low one; nothing else changes |
| Effects.SliceKeepsIff | phase2/src/exception.c:56-60 | so it keeps the processor exactly when nobody of high priority is ready and it is of high priority or nobody of low priority is ready either |
| Effects.IgnoredEffect | phase2/src/exception.c:46-50 | an ignored interrupt changes nothing and the running process goes on; an idle processor takes the first ready process |
| Effects.YieldEffect | os/src/syscall.c:194-198 | a yielder ends up behind everybody ready of its priority while the head of the high queue, else of the low one, runs; with nobody ready it goes on |
| Effects.PEffect | os/src/semaphores.c:16-38 | PASSEREN, the wait for the clock and DOIO on an idle device: at zero the caller becomes the last waiter and somebody else runs; otherwise the longest waiter becomes ready, or with none the value drops by one, and the caller goes behind the ready processes of its priority |
| Effects.VEffect | os/src/semaphores.c:40-63 | VERHOGEN: at one the caller becomes the last waiter and somebody else runs; otherwise the longest waiter becomes ready, or with none the value rises by one, and the caller goes behind the ready processes of its priority |
| Effects.CompletionEffect | phase2/src/exception.c:112-117 | a device completion makes the longest waiter of that device ready and leaves all else alone; the running process goes on |
| Effects.ClockEffect | phase2/src/exception.c:66-72 | a clock tick makes all who wait for the clock ready in the order in which they came and leaves its semaphore at one; the running process goes on |
| Effects.CreateEffect | os/src/syscall.c:26-49 | with a free slot, the first one becomes a live process, the youngest child of the caller, with the priority and support structure given, last in the ready queue of that priority; every other process is as it was; without one nothing changes; the caller goes on |
| Effects.RefusedEffect | os/src/puod.c:12-28 | on a fault, a bad CREATEPROCESS argument, an unknown pid, a NULL semaphore, and DOIO on a busy device or on none: a caller with a support structure goes on and nothing changes; one without is dead afterwards with exactly its descendants, and somebody else runs |
| Effects.TerminateEffect | os/src/syscall.c:56-75 | TERMPROCESS kills exactly the process its pid names (0 names the caller) and its descendants: every queue keeps its survivors in order, every counter drops by those who left, and the caller, if it survives, goes behind the ready processes of its priority |
| Effects.CallerAfterTerminate | os/src/syscall.c:73-74 | after TERMPROCESS the caller runs or is ready exactly when it is not a descendant of the process named, nor that process itself |
| Effects.EveryEventHasItsEffect | phase2/src/exception.c:174-240 | every event that can happen, other than the DOIO panic, is one of those described |
| Nucleus.Nucleus.constructor | os/src/scheduler.c:123-133 | the tables, lists and counters after init represent the state with all pcbs free |
| Nucleus.Nucleus.InitPcbs | os/src/pcb.c:24-34 | the loop puts all slots on the free list, the last one first |
| Nucleus.Nucleus.InitAsl | os/src/asl.c:83-91 | the loop puts all descriptors on the free list and leaves the active list empty |
| Nucleus.Nucleus.FindSemd | os/src/asl.c:70-81 | the one active descriptor with that key, or NULL |
| Nucleus.Nucleus.AllocSemd | os/src/asl.c:29-45 | the first free descriptor moves to the active list with the key and an empty queue, or nothing changes |
| Nucleus.Nucleus.FreeSemd | os/src/asl.c:50-59 | fails exactly when the queue is not empty, else the descriptor moves to the free list |
| Nucleus.Nucleus.SemdFor | os/src/asl.c:104-107 | a descriptor whose queue, once the process is appended, represents it waiting on the key; NULL exactly when the key is inactive and no descriptor is free |
| Nucleus.Nucleus.InsertBlocked | os/src/asl.c:93-111 | returns 1, 2, 3 or 4 exactly in the four failing cases, and otherwise appends the process to the key's queue |
| Nucleus.Nucleus.OutBlocked | os/src/asl.c:113-125 | any waiting process leaves the queue its p_sem_add names, the rest keep their order, and a key with no waiter left is no longer active; else NULL and no change |
| Nucleus.Nucleus.HeadBlocked | os/src/asl.c:127-134 | the longest waiter of the key, or NULL |
| Nucleus.Nucleus.RemoveBlocked | os/src/asl.c:136-139 | the longest waiter leaves the key's queue, or NULL and no change |
| Nucleus.Nucleus.DescriptorLeft | os/src/asl.c:105-107 | an unblocked process always finds its key active or a descriptor free, so insert_blocked does not return 4 |
| Nucleus.Nucleus.AllocPcb | os/src/pcb.c:46-73 | the first free slot, cleared, with an empty child list, off the free list; or NULL and no change |
| Nucleus.Nucleus.FreePcb | os/src/pcb.c:36-44 | a slot on the free list stays as it is; any other leaves the list it is on, if any, is marked dead and becomes the first of the free list |
| Nucleus.Nucleus.InsertProcQ | os/src/pcb.c:89-95 | the process leaves whatever list it is on, if any, and becomes the last of the queue; no other list changes |
| Nucleus.Nucleus.OutProcQ | os/src/pcb.c:119-128 | the process leaves the queue if it is on it, else NULL and no change |
| Nucleus.Nucleus.RemoveProcQ | os/src/pcb.c:106-117 | the first process leaves the queue, or NULL and no change |
| Nucleus.Nucleus.InsertChild | os/src/pcb.c:137-149 | a process without parent becomes the youngest child, one with a parent stays where it is |
| Nucleus.Nucleus.OutChild | os/src/pcb.c:158-168 | the process leaves its parent's children, or NULL and no change for one without parent |
| Nucleus.Nucleus.RemoveChild | os/src/pcb.c:151-156 | the oldest child, detached, or NULL and no change |
| Nucleus.Nucleus.EnqueueProcess | os/src/scheduler.c:47-53 | the process leaves the list it is on, if any, and joins the tail of the ready queue its priority names |
| Nucleus.Nucleus.DequeueProcess | os/src/scheduler.c:55-61 | the process leaves that queue and is returned, or NULL if it is not there |
| Nucleus.Nucleus.FindPid | os/src/scheduler.c:63-69 | agrees with the lookup that Runs.FindProcessIsSearch characterises |
| Nucleus.Nucleus.SpawnProcess | os/src/scheduler.c:71-82 | the first free slot becomes a live process with the next pid at the tail of its ready queue, or NULL and no change |
| Nucleus.Nucleus.KillProcess | os/src/scheduler.c:88-110 | 1 and no change for NULL; otherwise 0, and the process, with or without children, is out of its parent's list, uncounted, off its queue and on the free list |
| Ties.KillOneSteps | os/src/scheduler.c:88-110 | of a process without children these steps leave the state with exactly that process killed |
| Nucleus.Nucleus.KillProgeny | os/src/scheduler.c:112-121 | terminates, returns 0, and the state is the one that the KilledExactly, KilledQueues and KilledForest lemmas describe |
| Nucleus.Nucleus.WaitOrDie | os/src/scheduler.c:164-173 | halt, wait or panic according to the two counters |
| Nucleus.Nucleus.ScheduleProcess | os/src/scheduler.c:175-206 | the relinked lists and pointers represent the scheduled state, the way out included |
| Nucleus.Nucleus.SemP | os/src/semaphores.c:16-38 | blocks at zero, else wakes the longest waiter, else decrements; panics only when the process already waits |
| Nucleus.Nucleus.SemV | os/src/semaphores.c:40-63 | blocks at one, else wakes the longest waiter, else increments, with the result pointer of each branch |
| Nucleus.Nucleus.SyscallPassUpOrDie | os/src/puod.c:12-28 | refines the step that Effects.RefusedEffect describes: with a support structure nothing changes and the caller goes on, without one its tree is dead |
| Nucleus.Nucleus.SyscallCreateProcess | os/src/syscall.c:26-49 | refines the step that Effects.CreateEffect describes, and for bad arguments Effects.RefusedEffect: spawn, support structure, youngest child of the caller |
| Nucleus.Nucleus.SyscallTerminateProcess | os/src/syscall.c:56-75 | refines the step that Effects.TerminateEffect describes for 0 and a live pid, and Effects.RefusedEffect for any other word |
| Nucleus.Nucleus.SyscallPasseren | os/src/syscall.c:81-87 | refines the step that Effects.PEffect describes, and for a NULL semaphore Effects.RefusedEffect |
| Nucleus.Nucleus.SyscallVerhogen | os/src/syscall.c:93-100 | refines the step that Effects.VEffect describes, and for a NULL semaphore Effects.RefusedEffect |
| Nucleus.Nucleus.SyscallDoIo | os/src/syscall.c:107-136 | refines the step that Effects.PEffect describes, or Effects.RefusedEffect for a busy device or none, up to the write of the device command |
| Nucleus.Nucleus.SyscallYield | os/src/syscall.c:194-198 | the caller is remembered as the yielder and gives up the processor |
| Nucleus.Nucleus.InterruptTimer | phase2/src/exception.c:66-72 | the while loop of Vs terminates in the state the recursive specification gives |
| Nucleus.Nucleus.InterruptDevice | phase2/src/exception.c:112-117 | the longest waiter of the device semaphore becomes ready and the running process goes on |
| Nucleus.Nucleus.ExceptionHandler | phase2/src/exception.c:198-240 | one event of the C program is one step of the state machine whose events the lemmas of module Effects describe one by one, and over which runs are proved sound |
| Nucleus.Nucleus.Start | os/src/init.c:19-41 | spawning the first process and scheduling it is the start of those runs |
| Conservation.EventBalanced | os/src/semaphores.c:16-63 | every event keeps, for every semaphore: value zero or one, completed Vs minus completed Ps equal to the change of the value, waiters at zero blocked in Ps and waiters at one in Vs |
| Conservation.KillBalanced | os/src/scheduler.c:99-105 | killing waiters does not disturb that balance |
| Conservation.PProjects | os/src/semaphores.c:16-38 | the kernel's P does to its semaphore what the protocols assume of P, and nothing to any other |
| Conservation.VProjects | os/src/semaphores.c:40-63 | the same of V |
| Conservation.EventMovesIdle | os/src/semaphores.c:16-63 | an event changes the value of a semaphore only if nobody waits there afterwards |
| Conservation.ValueStaysWhileBusy | os/src/semaphores.c:16-63 | in every run the value stays what it is as long as somebody waits |
| Conservation.ConservationInEveryRun | os/src/semaphores.c:16-63 | the same over every run of the whole machine, from any value in {0, 1} with nobody waiting |
| Fairness.EventAdvances | os/src/scheduler.c:175-198 | a waiting high-priority process runs, dies, or has one process fewer ahead of it with each selection from the high queue, and is never overtaken |
| Fairness.BoundedWait | os/src/scheduler.c:175-198 | a process at position k of the high queue sees at most k selections from it while it waits, in every run |
| Fairness.LowOnlyWithoutHigh | os/src/scheduler.c:185-193 | a low-priority process is dispatched from a queue only when no high-priority process is ready except one that just yielded |
| Fairness.YielderKeepsIffAlone | os/src/syscall.c:194-198 | a yielder is dispatched again at once exactly when both ready queues are empty |
| Turns.LowAdvances | os/src/scheduler.c:187-188 | whatever the event, a waiting low-priority process runs, dies, or has one process fewer ahead of it with each selection from the low queue, and is never overtaken |
| Turns.LowBoundedWait | os/src/scheduler.c:187-188 | a process at position k of the low queue sees at most k selections from it while it waits, in every run |
| SwapMutex.ActKeeps | phase3/src/pager.c:110-162 | every step of every U-proc keeps value plus holders equal to one, waiters only while the mutex is held, batons in step with the critical section |
| SwapMutex.MutualExclusion | phase3/src/pager.c:365-431 | for any number of U-procs and any interleaving, exits through I/O errors included: at most one U-proc is in the critical section, the mutex is free exactly when nobody holds it, and nobody waits for a free mutex |
| SwapMutex.OnlyHolderReleases | phase3/src/pager.c:140-144 | only the holder ever does a V on the mutex, and that V never blocks |
| SwapMutex.FaultEnters | phase3/src/pager.c:365 | a fault on a free mutex makes the U-proc its only holder; on a held one it becomes the last of those who wait |
| SwapMutex.ReleaseHandsOver | phase3/src/pager.c:430 | giving the mutex back makes the longest waiter its only holder, or leaves it free when nobody waits |
| SwapMutex.StepMoves | phase3/src/pager.c:365-431 | every step takes its U-proc to the next place in the handler, sets or clears its own baton only at the two places where the code does, and moves nobody else but the waiter that gets the mutex |
| SwapMutex.WaitersAdvance | phase3/src/pager.c:365-431 | nobody is overtaken: whatever the step, a waiting U-proc keeps its place, moves up by one, or gets the mutex from the front |
| SwapMutex.NeverStuck | phase3/src/pager.c:110-162 | after any interleaving, as long as one U-proc is not gone, some U-proc can take a step |
| Barrier.ActKeeps | os/src/semaphores.c:16-63 | every V of a U-proc and every P of the root keeps completed Vs equal to completed Ps plus the value, with who may wait at which value |
| Barrier.BarrierHolds | phase3/src/test.c:130-132 | for any number N of U-procs the root's N-th P completes only after all N Vs have completed |
| Barrier.NeverStuck | phase3/src/support.c:70-78 | until then some process can always take a step, although early Vs may block at value one |
| Barrier.EveryRunCompletes | phase3/src/test.c:130-132 | no interleaving has more than 2N steps, and after 2N of them every P and V is complete |
| Paging.IndexRoundTrip | phase3/src/pager.c:78-87 | the EntryHi stored at an index, read back through entryhi_to_vpn and vpn_to_index, gives that index, for every address space and the stack page too |
| Paging.IndexedIffMapped | phase3/src/pager.c:169-214 | an address has an index exactly when it lies in one of the 32 pages of a U-proc; every other one is a kernel panic |
| Paging.StackIndexIsShared | phase3/src/pager.c:169-207 | vpn_to_index gives two page numbers the stack's index; only entryhi_to_vpn rejects the wrong one |
| Paging.EntryHiInjective | phase3/src/pager.c:78-87 | EntryHi words of different pages or address spaces differ |
| Paging.LoadedIsOr | phase3/src/pager.c:340 | for a frame address that is a multiple of the page size, or-ing VALIDON and DIRTYON into it gives the word the model computes with |
| Paging.FaultShaped | phase3/src/pager.c:357-437 | a page fault keeps sizes, EntryHi words and the range of the static index, whoever owns the victim and however the transfers go |
| Paging.FreeFrom | phase3/src/pager.c:284-287 | the first unoccupied frame |
| Coherence.ValidIffOneFrame | phase3/src/pager.c:310-341 | in agreement, a page table entry is valid exactly when one frame holds the page, at that address |
| Coherence.FailedReadLosesPage | phase3/src/pager.c:408-415 | after a failed read into the frame of another U-proc, page tables, TLB and pool still agree and that U-proc's page is whatever the transfer left |
| Coherence.FaultCoherent | phase3/src/pager.c:357-437 | a page fault that takes an unoccupied or an own frame keeps page tables, TLB, pool and flash in agreement and every page's contents, failed transfers included |
| Coherence.FaultCoherentIff | phase3/src/pager.c:383-415 | however its transfers go, a page fault keeps the agreement exactly when the victim frame is unoccupied or belongs to the U-proc that faults, or a transfer fails |
| Coherence.FaultSparesIff | phase3/src/pager.c:383-415 | and it keeps both the agreement and the contents of every remaining page exactly when the frame is unoccupied or its own, the write fails, or the read fails and leaves the frame as it was |
| Coherence.ForeignVictimLeavesEntry | phase3/src/pager.c:387-390 | otherwise the owner's page table entry goes on mapping the frame, now with another U-proc's page |
| Words.FaultTableWords | phase3/src/pager.c:387 | of all words of all page tables a fault writes at most two, both of the U-proc that faults: the entry of the page becomes valid for the victim frame if no transfer fails, and the entry with the index of the evicted page becomes zero, whoever owns that page and however the transfers go |
| Words.FaultTlbWords | phase3/src/pager.c:390-426 | the same for every word of the TLB: the entry of the page, if present, and that of the evicted page of its owner, which takes what the owner's page table then says; no entry comes or goes |
| Words.VictimIsFirstFreeOrNext | phase3/src/pager.c:282-291 | the victim is the first unoccupied frame, or in a full pool the one after the last taken in turn |
| Words.FaultSlots | phase3/src/pager.c:322-329 | of the swap pool table only the victim's slot changes when no transfer fails; otherwise the U-proc exits and exactly its slots become unoccupied; the static index moves only in a full pool |
| Words.OwnPageForgotten | phase3/src/pager.c:387 | when the victim frame holds page k of another U-proc and page k of the U-proc that faults is resident elsewhere, that frame keeps the page and a TLB entry keeps mapping it, but its page table entry is zero and its contents fall back to the flash block |
| Words.ForgottenPageIsReread | phase3/src/pager.c:408-426 | a later fault on that page reads the flash block into a second frame beside the first |
| Words.RefillWords | phase3/src/pager.c:227-237 | a refill adds the page table's entry in place of whichever was at the random position and changes nothing else |
| Words.ExitSlots | phase3/src/pager.c:151-162 | an exit frees exactly the frames of that U-proc and changes no page table, TLB entry, frame or block |
| FlatMemory.StepFlatIff | phase3/src/pager.c:227-437 | a step keeps the agreement and does to the paged memory what it does to a flat one always, but for a page fault exactly under the condition of Coherence.FaultSparesIff |
| FlatMemory.FlatIffSparing | phase3/src/pager.c:227-437 | a run is a flat memory before and after each of its events exactly when all its page faults meet that condition |
| FlatMemory.LoadsSeeFlatMemory | phase3/src/pager.c:357-437 | in every such run from the start, with any accesses, TLB replacements, I/O errors and exits, a load returns what a flat memory would |
| FlatMemory.AloneIsDisciplined | phase3/src/pager.c:357-437 | runs of a single U-proc are of this kind, whatever it accesses: its faults take unoccupied or own frames only |
| FlatMemory.CoherentIffNothingStolen | phase3/src/pager.c:383-391 | page tables, TLB and pool agree throughout a run exactly when no fault completes with another U-proc's frame |
| FlatMemory.StolenFrameIsRead | phase3/src/pager.c:387-390 | after a fault takes a frame whose owner still has it in the TLB, the owner's next load returns the page of the U-proc that took it |
| FlatMemory.TwoUProcsMixTheirPages | phase3/src/pager.c:387-390 | a concrete run in which this happens |
| Protection.TextStartsClean | phase3/src/pager.c:76-87 | init_page_table leaves the dirty flag off exactly the pages it counts as .text, the stack excepted |
| Protection.StoresPassWhereLoadsDo | phase3/src/pager.c:337-341 | in every run of any number of U-procs, whoever takes whose frame, a store to any page goes through exactly when a load from there does, and no TLB modification exception arises |
| Protection.AnyPageIsOverwritten | phase3/src/pager.c:337-341 | for every page of every U-proc, .text pages included, a run that overwrites a word of it |
| Replacement.RoundRobin | phase3/src/pager.c:282-291 | for any pool size and any number of U-procs, while none terminates, the j-th load goes to frame j modulo the pool size |
| Replacement.FirstInFirstOut | phase3/src/pager.c:282-291 | so once the pool is full the victim is the frame loaded longest ago |
| Replacement.FaultTransfers | phase3/src/pager.c:395-415 | a fault changes frames and flash blocks exactly as the completed transfers recorded for it do, except that a failed write leaves any contents in the block of the victim's page and a failed read in the victim frame |
| Replacement.EvictionsGoBack | phase3/src/pager.c:377-409 | in every run, I/O errors, exits and taken frames included, a frame is written to the flash block it was last read from |
| Pager.Pager.InitSwapPoolTable | phase3/src/pager.c:48-52 | the loop leaves every frame unoccupied |
| Pager.Pager.InitPageTable | phase3/src/pager.c:60-93 | rejects exactly the invalid identifiers, traps exactly when the header cannot be read, and otherwise fills that page table and clears that baton and no other |
| Pager.Pager.SetSwapPoolBaton | phase3/src/pager.c:110-118 | panics exactly for an invalid identifier, else changes that baton only |
| Pager.Pager.CleanAfterUproc | phase3/src/pager.c:140-162 | does a V on the mutex exactly if the baton is set, and frees exactly the frames of that U-proc |
| Pager.Pager.MarkFramesAsUnoccupied | phase3/src/pager.c:151-156 | the loop frees exactly the frames of one U-proc |
| Pager.Pager.PickPage | phase3/src/pager.c:282-291 | the loop and the static index compute the specified frame |
| Pager.Pager.MarkPageNotValid | phase3/src/pager.c:310-313 | and-ing with !VALIDON, which is 0, clears the whole EntryLo word |
| Pager.Pager.UpdatePageTable | phase3/src/pager.c:337-341 | the bitwise or of frame address, VALIDON and DIRTYON |
| Pager.Pager.UpdateTlb | phase3/src/pager.c:245-263 | the entry is replaced only if the TLB has it |
| Pager.Pager.TlbRefillHandler | phase3/src/pager.c:227-237 | loads the page table entry into the TLB, or panics exactly for an address that is no page |
| Pager.Pager.WriteBack | phase3/src/pager.c:377-404 | whoever owns the occupied victim, the entry with its page's index becomes zero in the table of the U-proc that faults (Words.FaultTableWords), the TLB follows the owner's table, and the frame goes to its owner's flash block |
| Pager.Pager.SupportTlb | phase3/src/pager.c:357-437 | refines the specified page fault and traps on a TLB modification; panics exactly for an address that is no page and traps exactly when a transfer fails; the mutex taken is given back exactly once, at the end or on the way out, and the baton is clear after a served fault |
| Pager.Pager.Start | phase3/src/test.c:82-112 | the pager before the first access represents the state from which runs are considered |
| Numerals.PandosPow | os/src/util.c:11-19 | exponentiation, with every intermediate product in the range of int whenever the result is |
| Numerals.NoOverflow | os/src/util.c:17-18 | the intermediate products of a power that fits also fit, negative bases included |
| Numerals.ParseNumeral | os/src/util.c:39-52 | reading a numeral gives the number back, in every base from 2 to 36 |
| Numerals.TextRoundTrip | os/src/util.c:33-52 | the text of an integer, with its sign in base ten, determines it |
| Numerals.LeadingDigits | os/src/util.c:42-48 | what remains after dropping digits on the right is a prefix of the numeral |
| Nitoa.StrTarget.StrWriter | os/src/util.c:125-145 | keeps as many characters as fit the room and the length limit, where the terminator goes, and nothing else in the buffer changes |
| Nitoa.CountDigits | os/src/util.c:39-42 | the number of digits, as between two powers of the base |
| Nitoa.WriteDigits | os/src/util.c:44-49 | appends the numeral's leading digits as far as there is room |
| Nitoa.Itoa | os/src/util.c:21-54 | appends the text of the integer as far as there is room, and a terminator |
| Nitoa.NItoA | os/src/util.c:147-151 | the buffer holds the first len - 1 characters of the text and a terminator, nothing from len on is touched, the result is the number of characters kept, and an untruncated result reads back as the integer |

## Left out

- Nucleus: status and cause bits, timers, device registers, saved processor states and CPU-time accounting are not part of this model; `load_state`, `load_context`, `halt` and `panic` end a step and are its outcome.
- Nucleus: the comparison of a pid with `NULL` in TERMPROCESS (os/src/syscall.c:61) depends on a header that is not part of this model; terminating oneself (pid 0) and terminating any other word are modelled as the code's two branches below that line.
- Nucleus: GETTIME, GETSUPPORTPTR and GETPROCESSID only write a register of the caller, so they are one event that re-enqueues it.
- Nucleus.Nucleus.ExceptionHandler: a device completion for which nobody waits is not among its events.
- Nucleus.Nucleus.KillProcess: for a live process or NULL; a dead slot is not modelled.
- Nucleus.Nucleus.InterruptDevice: only for a device whose semaphore has a waiter and is not at one; after a waiter is killed the code does not establish more.
- Nucleus.Nucleus.SyscallDoIo: the write of the device command after P is not part of this model.
- Nucleus: semaphore words are unbounded integers; `--*sem_addr` and `++*sem_addr` on words at the ends of the int range are not modelled.
- Nucleus: MAX_PROC is any number from 1 to 31 and MAX_PROC_BITS is 5.
- Nucleus: `NULL` arguments of the queue and tree procedures, which return at once, are modelled for `insert_blocked`, `out_blocked`, `head_blocked`, `remove_blocked`, `kill_process`, P and V, and left out for the others.
- Nucleus.Nucleus.InsertChild: for a parent whose list of children has been initialised, since the code follows its pointers; that the forest stays acyclic is proved for freshly spawned children (Kernel.AdoptKeeps), because the code does not look for cycles.
- Nucleus: procedures whose proof has several phases are split into several methods, such as Reap and LeaveQueue for `kill_process`; the order in which they change lists and counters is that of the code.
- Lists: list cells are a map from addresses to pairs of pointers rather than fields of the table entries.
- SwapMutex, Barrier: the other processes of the machine and the kill of a U-proc from outside while it waits are not part of these two protocols.
- Pager: that frames of an exiting U-proc are marked after the mutex is released (phase3/src/pager.c:158-162) is not modelled as a race with another U-proc's fault; an exit is one step.
- Pager: coherence of the pages of different U-procs when one takes another's frame is not claimed, since it does not hold; a U-proc's identifier is not used again after it exits.
- Pager.Pager.SupportTlb: the P on the mutex is taken to have completed; waiting for it, and other U-procs in between, are SwapMutex.
- Pager: the contents of flash blocks and frames are sequences of words; drivers and disabling of interrupts around table updates are not part of this model.
- Nitoa.Itoa: only with the string writer, for base 2 to 36, and not for negative numbers in a base other than ten, where the code counts the digits of the signed value and takes them from the unsigned one.
- Nitoa.NItoA: not for the least int, whose negation overflows, and not for an empty buffer, where the unsigned subtraction in `str_writer` wraps around.
- Format strings (`__pandos_printf`), `__bin`, the memory log, serial output, terminal and printer system calls, and the allocation of support structures in the test program: plumbing with little to prove.
