# PandOS+ kernel and pager: a verified model

PandOS+ is a small kernel for the uMPS3 machine.  Its state is a handful of intrusive circular
lists, a process tree, a sorted list of process identifiers, two counters and the CPU clock; on
top of it a demand pager gives each user process 32 pages of private memory.  This project models
both and proves what they are meant to guarantee.

**The kernel, from its links up.**

- `Lists.dfy` has the linked structure of `listx.h`.  A `RingFamily` is every list threaded
  through one link field, and each operation on it rewrites `next` and `prev` in place so that
  exactly one list changes.  `ProcQueues.dfy`, `Asl.dfy` and `PidList.dfy` build the process
  queues, the semaphore list and the identifier list on it, loops and early exits included.
- `Kernel.dfy` has one method for each routine of the kernel, over those lists.  Every method is
  proved to do what a function on plain values (`KernelState.dfy`) says.  `_killProcess`, with its
  recursion inside a loop, is proved to do what removing p and all its descendants at once would.
- `Invariant.dfy`, `Creation.dfy`, `Destruction.dfy` and `Runs.dfy` prove about those values that
  every kernel entry keeps one invariant, and draw the conclusions: every PCB in exactly one place,
  exact counters, one tree, and HALT, WAIT and PANIC reached for the right reason and no other.
- `Effects.dfy` says of every entry, without those functions, what it does to each queue, to the tree
  and to the processor, and `Kernel.Handle` promises it of the linked lists.
- `Semaphores.dfy`, `Fairness.dfy`, `CpuTime.dfy` and `Identifiers.dfy` follow one semaphore, one
  ready process, the accounts of CPU time, and the counter of process identifiers over whole runs.

**The pager.**

- `Pager.dfy` has the routines of `vmSupport.c` as methods that update the swap pool, the page
  tables and the TLB.
- `Paging.dfy` takes one page fault apart into single actions (choose, invalidate, write back word
  by word, read in word by word, describe, map) and lets loads, stores, TLB refills, exits and new
  programs of other processes happen between any two of them.  The result behaves like flat memory
  private to each process; and the actions in a row add up to the methods of `Pager.dfy`.  A refill
  may be for any page number at all; `Paging.RefillKeepsIff` says exactly which refills the pager
  survives, and `StaleEntries.dfy` what happens with the others.  `Victims.dfy` has the order in
  which frames are replaced.
- `SwapMutex.dfy` has the mutex behind the P and V wrappers, preempted anywhere, and the release
  protocol of a dying process.  `PagedSystem.dfy` puts it together with the pager: mutual exclusion,
  which `Paging.dfy` takes for granted, is what the mutex provides.
- `Traps.dfy` has the loop over the device mutexes, `Join.dfy` the end of `test`, `SupportPool.dfy`
  the list of free support structures.  The first two and `SwapMutex.dfy` use the lone semaphore of
  `BinarySemaphore.dfy`.
- `Names.dfy`, `KernelMutex.dfy` and `KernelJoin.dfy` put those protocols on the kernel: every run of
  kernel entries of all kinds, interleaved with what the programs do between their system calls, is
  for the semaphore in question a run of `SwapMutex.dfy`, or of `Join.dfy`.

The sizes of the tables (MAXPROC, POOLSIZE, the TLB), the number of processes of `test` and the
addresses of semaphores are arbitrary.

## Conventions

- A PCB, a semaphore descriptor or a frame is its index in its table, and `container_of` goes from
  a link to that index.  A semaphore is known by its address.
- One kernel entry is one step: the kernel runs with interrupts disabled.  LDST, WAIT, HALT and
  PANIC end the step.
- User semaphores start at 0 or 1 and change through P and V only; the interval timer's and the
  devices' semaphores start at 0 and are used through DOIO and CLOCKWAIT.
- A device completes an operation only while a process is blocked on its semaphore, and the
  processor local timer interrupts a running process only.  A local timer interrupt that is already
  pending when the scheduler comes to its WAIT with all lines enabled (phase2/scheduler.c:46) is
  excluded: phase2/interrupts.c:29 dereferences curr_process, which is NULL then.
- The readings of the time of day clock are an arbitrary sequence, one pair for each use.
- Where P and V of lib/utilities.c are concerned a process is known by its identifier, which stands
  for its ASID; each ASID is given to one process only.
- Counters and times are mathematical integers.  Counters are shown equal to the size of a set, so
  they stay between 0 and MAXPROC and do not wrap.  Process identifiers do wrap, at 2^32.
- A flash operation succeeds.  Its data moves word by word in ascending order.
- The page number in EntryHi is bits 12 to 29 of the address (GETPAGENO and VPNSHIFT,
  lib/pandos_const.h:100-102), and the TLB matches on all 20 bits of the page number.

## Where the code falls short of its intent

- `TLBRefillHandler` (phase3/vmSupport.c:203-214) neither tests the index it computes nor whether the
  entry there is for the page the program asked for.  A program can thereby put a second copy of an
  entry into the TLB: with an alias of one of its pages (0x8001F, or a page from 0xC0000 on), whose
  refill inserts the entry of another page number; or with a page whose index lies behind its table,
  where the refill takes whatever memory holds.  Support structures are contiguous and 572 bytes
  long (140 of STATESIZE for each of the two states), so index 143 + i reads entry i of the page table
  two structures on; `_initFreeSupportStack` hands the structures out from the last one down, so that
  is the table of the process started two places earlier, of process 1 for process 3.  `_updateTLB`
  later invalidates one copy only.  `Paging.RefillKeepsIff` has the exact guard under which a refill is
  harmless, whatever memory holds: the index lies within the table, and no other slot matches the entry
  there.  `StaleEntries.AliasTwice` and `StaleEntries.StaleCopy` are runs without that guard, the
  latter, for any two processes and any number of frames up to 32, down to a process that reads another
  one's word.  Transparency is proved for the runs whose refills meet the guard; programs that keep to
  their 32 pages always do (`Paging.OwnPagesRun`).
- `_generatePid` can hand out the value that marks a free PCB, 0xFFFFFFFF.  `Creation.CreateKeepsIff`
  proves that the kernel's invariant survives a process creation exactly when this does not happen,
  and `Identifiers.CreateAfterRun` that it happens exactly when a PCB is free and curr_pid has come to
  that value; up to then no identifier is ever reused.  `Identifiers.ReservedReached` is a run that
  gets there.
- `_allocate` (phase3/initProc.c:15-21) reads the head of the free support structures twice, in code
  that can be preempted.  If a terminating process gives its structure back in between, one structure
  is handed out and another one unlinked, and the next start hands out the first again:
  `SupportPool.AllocateSoundIff` and `SupportPool.HandedOutTwice`.
- The comment on `outBlocked` (phase1/asl.c:164-179) promises NULL for a PCB that is not on the queue
  its `p_semAdd` names; the code dereferences that NULL.  Its caller `_killProcess` never gets there,
  since a set `p_semAdd` means membership: `Invariant.NamedIsQueued`.

## Model

| member | source | states |
|---|---|---|
| Lists.RingFamily.constructor | lib/listx.h:92-95 | INIT_LIST_HEAD on every sentinel: all lists of the family are empty, well-formed rings |
| Lists.RingFamily.ListAddBetween | lib/listx.h:104-109 | four pointer writes put the record between two neighbours of one list and leave every other list through the same link intact |
| Lists.RingFamily.ListAdd | lib/listx.h:119-121 | the record becomes the first of its list, no other list changes |
| Lists.RingFamily.ListAddTail | lib/listx.h:131-133 | the record becomes the last of its list, no other list changes |
| Lists.RingFamily.ListDel | lib/listx.h:143-157 | the record leaves its list, the others keep their order, no other list changes, and the record is then on none |
| Lists.RingFamily.ListEmpty | lib/listx.h:178-180 | comparing two pointers tells whether the list is empty |
| Lists.RingFamily.NextEntry | lib/listx.h:248-250 | the iteration meets the entries in order and ends at the sentinel |
| Lists.RingFamily.PrevEntry | lib/listx.h:259-261 | the backward iteration meets the entries in reverse order and ends at the sentinel |
| ProcQueues.HeadProcQ | phase1/pcb.c:141-148 | the first process of the queue, NULL exactly for the empty queue |
| ProcQueues.RemoveProcQ | phase1/pcb.c:155-164 | takes the first process off and nothing else; after it the process is on no queue |
| ProcQueues.OutProcQ | phase1/pcb.c:172-183 | takes out the given process if it is in this queue, keeping the order of the others, else changes nothing |
| PidList.PidTable.GetProcessByPid | phase1/pcb.c:250-259 | the search that stops at the first greater pid finds the process with the pid, and NULL means nobody has it |
| PidList.PidTable.GeneratePid | phase1/pcb.c:38-54 | with or without the greatest-pid shortcut the result is the cyclically first unused pid from curr_pid; the collision loop ends within one test more than there are processes |
| PidList.PidTable.AddPid | phase1/pcb.c:71-89 | the backward search inserts where ordered insertion does |
| PidList.PidTable.constructor | phase1/pcb.c:12-21 | no pid in use, every PCB marked free, counting from 1 |
| Pids.FirstFreeIsFirst | phase1/pcb.c:46-53 | the pid generated is unused, all those passed over are in use, wrap-around included |
| Pids.InsertSorted | phase1/pcb.c:75-88 | insertion keeps the pid list strictly sorted |
| Pids.ReservedIff | phase1/pcb.c:40-53 | the reserved all-ones pid is handed out iff every pid from curr_pid up to it is taken |
| SemaphoreList.Asl.constructor | phase1/asl.c:114-122 | all descriptors free, the map from semaphores to queues empty |
| SemaphoreList.Asl.PeekActive | phase1/asl.c:60-72 | search with early exit in the sorted list agrees with lookup in the map from keys to queues |
| SemaphoreList.Asl.AddActive | phase1/asl.c:36-53 | the descriptor enters before the first greater key |
| SemaphoreList.Asl.InitSemaphore | phase1/asl.c:79-92 | a free descriptor takes the key at its place in the order; NULL iff all are in use |
| SemaphoreList.Asl.UpdateActive | phase1/asl.c:99-107 | a descriptor goes back to the free list exactly when its queue is empty, so the map keeps non-empty queues only |
| SemaphoreList.Asl.InsertBlocked | phase1/asl.c:131-145 | the process joins the end of the queue of its key; fails, changing nothing, iff the key has no descriptor and none is free |
| SemaphoreList.Asl.RemoveBlocked | phase1/asl.c:153-162 | takes the first waiter of the key, dropping the key with its last waiter; NULL iff nobody waits |
| SemaphoreList.Asl.OutBlocked | phase1/asl.c:170-179 | takes the process out of the queue its p_semAdd names, keeping the order of the others; NULL, and no change, if that semaphore has no descriptor |
| SemaphoreList.Asl.HeadBlocked | phase1/asl.c:186-191 | the first waiter of the key, NULL iff nobody waits |
| Invariant.DescriptorLeft | phase1/asl.c:205-231 | while a process runs fewer descriptors than PCBs are active: the PANIC for want of one is unreachable |
| KernelImpl.Kernel.constructor | phase1/pcb.c:12-21 | initPcbs, initASL and the empty queues of main give the blank kernel state |
| KernelImpl.Kernel.SetProcessReady | phase2/scheduler.c:88-92 | a live process joins the queue of its priority, a dead one does not |
| KernelImpl.Kernel.PickReady | phase2/scheduler.c:12-34 | the head of the high queue, unless it is the process to skip and a low one is ready; else the head of the low queue |
| KernelImpl.Kernel.Scheduler | phase2/scheduler.c:40-68 | over the lists, what the scheduling function says |
| KernelImpl.Kernel.SemP | phase1/asl.c:201-218 | over the lists, blocks, hands over or clears the cell as the value function says |
| KernelImpl.Kernel.SemV | phase1/asl.c:227-244 | over the lists, blocks, hands over or sets the cell as the value function says |
| KernelImpl.Kernel.DoIO | phase2/exceptions.c:112-123 | counts the caller as soft-blocked, then P on the device's semaphore |
| KernelImpl.Kernel.YieldCpu | phase2/exceptions.c:170-178 | the caller goes to the end of its queue and is marked to be skipped |
| KernelImpl.Kernel.GetCpuTime | phase2/exceptions.c:128-131 | returns the time of the caller with the interval up to now added, and keeps it as its p_time |
| KernelImpl.Kernel.PltHandler | phase2/interrupts.c:26-35 | the running process goes to the end of its queue, unmarked |
| KernelImpl.Kernel.InterruptExit | phase2/interrupts.c:11-21 | back to the interrupted process, or to the scheduler if there was none |
| KernelImpl.Kernel.DeviceInterrupt | phase2/interrupts.c:68-77 | over the lists, what the value function says: the first waiter of the device becomes ready and the count falls by one (Effects.DeviceDoes) |
| KernelImpl.Kernel.DrainIt | phase2/interrupts.c:43-46 | the loop empties the queue of the timer |
| KernelImpl.Kernel.ItHandler | phase2/interrupts.c:41-51 | over the lists, what the value function says: all who wait for the timer become ready in order (Effects.TimerDoes) |
| KernelImpl.Kernel.InitPcb | phase1/pcb.c:60-67 | resets links, parent, semaphore and support structure, disturbing no list |
| KernelImpl.Kernel.PreparePcb | phase1/pcb.c:60-68 | all of _initPcb and _addPid: the fields, p_time and the pid, and the PCB on the pid list |
| KernelImpl.Kernel.AllocPcb | phase1/pcb.c:95-108 | takes the first free PCB, reset, named and listed; NULL and no change iff none is free |
| KernelImpl.Kernel.InsertChild | phase1/pcb.c:199-202 | last child of its parent, and points back at it |
| KernelImpl.Kernel.CreateProcess | phase2/exceptions.c:21-42 | over the lists, what the creation function says; returns the pid, or -1 iff no PCB is free |
| KernelImpl.Kernel.RemoveChild | phase1/pcb.c:218-228 | takes the first child out of the tree, NULL iff there is none |
| KernelImpl.Kernel.OutChild | phase1/pcb.c:235-243 | takes the process out of its parent's children, if it has a parent |
| KernelImpl.Kernel.FreePcb | phase1/pcb.c:27-31 | to the front of the free list, off the pid list, marked free |
| KernelImpl.Kernel.KillProcess | phase2/exceptions.c:48-70 | the recursive destruction equals removing p and all its descendants from every queue, tree link, list and counter at once |
| KernelImpl.Kernel.TermProcess | phase2/exceptions.c:75-91 | over the lists, what the value function says: the caller, or the process with the pid, dies with its descendants, and the scheduler runs iff the caller died (Effects.TermDoes) |
| KernelImpl.Kernel.TrapHandler | phase2/exceptions.c:183-193 | over the lists, what the value function says: without support structure the process dies with its descendants, otherwise no kernel structure changes (Effects.ExceptionDoes) |
| KernelImpl.Kernel.Handle | phase2/interrupts.c:136-168 | any kernel entry over the linked lists is the step of the value model, does to every queue, to the tree and to the processor what Effects says, and keeps the invariant; timer_start and every p_time become what the accounts of CpuTime make of its uses of the clock |
| KernelImpl.CallsAreOps | phase2/interrupts.c:138 | the uses of the clock collected routine by routine are those the accounts go by |
| KernelImpl.Kernel.Start | phase2/initial.c:146-163 | main reaches the initial state of the value model, with the accounts open at the time of the first dispatch |
| Effects.EveryEntry | phase2/interrupts.c:136-168 | for every kernel entry, from the lists before and after it: who joins which queue in which order, who leaves one, who dies, who runs next, and that nothing else moves; the rows below say it entry by entry |
| Effects.TimerDoes | phase2/interrupts.c:41-51 | nobody waits for the timer any longer; those who did are behind the others on the ready queues of their priorities, in order; softblocked_count falls by their number; the interrupted process goes on, or the head of a queue runs |
| Effects.DeviceDoes | phase2/interrupts.c:68-77 | the first waiter of the device leaves its queue for the ready queue of its priority, softblocked_count falls by one, nobody else moves |
| Effects.SliceDoes | phase2/interrupts.c:26-35 | the running process is last on the queue of its priority, and the head of the high queue runs, or of the low one if that is empty |
| Effects.CreateDoes | phase2/exceptions.c:21-42 | the first free PCB becomes the last child of the caller, with the priority and support structure given, an unused pid, and the last place on its ready queue; without a free PCB nothing changes |
| Effects.TermDoes | phase2/exceptions.c:75-91 | of 0, exactly the caller and its descendants die; of a pid in use, exactly its holder and the holder's; of any other, nothing changes; the machine halts when nobody is left |
| Effects.ExceptionDoes | phase2/exceptions.c:183-193 | without support structure exactly the process and its descendants die; with one nothing changes |
| Effects.PDoes | phase1/asl.c:201-218 | at 0 the caller is last on the queue of the semaphore and the processor is handed over; else the first waiter becomes ready, or the cell becomes 0, and the caller goes on |
| Effects.VDoes | phase1/asl.c:227-244 | the same with 1 for 0 |
| Effects.WaitDoes | phase2/exceptions.c:112-139 | DOIO and CLOCKWAIT: the caller is last on the queue of the device, or of the timer, softblocked_count is one higher, and the processor is handed over |
| Effects.YieldDoes | phase2/exceptions.c:170-178 | as at the end of a time slice, but the caller is passed over if it is the head of the high queue and a low-priority process is ready |
| Invariant.ScheduleKeeps | phase2/scheduler.c:40-68 | after the scheduler the invariant holds, whatever the verdict |
| Invariant.SetReadyKeeps | phase2/scheduler.c:88-92 | the process made ready is alive, joins the queue of its priority, and the invariant holds |
| Invariant.InsertBlockedKeeps | phase1/asl.c:131-145 | blocking the running process keeps the invariant with the soft-blocked count adjusted |
| Invariant.WakeKeeps | phase1/asl.c:209-212 | releasing the first waiter keeps the invariant with the soft-blocked count adjusted |
| Invariant.NamedIsQueued | phase2/exceptions.c:54-59 | p_semAdd names a semaphore exactly when the process is in that queue, so outBlocked of a process with p_semAdd finds it |
| Creation.GeneratedPidFresh | phase1/pcb.c:38-54 | the pid of a new process is no live process's |
| Creation.CreateKeeps | phase2/exceptions.c:21-42 | process creation keeps the invariant: places, tree, pid list, count |
| Creation.CreateKeepsIff | phase2/exceptions.c:21-42 | ... if and only if a PCB is missing or the pid is not the reserved one |
| Destruction.KillKeeps | phase2/exceptions.c:48-70 | a kill keeps the invariant, and what stays alive is exactly what was alive less the victims |
| Destruction.DoomedAreDescendants | phase2/exceptions.c:64-69 | the victims are exactly the live processes from which parent pointers lead to p |
| Destruction.Survivors | phase2/exceptions.c:48-70 | every survivor keeps pid, parent, semaphore and queue membership; process_count falls by the number of victims |
| Destruction.SurvivorsOrder | phase2/exceptions.c:48-70 | survivors keep their relative order in every ready queue, semaphore queue and child list |
| Destruction.NoOrphan | phase2/exceptions.c:34-39 | every live process descends from the first one, and parent pointers agree with child lists |
| Destruction.CountZeroIffFirst | phase2/exceptions.c:51 | process_count reaches 0 exactly when the first process is killed |
| Runs.DoIOKeeps | phase2/exceptions.c:112-139 | DOIO and CLOCKWAIT always block, so raising the count beforehand is right |
| Runs.DeviceKeeps | phase2/interrupts.c:68-77 | a device completion keeps the invariant |
| Runs.TimerKeeps | phase2/interrupts.c:41-51 | the interval timer keeps the invariant |
| Runs.TermKeeps | phase2/exceptions.c:75-91 | TERMPROCESS keeps the invariant, also when the victim is an ancestor of the caller |
| Runs.StepKeeps | phase2/interrupts.c:136-168 | every kernel entry keeps the invariant |
| Identifiers.StepAscends | phase1/pcb.c:38-54 | every kernel entry keeps all pids in use below curr_pid, which does not wrap |
| Identifiers.StepNames | phase1/pcb.c:38-54 | who lives through a kernel entry keeps its identifier, and a new process gets the counter, which passes it |
| Identifiers.CreateAfterRun | phase1/pcb.c:38-54 | after every run the next pid is curr_pid itself, and creating the process keeps the invariant iff no PCB is free or curr_pid is not the reserved value |
| Identifiers.ReservedReached | phase1/pcb.c:38-54 | a run after which the next creation hands out the reserved value and breaks the invariant, with any two PCBs or more |
| Runs.InitValid | phase2/initial.c:134-163 | the machine starts in the invariant with the first process running |
| Runs.CorePlacedOnce | phase1/pcb.c:95-183 | a PCB is in exactly one place, and p_semAdd names a semaphore exactly when it is queued there |
| Runs.EveryRun | phase2/scheduler.c:40-53 | after every run: each PCB in exactly one place, both counters exact, no PANIC for want of a descriptor, and halted, waiting or deadlocked only for the right reason |
| Runs.ScheduleVerdict | phase2/scheduler.c:40-53 | HALT iff nothing is alive; WAIT iff something is, nothing is ready and somebody waits for the timer or a device; PANIC iff every live process waits on an ordinary semaphore |
| BinarySemaphore.CallConserves | phase1/asl.c:201-244 | one P or V moves completed V minus completed P by the change of the cell and keeps all waiters on one side |
| BinarySemaphore.CallKeepsOrder | phase1/asl.c:201-244 | waiters who remain keep their order |
| Semaphores.OwnStep | phase1/asl.c:201-244 | in the whole kernel, P and V act on their semaphore as the two-sided binary semaphore does |
| Semaphores.OtherStep | phase2/exceptions.c:48-70 | every other kernel entry leaves a semaphore alone, except that the killed leave its queue |
| Names.OwnLone | phase1/asl.c:201-244 | with waiters known by identifier: P and V of the kernel are the calls of the lone semaphore |
| Names.OtherLone | phase2/exceptions.c:48-70 | ... and every other entry leaves it alone, as long as it kills nobody who waits there |
| Semaphores.Conservation | phase1/asl.c:201-244 | over every run, with kills in between, completed V minus completed P equals the change of the value, the value stays 0 or 1, and waiters are all in P at 0 and all in V at 1 |
| Semaphores.ConservationFromInit | phase1/asl.c:201-244 | the same from the start of the machine |
| Semaphores.NoOvertaking | phase1/asl.c:209-212 | no entry releases a waiter ahead of one before it in the queue |
| Semaphores.FirstComeFirstReleased | phase1/asl.c:209-212 | the same over every run, kills included |
| Semaphores.ReleasedIsReady | phase1/asl.c:209-212 | the waiter released is the first, and it joins the ready queue of its priority |
| Fairness.HighMoves | phase2/scheduler.c:21-25 | a waiting high-priority process moves up with every dispatch, or is the one dispatched |
| Fairness.LowMoves | phase2/scheduler.c:27-30 | a waiting low-priority process moves up with every low-priority dispatch, and never back |
| Fairness.BoundedBypass | phase2/scheduler.c:12-34 | over every run, a process at index k is passed over by at most k dispatches (of low priority, for a low one) |
| Fairness.YieldHandsOver | phase2/exceptions.c:170-178 | after a yield the yielder runs next iff nobody else is ready, and otherwise exactly the head of the first non-empty queue does |
| CpuTime.CpuClock.Flush | phase2/initial.c:81-91 | the time since the last call, restarting from the second reading of the clock |
| CpuTime.CpuClock.UpdateProcessCPUTime | phase2/initial.c:96-98 | charges the current process and nobody else |
| CpuTime.BooksGrow | phase2/initial.c:81-98 | the accounts of a longer history of the clock are those of its beginning, taken on by the rest |
| CpuTime.BooksOpen | phase2/initial.c:158-161 | at the first dispatch nothing is charged, and time runs from there |
| CpuTime.StepFair | phase2/interrupts.c:11-35 | each kernel entry keeps the accounts fair, and charges nobody more than the time that passes |
| CpuTime.StepCharges | phase2/initial.c:81-98 | each entry charges exactly: the process it stops, or that asks for its time, for all the time since timer_start, nobody else; what an interrupt handler takes is charged to nobody |
| CpuTime.RunFair | phase2/scheduler.c:63 | the same over every run |
| CpuTime.ChargedAtMostElapsed | phase2/exceptions.c:128-131 | between two moments of its life, say two GETTIME calls, p_time grows by at most the time that passed |
| CpuTime.NeverOvercharged | phase2/initial.c:81-98 | all time ever charged is at most the time since the start, and a process's p_time at most its age |
| Devices.OneSemaphoreEach | phase2/initial.c:42-65 | command fields and device semaphores correspond one to one |
| Pager.IndexRoundTrip | phase3/vmSupport.c:36-41 | the index computed from an entry's page number is the entry's; the page numbers of user space with an index in the table are the 32 of the program and its aliases, and an alias finds the entry of another page |
| Pager.ScanFindsFirstFree | phase3/vmSupport.c:52-57 | the search stops at the cyclically first free frame, or after a full turn where it began |
| Pager.FrameChoice | phase3/vmSupport.c:47-66 | a free frame is chosen if there is one, otherwise the one where the search begins |
| Victims.RoundRobin | phase3/vmSupport.c:59-65 | over every run of the pager on which no frame becomes free, at most POOLSIZE frames chosen one after another are all different, and POOLSIZE of them are all frames |
| Pager.SwapPool.InitSwapStructs | phase3/vmSupport.c:193-197 | every frame free |
| Pager.SwapPool.GetFrame | phase3/vmSupport.c:47-66 | returns the frame the choice function says and leaves the next search to begin just behind it |
| Pager.SwapPool.UpdateTlb | phase3/vmSupport.c:72-83 | the matching TLB entry, if any, becomes the page table entry |
| Pager.SwapPool.StorePage | phase3/vmSupport.c:126-135 | the entry of the frame's page is invalid, in the table and the TLB, and the page is on flash |
| Pager.SwapPool.LoadPage | phase3/vmSupport.c:142-159 | the page is in the frame, described and mapped, with its D bit as before |
| Pager.SwapPool.TlbInvalidHandler | phase3/vmSupport.c:165-183 | between P and V: frame chosen, old page out if there is one, missing page in |
| Pager.SwapPool.TlbRefillHandler | phase3/vmSupport.c:203-214 | the entry at the computed index enters the TLB, or what lies behind the table |
| Pager.SwapPool.FreeFrames | phase3/vmSupport.c:279-291 | exactly the frames of the process are free afterwards in addition |
| Pager.SwapPool.InitPageTable | phase3/vmSupport.c:244-262 | 32 invalid entries; entry i < 31 has no D bit exactly if page i lies wholly within the text size of the header, the stack entry has it |
| Paging.RefillKeepsIff | phase3/vmSupport.c:203-214 | a refill keeps the correspondence of tables, frames and TLB, whatever lies behind the table, iff its index is within the table and no other slot matches the entry there: a guard that can be tested before the access |
| Paging.InvKept | phase3/vmSupport.c:126-183 | every action of the pager and every access of any process, to any page number, keeps the correspondence of tables, frames, TLB and backing store, whatever lies behind the tables, iff it is not a refill without that guard |
| Paging.OwnPagesRun | phase3/vmSupport.c:244-262 | programs that keep to their 32 pages never make one |
| StaleEntries.AliasTwice | phase3/vmSupport.c:203-214 | two refills in a row for an alias, into different slots, leave two copies of one entry |
| StaleEntries.StaleCopy | phase3/vmSupport.c:72-83 | for any two processes, any number of frames up to 32 and any start of the search: a refill for an alias, or behind the table, after which the TLB has two copies of an entry; then one process touches its pages until all frames have been chosen once, and the other loads a word that is not its own |
| Paging.StoreSimulates | phase3/vmSupport.c:126-135 | a store through the TLB, at any point of another process's page fault, changes the one word of the one page of its process |
| Paging.ActSimulates | phase3/vmSupport.c:126-183 | no single action of a page fault or of freeFrames changes what a page of a live process holds |
| Paging.SpawnSimulates | phase3/vmSupport.c:244-262 | a new process starts with the pages of its program and disturbs nobody |
| Paging.StepSimulates | phase3/vmSupport.c:126-214 | each step of the paged machine with a sound refill, if it is one, is a step of flat private memory |
| Paging.Transparent | phase3/vmSupport.c:126-214 | every run with sound refills, with every value loaded, is a run of flat private memory, and ends with the same contents |
| Paging.TransparentFromBoot | phase3/vmSupport.c:189-198 | the same from the state initSwapStructs leaves |
| Paging.Bijection | phase3/vmSupport.c:142-159 | in the states of such runs, between faults, valid entries and occupied frames correspond one to one, and TLB entries are current and unique |
| Paging.GoneLeavesNothing | phase3/vmSupport.c:279-291 | after freeFrames no frame belongs to the process |
| Paging.NeverStuck | phase3/vmSupport.c:165-214 | the holder of the pool can always act, and an access to any page number is carried out, refilled or faults |
| Paging.FaultInTable | phase3/vmSupport.c:169-170 | while refills are sound, only pages of the program fault, so the handler's index is within its table |
| Paging.WritableKept | phase3/vmSupport.c:153-157 | no action changes the D bit of an entry, and a process whose frames are released does not come back |
| Paging.TextUnchanged | phase3/vmSupport.c:255-256 | a page without D bit holds what it held for as long as its process lives, over every run with sound refills |
| Paging.TextProtected | phase3/vmSupport.c:250-261 | over every run of a new process: its stores to a page are carried out, once they get through the TLB, exactly if the page is not text, and text stays what the program had |
| Paging.FaultServed | phase3/vmSupport.c:165-183 | a page fault, undisturbed, leads to a state in which the access goes through, with all memory as it was |
| Paging.HandlerIsProtocol | phase3/vmSupport.c:165-183 | in every state of sound runs in which a fault begins, the frame chosen is free or properly described, and the single actions, undisturbed, add up to the handler |
| Paging.SweepIsProtocol | phase3/vmSupport.c:279-291 | those of freeFrames add up to its loop |
| SwapMutex.VNeverBlocks | lib/utilities.c:27-30 | the V of the wrapper does not block, and hands the mutex to the first waiter |
| SwapMutex.RunKeeps | lib/utilities.c:18-30 | the protocol of the wrappers and of the trap path keeps its invariant over every interleaving |
| SwapMutex.MutexHolds | phase3/vmSupport.c:267-273 | at most one process is inside; user_asid names only the holder; the trap path releases the pool iff the dying process holds it, and freeFrames never finds its own process as owner |
| SwapMutex.FreeAtRest | phase3/sysSupport.c:172-183 | once everybody is out the mutex is free and unowned |
| SwapMutex.NoDeadlock | lib/utilities.c:18-30 | as long as somebody wants the mutex, the holder or the asker can go on |
| SwapMutex.SweepsBeforeDone | phase3/sysSupport.c:34-38 | whatever the way out and whether or not it released the pool, a process holds the pool for freeFrames before it is through |
| SwapMutex.DeathIsShort | phase3/sysSupport.c:172-183 | a process that traps does not come back to its program, and has at most eight steps of its own to its end |
| KernelMutex.StepIsMutex | lib/utilities.c:18-30 | a kernel entry, or what a program does between two of them, is a step of the wrapper protocol or changes nothing there; where each process is after P and V follows from whether the kernel queued or released it |
| KernelMutex.RunIsMutex | lib/utilities.c:18-30 | every run of the kernel, with everything else that runs on it, whose programs use the semaphore through the wrappers and die outside of it, is a run of the wrapper protocol |
| KernelMutex.MutexInKernel | phase3/vmSupport.c:267-273 | so in the kernel at most one process is inside, user_asid names exactly the process that has marked it, and the semaphore is 1 exactly when nobody is inside |
| KernelMutex.InitStarts | phase3/vmSupport.c:189-198 | the start of the machine, with the semaphore at 1, is a start of such runs |
| PagedSystem.WorkerInside | phase3/vmSupport.c:165-183 | work on the swap pool is always that of the one process inside the mutex |
| PagedSystem.PartEnabled | phase3/vmSupport.c:165-183 | a process that has passed its P, for a page fault or for freeFrames, finds the pool idle and can begin, and the worker can always go on |
| PagedSystem.StepKeepsIff | lib/utilities.c:18-30 | a step of mutex and pager together keeps both invariants and their agreement on where each process is, whatever lies behind the tables, iff it is no unsound refill |
| PagedSystem.RunIsPaging | phase3/vmSupport.c:165-291 | what a run of mutex and pager together, with sound refills, does to the pager is such a run of the paging protocol |
| PagedSystem.MutexMakesTransparent | phase3/vmSupport.c:165-291 | from the start of the pager, with every preemption and sound refills, loads and stores are those of flat private memory |
| Traps.DeviceMutexes.InitSysStructs | phase3/sysSupport.c:144-151 | every printer and terminal mutex free |
| Traps.DeviceMutexes.ReleaseHeld | phase3/sysSupport.c:176-179 | undisturbed, the loop does V on every device mutex the dying process owns and leaves the others untouched |
| Traps.ReleaseHandsOver | phase3/sysSupport.c:177-178 | in every state of the mutex protocol, that V does not block, clears the owner, and frees the mutex or hands it to the first waiter |
| Traps.NotOwnerAfterRelease | phase3/sysSupport.c:177-178 | along every run of that protocol, other processes in every window, a process past its release is not the owner |
| SupportPool.TakeKeepsIff | phase3/initProc.c:15-21 | a structure handed out is in use once only iff the head of the list is still the one first read |
| SupportPool.AllocateSoundIff | phase3/initProc.c:15-21 | whatever structures are given back between the two reads, the pool is sound afterwards iff there are none |
| SupportPool.HandedOutTwice | phase3/initProc.c:27-29 | with one given back in between, the next start hands out the same structure again |
| Join.JoinIsComplete | phase3/initProc.c:134-137 | test makes its last pass only after every user process has completed its V |
| Join.NoLostSignal | phase3/initProc.c:115-118 | once every process has called V, test is not blocked and its remaining passes complete one after another |
| Join.TestWaitsAlone | phase1/asl.c:204-208 | while test waits on master_sem nobody is blocked in a V on it |
| KernelJoin.RunIsJoin | phase3/initProc.c:134-137 | every run of the kernel, with everything else that runs on it, in which test does its passes and each process its one V on master_sem, and nobody who waits there is killed, is a run of that protocol |
| KernelJoin.JoinInKernel | phase3/initProc.c:115-118 | so in the kernel, when test has made its last pass every V has returned, and once all have been called test does not wait while it has passes to make |
| KernelJoin.InitStarts | phase3/initProc.c:123-128 | the start of the machine, with master_sem at 0, is a start of such runs, and its first process is test |

## Left out

- KernelImpl.Kernel.DeviceInterrupt: requires a waiter, because phase2/interrupts.c:72-73 dereferences the process it wakes; a completion for a killed waiter is outside the model, as are the choice of the device from the interrupt bitmaps and the status value returned.
- KernelImpl.Kernel.DoIO: the command written to the device register is not state of the model, and the semaphore is given directly; Devices.OneSemaphoreEach covers how it is found.
- SemaphoreList.Asl.OutBlocked: requires that a queue of the semaphore holds the process, as its only caller guarantees; otherwise the code dereferences NULL.
- SemaphoreList.Asl.constructor: p_semAdd of every PCB is kept in the semaphore list's object, not in the PCB.
- Creation.CreateKeeps: requires that the pid is not the reserved one; Creation.CreateKeepsIff gives the exact limit.
- KernelImpl.Kernel.Handle: requires a waiter for a device completion, an ordinary pid for a creation, like the two members above, and a running process for a local timer interrupt (see Conventions).
- KernelImpl.Kernel.InitPcb: p_time belongs to the CPU clock and is reset in KernelImpl.Kernel.PreparePcb.
- KernelImpl.Kernel.PreparePcb: entry_hi is part of the processor state and left out.
- KernelImpl.Kernel.CreateProcess: the processor state given to the new process is left out.
- KernelImpl.Kernel.TrapHandler: the saved processor state and the context passed up are left out.
- CpuTime.CpuClock.UpdateProcessCPUTime: times are mathematical integers; the readings of the clock are arbitrary, and the accounts assume that they never run backwards.
- Pager.SwapPool.StorePage: flash operations succeed (phase3/vmSupport.c:97-99 is left out) and the transfer is one assignment here; Paging has it word by word.
- Pager.SwapPool.InitSwapStructs: swap_pool_sem starts as SwapMutex.Boot says.
- Pager.SwapPool.TlbInvalidHandler: requires an index within the table; Paging.FaultInTable shows that sound refills guarantee it.
- Pager.SwapPool.TlbRefillHandler: register encodings of the TLB are left out; an entry is known by process and page.
- Paging.RefillKeepsIff: sound refills are those with an index within the table, whose entries never have the G bit; an entry read from behind it may also carry that bit (GLOBALON, lib/pandos_const.h:95) and then match every process, which the model does not have.
- Paging.InvKept: a page fault on an entry that an unsound refill has put in is modelled up to the wait for the mutex only, since the handler would go on behind the page table.
- PagedSystem.MutexMakesTransparent: a process that traps while it serves a page fault (a flash error) does not occur; SwapMutex does cover its release of the pool.
- Paging.Transparent: the TLB is empty at the start, each start gets a support structure and page table of its own (SupportPool says when it does), and flash devices copy pages in ascending order.
- KernelMutex.RunIsMutex: a process that uses the mutex is killed only when it is past freeFrames, as _terminate makes sure; a kill by TERMPROCESS from outside would leave the mutex taken.
- SwapMutex.MutexHolds: P and V are the steps of a protocol rather than methods, since other processes run between their two halves.
- Traps.DeviceMutexes.ReleaseHeld: the loop as one undisturbed method; that other processes in its windows change nothing about it is what Traps.NotOwnerAfterRelease and KernelMutex.MutexInKernel state, for each mutex.
- SupportPool.AllocateSoundIff: the writes of list_add and list_del are one step each.
- Processor states, stack pointers, status registers, the exception dispatch tables and the pass-up vector.
- GETSUPPORTPTR and GETPROCESSID, which only read; they are one entry that changes nothing.
- Printer and terminal system calls: device loops around DOIO whose return value is overwritten.
- lib/klog.c, memcpy, the rest of the a.out header, resetIntervalTimer and _getStackFrame.
- The uMPS3 headers are not part of this model; Devices.dfy states the layout of the device registers it relies on.
