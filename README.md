# ezOS scheduler and synchronisation core in Dafny

This project models the kernel of ezOS, a small preemptive RTOS for the
ARM Cortex-M3. The model covers:

- the arena of six task control blocks (TCBs) and their word stacks;
- the four priority-indexed ready queues;
- the reschedule rule of `changeState`;
- the SysTick and PendSV handlers' bookkeeping;
- task creation with its synthesised first stack frame;
- the counting semaphore and the single-waiter, priority-inheriting mutex.

Every kernel call runs with interrupts masked, so each one is modelled as
one atomic state change. The properties are proved with Dafny.

Modules:

- `Types` (`types.dfy`) holds the constants, enumerations and records of
  `global_types.h`, and the unsigned 32-bit wrap of the tick counters.
- `SchedulerSpec` (`scheduler_spec.dfy`) holds value-level definitions the
  kernel is proved against:
  - the reschedule rule;
  - the level the scheduler selects;
  - queue head removal and the time-slice rotation;
  - lemmas on these, including round-robin fairness.
- `Scheduler` (`scheduler.dfy`) has two classes:
  - `TcbList` is the FIFO `tcbList_t`. Its C fields `size`, `head` and
    `tail` sit beside `items`, the chain its `nextTcb` links spell out.
  - `Kernel` holds the globals of `scheduler.c`: the TCB array, the
    ready queues, `currTCB`, `currPriority`, `runScheduler`, `countDown`
    and `msTicks`. It adds a flag for the PendSV pending bit, the word
    memory the task stacks live in, and the `taskNumber` counter of
    `osCreateTask`. Its methods are `tcb_push`, `changeState`,
    `findNextTask`, the two handlers and `initScheduler`.
- `EzOS` (`ezos.dfy`) holds the slot-layout loop of `osInitialize` and
  `osCreateTask`. It proves that the sixteen pushed words, read upward from
  the final stack pointer, form the frame that the restore code and the
  ARMv7-M exception return expect: R4-R11, then R0-R3, R12, LR, PC and
  xPSR, as section B1.5.6 of the ARMv7-M Architecture Reference Manual
  lays it out.
- `Synchro` (`synchro.dfy`) has the `Semaphore` and `Mutex` classes.
  - A call that busy-waits in C is split in two. The atomic part returns
    `Completion.Suspended` when the caller has to wait.
  - `LendResume` and `LockResume` are the resume steps. Each one requires
    the condition the C wait loop waits for.

Stack addresses are word indices: `stackPointer - 1` is the word just
below the stack pointer. The memory is a map from word index to word.
PendSV is given the stack pointer that `storeContext` would return.

## Model

| member | source | states |
|---|---|---|
| Types.OsError.Code | global_types.h:31-38 | Every code is zero or negative, and it is zero exactly for osNoError. |
| Types.WordDec | scheduler.c:198 | Decrementing a uint32_t gives x - 1, and 0 wraps to 2^32 - 1. |
| Types.WordInc | scheduler.c:196 | Incrementing a uint32_t gives x + 1, and 2^32 - 1 wraps to 0. |
| SchedulerSpec.RequestsReschedule | scheduler.c:140-147 | Only a real change of state asks for a reschedule. A task entering Blocked must have been Running. A task entering Ready must not come from Running and must outrank the running task. So a dispatch (to Running), a rotation (Running to Ready) and a deactivation never ask. |
| SchedulerSpec.RescheduleTransitions | scheduler.c:140-147 | The converse: Running to Blocked always asks, and Blocked or Inactive to Ready asks whenever the task outranks the running one. |
| SchedulerSpec.HighestFrom | scheduler.c:180-183 | Scanning down from level p stops at a non-empty level at or below p, and every level it skipped is empty. |
| SchedulerSpec.HighestReadyUnique | scheduler.c:174-191 | The selected level is the only level that is non-empty with every level above it empty, in both directions. |
| SchedulerSpec.DropHead | scheduler.c:91-134 | Removing the head of an empty queue leaves it empty. Otherwise the old head followed by the result is the old queue. |
| SchedulerSpec.Rotate | scheduler.c:221-228 | The time-slice rotation keeps the level's length (one for an empty level) and ends with the rotated task. |
| SchedulerSpec.RotateHeadTask | scheduler.c:221-228 | When the running task heads its level, the rotation moves it from front to back, keeps the others in order, and is a permutation. |
| SchedulerSpec.RotateTimes | scheduler.c:214-228 | Any number of successive expiries keeps the length of the level. |
| SchedulerSpec.RoundRobin | scheduler.c:214-233 | After i expiries the level reads q[i..] + q[..i]. |
| SchedulerSpec.RoundRobinFair | scheduler.c:214-233 | Over the level's length of consecutive slices, each task heads the level exactly once, in FIFO order, and the level returns to its start. |
| Scheduler.TcbList.constructor | global_types.h:67-71 | A zero-filled list has size 0, NULL head and tail, and an empty chain. |
| Scheduler.TcbList.Enqueue | scheduler.c:55-89 | The chain becomes old + [t] and size grows by one. The tail is t, the head is unchanged if the list was non-empty, and the result is osNoError. |
| Scheduler.TcbList.Dequeue | scheduler.c:91-134 | With a NULL head it returns NULL and changes nothing. Otherwise it returns the old head, drops it from the chain and shrinks size by one. A one-element list ends with NULL head and tail. |
| Scheduler.Kernel.constructor | scheduler.c:12-24 | The globals start zero-filled: TCBs inactive, queues empty, no reschedule request, msTicks 0, countDown one time slice, taskNumber 1. |
| Scheduler.Kernel.TcbPush | scheduler.c:42-53 | The stack pointer always moves down one word. Above the overflow boundary the content is stored there and osNoError returned. Otherwise nothing is stored and osErrorOverflow returned. |
| Scheduler.Kernel.EnqueueReady | synchro.c:66 | tcbList_enqueue on readyQueueList[p] appends the task to level p only, and returns osNoError. |
| Scheduler.Kernel.DequeueReady | synchro.c:41 | tcbList_dequeue on readyQueueList[p] removes the head of level p only, and returns it, or NULL for an empty level. |
| Scheduler.Kernel.SetPriority | synchro.c:103 | Writing a TCB's priority field (here and at synchro.c:153) changes only that field of that TCB, and no queue. |
| Scheduler.Kernel.ChangeState | scheduler.c:136-153 | Only the task's state changes. The reschedule flag is raised when the transition asks for it and is never cleared. The result is osNoError. |
| Scheduler.Kernel.FindNextTask | scheduler.c:174-191 | Given an occupied None level, it returns the highest non-empty level: every level above it is empty. |
| Scheduler.Kernel.SysTickHandler | scheduler.c:193-235 | msTicks always advances. A pending reschedule request is cleared, the slice restarts, PendSV is raised and the queues stay untouched. An expired slice restarts, the current task becomes Ready and its level rotates it to the tail, and PendSV is raised. Otherwise only the counters change. |
| Scheduler.Kernel.RotateCurrentTask | scheduler.c:218-228 | The current task becomes Ready. The head of its level is dequeued and the current task is enqueued at that level's tail. No other level changes. |
| Scheduler.Kernel.ContextSwitch | scheduler.c:166-172 | Only the old task's saved stack pointer is recorded. The result is osNoError. |
| Scheduler.Kernel.PendSVHandler | scheduler.c:237-264 | The new current task is the head of the highest non-empty level, marked Running, and its priority is cached. The old task's stack pointer is saved, the queues and the reschedule flag are unchanged, and the pending bit is cleared. |
| Scheduler.Kernel.InitScheduler | scheduler.c:266-279 | Slot 0 becomes the idle task: IDLE_ID, Running, current at priority None. The None queue holds exactly slot 0 and the other levels stay empty. |
| Scheduler.Kernel.ReturnLentPriority | synchro.c:149-160 | The head of the owner's borrowed level is removed and the owner gets its original priority back. The owner is made Ready and a reschedule is forced. |
| EzOS.SlotLayout | ezOS.c:48-55 | Slot i starts with its stack pointer at its base and its overflow boundary one KIBI lower. It is Inactive, at priority None, with tid 0. |
| EzOS.SlotRegionsDisjoint | ezOS.c:48-51 | The stack regions of two different slots share no word. |
| EzOS.OsInitialize | ezOS.c:48-59 | Every slot is laid out as SlotLayout says, below stackLocater = main stack base - 2 KIBI. initScheduler then turns slot 0 into the running idle task, alone at level None. The result is osNoError. |
| EzOS.InitialFrame | ezOS.c:122-137 | Task creation pushes sixteen words, in push order: xPSR = 0x01000000, then the entry point, then the register loop's fourteen words. The sixth of those (iteration 5) is the argument and the other thirteen are 0x01. |
| EzOS.PushAll | scheduler.c:42-53 | A run of tcb_push calls never removes a stored word. It leaves every word at or above the starting stack pointer, and every word at or below the overflow boundary, as it was. |
| EzOS.PushAllStores | scheduler.c:42-53 | Successive pushes store word j at sp - 1 - j when that address lies above the overflow boundary, and change no other address. |
| EzOS.CreatedFrameRestores | ezOS.c:122-137 | When the frame fits, the sixteen words read upward from the final stack pointer are R4-R11 = 0x01, R0 = argument, R1-R3, R12 and LR = 0x01, PC = entry, and xPSR = 0x01000000. |
| EzOS.FreshSlotFitsFrame | ezOS.c:122-137 | On a freshly laid-out slot none of the sixteen pushes reaches the overflow boundary, so the restored frame is exactly the intended one. |
| EzOS.OsCreateTask | ezOS.c:107-157 | Slot taskNumber gets tid = taskNumber, the priority and state Ready. Its stack pointer drops by sixteen words and memory holds the pushed frame. It is appended to its level and no other level changes. A reschedule is requested only by the Inactive-to-Ready rule. taskNumber advances and the result is osNoError. taskNumber starts at 1, so slot 0, the idle task, is left untouched. |
| EzOS.ClaimSlot | ezOS.c:114-116 | The slot gets tid = taskNumber and the priority, then changeState makes it Ready. No queue changes. |
| EzOS.PushInitialFrame | ezOS.c:122-137 | The xPSR word, the entry point and the fourteen register words are pushed in order, and only the task's stack pointer changes. |
| EzOS.PushRegisters | ezOS.c:128-137 | The fourteen iterations of the register loop continue the frame after its first two words and move the stack pointer down fourteen words. |
| Synchro.Semaphore.Init | synchro.c:23-32 | The count is set, and the blocked list becomes blank: size 0, NULL head and tail. |
| Synchro.Semaphore.Lend | synchro.c:34-57 | With a positive count it takes one unit and touches no task or queue. With count 0 the caller becomes Blocked (raising the flag if it was Running) and is appended to the blocked list. The head of the caller's ready level is removed and the call waits. |
| Synchro.Semaphore.LendResume | synchro.c:44-56 | Once the count is positive the waiting call takes one unit and returns osNoError. |
| Synchro.Semaphore.Return | synchro.c:59-71 | The count goes up by one, wrapping. If tasks are blocked, exactly the first becomes Ready and joins the tail of its own level. A Blocked waiter raises the reschedule flag exactly when its priority exceeds the current one, and the flag is never cleared. Otherwise only the count changes. |
| Synchro.Mutex.Init | synchro.c:74-80 | The mutex is available, not inherited, has no owner and no waiter, and its original priority is None. |
| Synchro.Mutex.Lock | synchro.c:82-123 | An available mutex is taken by the caller at its current priority and no queue changes. A mutex taken by a task with the caller's tid gives osErrorInv and changes nothing. Otherwise the caller waits as Block states. |
| Synchro.Mutex.Block | synchro.c:93-107 | The caller becomes Blocked and the head of its level is removed. If its priority exceeds the owner's original one, the owner inherits that priority and is appended to the caller's level. |
| Synchro.Mutex.LockResume | synchro.c:108-122 | Once the flag reads false the caller takes the mutex at its current priority, without re-checking availability. |
| Synchro.Mutex.Unlock | synchro.c:125-138 | An available mutex gives osErrorInv and is checked first. A caller that is not the owner gets osErrorPerm. Both leave all state unchanged. |
| Synchro.Mutex.Release | synchro.c:140-173 | The waiter, if any, becomes Ready and joins its level. With inheritance the owner's borrowed level loses its head, the owner's priority is restored, the caller is made Ready and a reschedule is forced. Every success leaves the mutex available, unowned, without a waiter and not inherited. |
| Synchro.Mutex.WakeWaiter | synchro.c:141-147 | The waiter, if any, becomes Ready and is appended to the level of its priority, and the waiter field is cleared. |

## Left out

- Assembly: `context.c` and `context.h` are not part of this model. `Scheduler.Kernel.ContextSwitch` records only the saved stack pointer. The registers that `storeContext` and `restoreContext` move are not modelled.
- `EzOS.OsInitialize` covers only the slot-layout loop and `initScheduler`. The processor set-up is left out because it acts only on hardware:
  - SysTick configuration;
  - `main_tcb`;
  - the copy of the main stack;
  - the MSP, PSP and CONTROL writes.
- The PendSV pending bit of `SCB->ICSR` is a boolean flag. Interrupt masking and the preemption it guards against are not modelled: each call is one atomic step.
- The busy-wait loops of `osSemaphoreLend`, `osMutexLock` and `osMutexUnlock` are not loops here. A call that would wait returns `Suspended`:
  - `LendResume` and `LockResume` complete it under the wait loop's exit condition;
  - an unlock with inheritance has nothing left to do after its wait, and completes with osNoError.
- Diagnostics are left out: the `printf` calls, `printGlobalLocations`, `printTcbContents`, `printListContents`, `printSchedulerStatus` and `osPrintError`.
- The `nextTcb` field is not modelled. Each queue's chain is its own sequence. When inheritance enqueues a task that is still in its own level, the C link field is shared between the two lists. The model does not reproduce that aliasing.
- Stack addresses are unbounded integers. Pointer wrap-around at the ends of the 32-bit address space is not modelled, and neither are the uint32_t widths of `size`, `tid` and `taskNumber`.
- `EzOS.OsCreateTask` requires `1 <= taskNumber < NUM_TCB`. `taskNumber` starts at 1 and only grows, so the lower bound always holds. The C code never checks the upper bound, and the sixth call writes `tcb[6]`, past the end of the TCB array.
- `currTCB` is NULL in C until `initScheduler` runs. The model holds slot 0 there.
- `Scheduler.Kernel.FindNextTask` and `Scheduler.Kernel.PendSVHandler` require the None level to be occupied. The idle task keeps it occupied from `initScheduler` on; on an empty None level the C scan would index below the array.
- The demonstration programs of `test_cases.c` run on hardware forever. They are not replayed.
