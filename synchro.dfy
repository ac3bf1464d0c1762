/** Synchronisation (synchro.c): a counting semaphore with a FIFO of
    blocked tasks, and a mutex with a single waiter and priority
    inheritance. Every call runs with interrupts masked; a call that would
    wait is split into the atomic part, which ends in `Suspended`, and a
    resume step whose precondition is the condition the C busy-wait loop
    waits for. */
module Synchro {
  import opened Types
  import opened SchedulerSpec
  import opened Scheduler

  /** sem_t: the count and the list of tasks blocked on it. */
  class Semaphore {
    var count: Word
    const blockedList: TcbList

    ghost predicate Valid()
      reads blockedList
    {
      blockedList.Valid()
    }

    constructor (count: Word)
      ensures Valid() && this.count == count && blockedList.items == []
      ensures fresh(blockedList)
    {
      this.count := count;
      blockedList := new TcbList();
    }

    /** osSemaphoreInit: set the count and replace the blocked list by a
        blank one (size 0, NULL head and tail). */
    method Init(count: Word)
      modifies this`count, blockedList
      ensures Valid()
      ensures this.count == count
      ensures blockedList.items == [] && blockedList.size == 0
      ensures blockedList.head == None && blockedList.tail == None
    {
      this.count := count;
      blockedList.size, blockedList.head, blockedList.tail, blockedList.items := 0, None, None, [];
    }

    /** The atomic part of osSemaphoreLend. With a positive count the call
        takes one unit and completes. With a zero count (the unsigned test
        `count <= 0`) the caller is marked Blocked, appended to the blocked
        list, and the head of the caller's ready level is removed; the call
        then waits, see LendResume. */
    method Lend(k: Kernel) returns (c: Completion)
      requires Valid() && k.Valid() && blockedList !in k.readyQueueList
      modifies this`count, blockedList, k.tcb, k`runScheduler, k.readyQueueList
      ensures Valid() && k.Valid()
      ensures old(count) > 0 ==>
        && c == Completed(NoError) && count == old(count) - 1
        && blockedList.items == old(blockedList.items)
        && k.tcb[..] == old(k.tcb[..]) && k.Levels() == old(k.Levels())
        && k.runScheduler == old(k.runScheduler)
      ensures old(count) == 0 ==>
        var cur := k.currTCB;
        && c == Suspended && count == 0
        && blockedList.items == old(blockedList.items) + [cur]
        && k.tcb[..] == old(k.tcb[..])[cur := old(k.tcb[cur]).(state := Blocked)]
        && k.Levels() == old(k.Levels())[k.currPriority := DropHead(old(k.Levels())[k.currPriority])]
        && k.runScheduler ==
             (old(k.runScheduler) || RequestsReschedule(old(k.tcb[cur].state), Blocked, old(k.tcb[cur].priority), k.currPriority))
        && (old(k.tcb[cur].state) == Running ==> k.runScheduler)
    {
      if count == 0 {
        var _ := k.ChangeState(k.currTCB, Blocked);
        var _ := blockedList.Enqueue(k.currTCB);
        var _ := k.DequeueReady(k.currPriority);
        return Suspended;
      }
      count := count - 1;
      return Completed(NoError);
    }

    /** The end of a suspended osSemaphoreLend: the wait loop has seen a
        positive count, which the call now decrements. */
    method LendResume() returns (e: OsError)
      requires count > 0
      modifies this`count
      ensures count == old(count) - 1
      ensures e == NoError
    {
      count := count - 1;
      return NoError;
    }

    /** osSemaphoreReturn: give one unit back (wrapping as uint32_t) and,
        when tasks are blocked, wake the first of them: it becomes Ready
        and joins the tail of the ready level of its own priority. */
    method Return(k: Kernel) returns (e: OsError)
      requires Valid() && k.Valid() && blockedList !in k.readyQueueList
      modifies this`count, blockedList, k.tcb, k`runScheduler, k.readyQueueList
      ensures Valid() && k.Valid()
      ensures count == WordInc(old(count))
      ensures old(blockedList.items) == [] ==>
        && blockedList.items == []
        && k.tcb[..] == old(k.tcb[..]) && k.Levels() == old(k.Levels())
        && k.runScheduler == old(k.runScheduler)
      ensures old(blockedList.items) != [] ==>
        var t := old(blockedList.items)[0];
        var p := old(k.tcb[t].priority);
        && blockedList.items == old(blockedList.items)[1..]
        && k.tcb[..] == old(k.tcb[..])[t := old(k.tcb[t]).(state := Ready)]
        && k.Levels() == old(k.Levels())[p := old(k.Levels())[p] + [t]]
        && k.runScheduler == (old(k.runScheduler) || RequestsReschedule(old(k.tcb[t].state), Ready, p, k.currPriority))
        && (old(k.tcb[t].state) == Blocked ==> k.runScheduler == (old(k.runScheduler) || p > k.currPriority))
      ensures e == NoError
    {
      count := WordInc(count);
      if blockedList.size != 0 {
        var unblocked := blockedList.Dequeue();
        var t := unblocked.value;
        var _ := k.ChangeState(t, Ready);
        var _ := k.EnqueueReady(k.tcb[t].priority, t);
      }
      return NoError;
    }
  }

  /** mutex_t. `owner` and `blockedTask` are NULL or a TCB slot. */
  class Mutex {
    var available: bool
    var inherited: bool
    var owner: Option<Slot>
    var originalPriority: Priority
    var blockedTask: Option<Slot>

    /** What every mutex call keeps: the mutex has an owner exactly when it
        is taken, and only a taken mutex has a waiter or an inherited
        priority. */
    ghost predicate Valid()
      reads this
    {
      && (available <==> owner == None)
      && (inherited ==> !available)
      && (blockedTask != None ==> !available)
    }

    constructor ()
      ensures Valid() && available && !inherited && owner == None
      ensures originalPriority == PRIORITY_NONE && blockedTask == None
    {
      available, inherited, owner, originalPriority, blockedTask := true, false, None, PRIORITY_NONE, None;
    }

    /** osMutexInit. */
    method Init()
      modifies this
      ensures Valid() && available && !inherited && owner == None
      ensures originalPriority == PRIORITY_NONE && blockedTask == None
    {
      available := true;
      inherited := false;
      originalPriority := PRIORITY_NONE;
      owner := None;
      blockedTask := None;
    }

    /** The atomic part of osMutexLock.
        - Taken by a task with the caller's tid: osErrorInv, nothing
          changes.
        - Taken by another task: the caller becomes the waiter and is
          Blocked, the head of its ready level is removed and, when the
          caller's priority exceeds the owner's original priority, the
          owner inherits it and is appended to the caller's level; the
          call then waits, see LockResume.
        - Available: the caller takes it and the call completes. */
    method Lock(k: Kernel) returns (c: Completion)
      requires Valid() && k.Valid()
      modifies this, k.tcb, k`runScheduler, k.readyQueueList
      ensures Valid() && k.Valid()
      ensures
        var cur := k.currTCB;
        && (old(available) ==>
              && c == Completed(NoError)
              && !available && owner == Some(cur) && originalPriority == k.currPriority
              && inherited == old(inherited) && blockedTask == old(blockedTask)
              && k.tcb[..] == old(k.tcb[..]) && k.Levels() == old(k.Levels())
              && k.runScheduler == old(k.runScheduler))
        && (!old(available) && old(k.tcb[owner.value].tid) == old(k.tcb[cur].tid) ==>
              && c == Completed(ErrorInv)
              && available == old(available) && owner == old(owner) && inherited == old(inherited)
              && originalPriority == old(originalPriority) && blockedTask == old(blockedTask)
              && k.tcb[..] == old(k.tcb[..]) && k.Levels() == old(k.Levels())
              && k.runScheduler == old(k.runScheduler))
      ensures !old(available) && old(k.tcb[owner.value].tid) != old(k.tcb[k.currTCB].tid) ==>
        var cur := k.currTCB;
        var o := old(owner).value;
        var raise := k.currPriority > old(originalPriority);
        var blocked := old(k.tcb[..])[cur := old(k.tcb[cur]).(state := Blocked)];
        var dropped := old(k.Levels())[k.currPriority := DropHead(old(k.Levels())[k.currPriority])];
        var level := old(k.tcb[cur].priority);
        && c == Suspended
        && !available && owner == old(owner) && originalPriority == old(originalPriority)
        && blockedTask == Some(cur)
        && inherited == (old(inherited) || raise)
        && k.tcb[..] == (if raise then blocked[o := blocked[o].(priority := k.currPriority)] else blocked)
        && k.Levels() == (if raise then dropped[level := dropped[level] + [o]] else dropped)
        && k.runScheduler ==
             (old(k.runScheduler) || RequestsReschedule(old(k.tcb[cur].state), Blocked, old(k.tcb[cur].priority), k.currPriority))
    {
      if !available {
        var o := owner.value;
        if k.tcb[o].tid == k.tcb[k.currTCB].tid {
          return Completed(ErrorInv);
        }
        blockedTask := Some(k.currTCB);
        Block(k, o);
        return Suspended;
      }
      available := false;
      originalPriority := k.currPriority;
      owner := Some(k.currTCB);
      return Completed(NoError);
    }

    /** The contended part of osMutexLock, after the waiter is recorded:
        block the caller, drop the head of its level and, if its priority
        is above the owner's original one, lend that priority to the owner
        `o` and queue the owner at the waiter's level. */
    method Block(k: Kernel, o: Slot)
      requires Valid() && k.Valid() && !available && owner == Some(o) && o != k.currTCB
      modifies this`inherited, k.tcb, k`runScheduler, k.readyQueueList
      ensures Valid() && k.Valid()
      ensures
        var cur := k.currTCB;
        var raise := k.currPriority > originalPriority;
        var blocked := old(k.tcb[..])[cur := old(k.tcb[cur]).(state := Blocked)];
        var dropped := old(k.Levels())[k.currPriority := DropHead(old(k.Levels())[k.currPriority])];
        var level := old(k.tcb[cur].priority);
        && inherited == (old(inherited) || raise)
        && k.tcb[..] == (if raise then blocked[o := blocked[o].(priority := k.currPriority)] else blocked)
        && k.Levels() == (if raise then dropped[level := dropped[level] + [o]] else dropped)
        && k.runScheduler ==
             (old(k.runScheduler) || RequestsReschedule(old(k.tcb[cur].state), Blocked, old(k.tcb[cur].priority), k.currPriority))
    {
      var cur := k.currTCB;
      var _ := k.ChangeState(cur, Blocked);
      var _ := k.DequeueReady(k.currPriority);
      if k.currPriority > originalPriority {
        inherited := true;
        k.SetPriority(o, k.currPriority);
        var _ := k.EnqueueReady(k.tcb[cur].priority, o);
      }
    }

    /** The end of a suspended osMutexLock: once the reschedule flag reads
        false the caller takes the mutex, without testing whether it was
        released. */
    method LockResume(k: Kernel) returns (e: OsError)
      requires Valid() && !k.runScheduler
      modifies this`available, this`originalPriority, this`owner
      ensures Valid()
      ensures !available && owner == Some(k.currTCB) && originalPriority == k.currPriority
      ensures e == NoError
    {
      available := false;
      originalPriority := k.currPriority;
      owner := Some(k.currTCB);
      return NoError;
    }

    /** osMutexUnlock.
        - Available: osErrorInv; otherwise not owned by the caller:
          osErrorPerm; both change nothing.
        - Otherwise the waiter, if any, becomes Ready and joins its level.
          Without inheritance the mutex is released and the call
          completes. With inheritance the head of the owner's borrowed
          level is removed, the owner gets its original priority back, the
          mutex is released, the caller is made Ready and a reschedule is
          forced; the call completes with osNoError once the caller runs
          again. */
    method Unlock(k: Kernel) returns (c: Completion)
      requires Valid() && k.Valid()
      modifies this, k.tcb, k`runScheduler, k.readyQueueList
      ensures Valid() && k.Valid()
      ensures old(available) || old(owner) != Some(k.currTCB) ==>
        && c == Completed(if old(available) then ErrorInv else ErrorPerm)
        && available == old(available) && owner == old(owner) && inherited == old(inherited)
        && originalPriority == old(originalPriority) && blockedTask == old(blockedTask)
        && k.tcb[..] == old(k.tcb[..]) && k.Levels() == old(k.Levels())
        && k.runScheduler == old(k.runScheduler)
      ensures !old(available) && old(owner) == Some(k.currTCB) ==>
        var cur := k.currTCB;
        var woken := if old(blockedTask) == None then old(k.tcb[..])
          else old(k.tcb[..])[old(blockedTask).value := old(k.tcb[blockedTask.value]).(state := Ready)];
        var queued := if old(blockedTask) == None then old(k.Levels())
          else var b := old(blockedTask).value;
               var q := old(k.tcb[b].priority);
               old(k.Levels())[q := old(k.Levels())[q] + [b]];
        var p := woken[cur].priority;
        var restored := woken[cur := woken[cur].(priority := old(originalPriority), state := Ready)];
        && available && !inherited && owner == None && blockedTask == None
        && originalPriority == PRIORITY_NONE
        && (old(inherited) ==>
              && c == Suspended
              && k.tcb[..] == restored
              && k.Levels() == queued[p := DropHead(queued[p])]
              && k.runScheduler)
        && (!old(inherited) ==>
              && c == Completed(NoError)
              && k.tcb[..] == woken && k.Levels() == queued
              && k.runScheduler == (old(k.runScheduler) ||
                   (old(blockedTask) != None &&
                    RequestsReschedule(old(k.tcb[blockedTask.value].state), Ready,
                                       old(k.tcb[blockedTask.value].priority), k.currPriority))))
    {
      if available {
        return Completed(ErrorInv);
      }
      if Some(k.currTCB) != owner {
        return Completed(ErrorPerm);
      }
      c := Release(k);
    }

    /** A permitted osMutexUnlock, by the owner. */
    method Release(k: Kernel) returns (c: Completion)
      requires Valid() && k.Valid() && !available && owner == Some(k.currTCB)
      modifies this, k.tcb, k`runScheduler, k.readyQueueList
      ensures Valid() && k.Valid()
      ensures
        var cur := k.currTCB;
        var woken := if old(blockedTask) == None then old(k.tcb[..])
          else old(k.tcb[..])[old(blockedTask).value := old(k.tcb[blockedTask.value]).(state := Ready)];
        var queued := if old(blockedTask) == None then old(k.Levels())
          else var b := old(blockedTask).value;
               var q := old(k.tcb[b].priority);
               old(k.Levels())[q := old(k.Levels())[q] + [b]];
        var p := woken[cur].priority;
        var restored := woken[cur := woken[cur].(priority := old(originalPriority), state := Ready)];
        && available && !inherited && owner == None && blockedTask == None
        && originalPriority == PRIORITY_NONE
        && (old(inherited) ==>
              && c == Suspended
              && k.tcb[..] == restored
              && k.Levels() == queued[p := DropHead(queued[p])]
              && k.runScheduler)
        && (!old(inherited) ==>
              && c == Completed(NoError)
              && k.tcb[..] == woken && k.Levels() == queued
              && k.runScheduler == (old(k.runScheduler) ||
                   (old(blockedTask) != None &&
                    RequestsReschedule(old(k.tcb[blockedTask.value].state), Ready,
                                       old(k.tcb[blockedTask.value].priority), k.currPriority))))
    {
      WakeWaiter(k);
      if inherited {
        k.ReturnLentPriority(owner.value, originalPriority);
        available, inherited, owner, originalPriority := true, false, None, PRIORITY_NONE;
        return Suspended;
      }
      available, owner, originalPriority := true, None, PRIORITY_NONE;
      return Completed(NoError);
    }

    /** The first step of a permitted osMutexUnlock: the waiter, if any,
        becomes Ready, joins the tail of its level and is cleared. */
    method WakeWaiter(k: Kernel)
      requires k.Valid()
      modifies this`blockedTask, k.tcb, k`runScheduler, k.readyQueueList
      ensures k.Valid() && blockedTask == None
      ensures old(blockedTask) == None ==>
        && k.tcb[..] == old(k.tcb[..]) && k.Levels() == old(k.Levels())
        && k.runScheduler == old(k.runScheduler)
      ensures old(blockedTask) != None ==>
        var b := old(blockedTask).value;
        var q := old(k.tcb[b].priority);
        && k.tcb[..] == old(k.tcb[..])[b := old(k.tcb[b]).(state := Ready)]
        && k.Levels() == old(k.Levels())[q := old(k.Levels())[q] + [b]]
        && k.runScheduler == (old(k.runScheduler) || RequestsReschedule(old(k.tcb[b].state), Ready, q, k.currPriority))
    {
      if blockedTask != None {
        var b := blockedTask.value;
        var _ := k.ChangeState(b, Ready);
        var _ := k.EnqueueReady(k.tcb[b].priority, b);
        blockedTask := None;
      }
    }
  }
}
