/** The scheduler (scheduler.c): the intrusive TCB queue, the kernel's
    global state, the TCB stack push, the changeState reschedule gate, the
    next-task scan and the two interrupt handlers. */
module Scheduler {
  import opened Types
  import opened SchedulerSpec

  /** A FIFO of TCBs (tcbList_t). `size`, `head` and `tail` are the
      fields of the C struct; `items` is the chain of TCBs that `head`
      and the `nextTcb` links spell out, front first. */
  class TcbList {
    var size: nat
    var head: Option<Slot>
    var tail: Option<Slot>
    var items: seq<Slot>

    /** The struct fields agree with the chain. */
    ghost predicate Valid()
      reads this
    {
      && size == |items|
      && head == (if items == [] then None else Some(items[0]))
      && tail == (if items == [] then None else Some(items[|items| - 1]))
    }

    /** A zero-filled list: size 0, NULL head and tail. */
    constructor ()
      ensures Valid() && items == []
    {
      size, head, tail, items := 0, None, None, [];
    }

    /** tcbList_enqueue: append `t` at the tail. */
    method Enqueue(t: Slot) returns (e: OsError)
      requires Valid()
      modifies this
      ensures Valid()
      ensures items == old(items) + [t]
      ensures size == old(size) + 1 && tail == Some(t)
      ensures old(items) != [] ==> head == old(head)
      ensures e == NoError
    {
      if size == 0 {
        head := Some(t);
        tail := Some(t);
        size := size + 1;
        items := [t];
        return NoError;
      }
      // the old tail's nextTcb now points at t
      items := items + [t];
      tail := Some(t);
      size := size + 1;
      return NoError;
    }

    /** tcbList_dequeue: remove and return the head, or NULL when the
        list is empty. */
    method Dequeue() returns (r: Option<Slot>)
      requires Valid()
      modifies this
      ensures Valid()
      ensures old(head) == None ==> r == None && items == old(items) == []
      ensures old(head) != None ==>
        && r == Some(old(items)[0]) && items == old(items)[1..]
        && size == old(size) - 1
      ensures old(size) == 1 ==> head == None && tail == None
      ensures items == DropHead(old(items))
    {
      if head == None {
        return None;
      }
      if size == 1 {
        r := head;
        head := None;
        tail := None;
        size := size - 1;
        items := [];
        return;
      }
      r := head;
      // the new head is the old head's nextTcb
      items := items[1..];
      head := Some(items[0]);
      size := size - 1;
    }
  }

  /** The kernel's global state: the TCB arena `tcb[NUM_TCB]`, the
      scheduler struct (ready queues, current task, current priority),
      the reschedule flag and tick counters of scheduler.c, a flag
      standing for the PendSV pending bit of SCB->ICSR, the word memory
      the task stacks live in, and the task counter of osCreateTask. */
  class Kernel {
    const tcb: array<Tcb>
    const readyQueueList: seq<TcbList>
    /** The four elements of readyQueueList, by name. They are the same
        four objects, not a second copy of the queues: Valid ties them to
        readyQueueList, and naming them lets Valid and Levels state which
        objects they read. */
    const rqNone: TcbList
    const rqLow: TcbList
    const rqMed: TcbList
    const rqHigh: TcbList
    var currTCB: Slot
    var currPriority: Priority
    var runScheduler: bool
    var countDown: Word
    var msTicks: Word
    var pendSVPending: bool
    var mem: map<int, Word>
    /** `static uint32_t taskNumber` of osCreateTask (ezOS.c). */
    var taskNumber: nat

    /** One arena slot per TCB, one distinct, well-formed queue per
        priority level. */
    ghost predicate Valid()
      reads rqNone, rqLow, rqMed, rqHigh
    {
      && tcb.Length == NUM_TCB
      && readyQueueList == [rqNone, rqLow, rqMed, rqHigh]
      && rqNone != rqLow && rqNone != rqMed && rqNone != rqHigh
      && rqLow != rqMed && rqLow != rqHigh && rqMed != rqHigh
      && rqNone.Valid() && rqLow.Valid() && rqMed.Valid() && rqHigh.Valid()
    }

    /** The contents of the ready queues, indexed by priority. */
    ghost function Levels(): (ls: seq<seq<Slot>>)
      requires Valid()
      reads rqNone, rqLow, rqMed, rqHigh
      ensures |ls| == NUM_PRIORITIES
    {
      [rqNone.items, rqLow.items, rqMed.items, rqHigh.items]
    }

    /** The globals as the C runtime leaves them before osInitialize:
        zero-filled TCBs and queues, countDown = timeSlice, taskNumber = 1.
        (currTCB is NULL there; here it is slot 0 until initScheduler
        sets it to slot 0.) */
    constructor ()
      ensures Valid() && fresh(tcb)
      ensures forall p :: 0 <= p < NUM_PRIORITIES ==> fresh(readyQueueList[p])
      ensures tcb[..] == seq(NUM_TCB, _ => ZERO_TCB)
      ensures Levels() == [[], [], [], []]
      ensures currTCB == 0 && currPriority == PRIORITY_NONE
      ensures !runScheduler && countDown == TIME_SLICE && msTicks == 0
      ensures !pendSVPending && mem == map[] && taskNumber == 1
    {
      tcb := new Tcb[NUM_TCB](_ => ZERO_TCB);
      var none := new TcbList();
      var low := new TcbList();
      var med := new TcbList();
      var high := new TcbList();
      rqNone, rqLow, rqMed, rqHigh := none, low, med, high;
      readyQueueList := [none, low, med, high];
      currTCB, currPriority := 0, PRIORITY_NONE;
      runScheduler, countDown, msTicks := false, TIME_SLICE, 0;
      pendSVPending, mem, taskNumber := false, map[], 1;
    }

    /** tcbList_enqueue on the ready queue of level `p`. */
    method EnqueueReady(p: Priority, t: Slot) returns (e: OsError)
      requires Valid()
      modifies readyQueueList[p]
      ensures Valid()
      ensures Levels() == old(Levels())[p := old(Levels())[p] + [t]]
      ensures e == NoError
    {
      e := readyQueueList[p].Enqueue(t);
    }

    /** tcbList_dequeue on the ready queue of level `p`. */
    method DequeueReady(p: Priority) returns (r: Option<Slot>)
      requires Valid()
      modifies readyQueueList[p]
      ensures Valid()
      ensures Levels() == old(Levels())[p := DropHead(old(Levels())[p])]
      ensures r == if old(Levels())[p] == [] then None else Some(old(Levels())[p][0])
    {
      r := readyQueueList[p].Dequeue();
    }

    /** tcb_push: move the stack pointer of `t` down one word, and store
        `content` there unless the new pointer has reached the overflow
        boundary. */
    method TcbPush(t: Slot, content: Word) returns (e: OsError)
      requires Valid()
      modifies tcb, this`mem
      ensures Valid() && Levels() == old(Levels())
      ensures
        var sp := old(tcb[t].stackPointer) - 1;
        && tcb[..] == old(tcb[..])[t := old(tcb[t]).(stackPointer := sp)]
        && e == (if sp <= old(tcb[t].stackOverflowAddress) then ErrorOverflow else NoError)
        && mem == (if e == NoError then old(mem)[sp := content] else old(mem))
    {
      tcb[t] := tcb[t].(stackPointer := tcb[t].stackPointer - 1);
      if tcb[t].stackPointer <= tcb[t].stackOverflowAddress {
        return ErrorOverflow;
      }
      mem := mem[tcb[t].stackPointer := content];
      return NoError;
    }

    /** changeState: set the state of `t`, raising runScheduler when the
        transition demands a reschedule; the flag is never cleared here. */
    method ChangeState(t: Slot, newState: TaskState) returns (e: OsError)
      requires Valid()
      modifies tcb, this`runScheduler
      ensures Valid() && Levels() == old(Levels())
      ensures tcb[..] == old(tcb[..])[t := old(tcb[t]).(state := newState)]
      ensures runScheduler ==
        (old(runScheduler) || RequestsReschedule(old(tcb[t].state), newState, old(tcb[t].priority), currPriority))
      ensures e == NoError
    {
      var oldState := tcb[t].state;
      if RequestsReschedule(oldState, newState, tcb[t].priority, currPriority) {
        runScheduler := true;
      }
      tcb[t] := tcb[t].(state := newState);
      return NoError;
    }

    /** The direct writes of a TCB's priority field in synchro.c, which
        lend or return a priority. */
    method SetPriority(t: Slot, p: Priority)
      requires Valid()
      modifies tcb
      ensures Valid() && Levels() == old(Levels())
      ensures tcb[..] == old(tcb[..])[t := old(tcb[t]).(priority := p)]
    {
      tcb[t] := tcb[t].(priority := p);
    }

    /** The kernel side of the inheritance branch of osMutexUnlock, run
        by the owner `o`: remove the head of the level it borrowed, give it
        its `original` priority back, make it Ready and force a
        reschedule. */
    method ReturnLentPriority(o: Slot, original: Priority)
      requires Valid() && o == currTCB
      modifies tcb, readyQueueList, this`runScheduler
      ensures Valid()
      ensures tcb[..] == old(tcb[..])[o := old(tcb[o]).(priority := original, state := Ready)]
      ensures Levels() == old(Levels())[old(tcb[o].priority) := DropHead(old(Levels())[old(tcb[o].priority)])]
      ensures runScheduler
    {
      var _ := DequeueReady(tcb[o].priority);
      SetPriority(o, original);
      ghost var lent := tcb[o];
      var _ := ChangeState(currTCB, Ready);
      UpdateTwice(old(tcb[..]), o, lent, lent.(state := Ready));
      runScheduler := true;
    }

    /** findNextTask: scan the ready queues from High downward and return
        the first level whose head is not NULL. The caller guarantees that
        the None level is occupied (by the idle task); otherwise the C scan
        runs below index 0. */
    method FindNextTask() returns (p: Priority)
      requires Valid() && readyQueueList[PRIORITY_NONE].items != []
      ensures readyQueueList[p].items != []
      ensures forall q :: p < q < NUM_PRIORITIES ==> readyQueueList[q].items == []
      ensures p == HighestReady(Levels())
    {
      var priorityIndex: int := PRIORITY_HIGH;
      while readyQueueList[priorityIndex].head == None
        invariant 0 <= priorityIndex < NUM_PRIORITIES
        invariant HighestFrom(Levels(), priorityIndex) == HighestReady(Levels())
        invariant forall q :: priorityIndex < q < NUM_PRIORITIES ==> readyQueueList[q].items == []
        decreases priorityIndex
      {
        priorityIndex := priorityIndex - 1;
      }
      p := priorityIndex;
    }

    /** SysTick_Handler. A raised runScheduler is honoured first: the flag
        is cleared, the slice restarts and PendSV is raised. Otherwise, when
        the slice has run out, the current task is made Ready, the head of
        its level is dequeued, the current task is enqueued at that level's
        tail, and PendSV is raised. Otherwise only the counters move. */
    method SysTickHandler()
      requires Valid()
      modifies this`msTicks, this`countDown, this`runScheduler, this`pendSVPending
      modifies tcb, readyQueueList
      ensures Valid()
      ensures msTicks == WordInc(old(msTicks))
      ensures old(runScheduler) ==>
        && !runScheduler && countDown == TIME_SLICE && pendSVPending
        && tcb[..] == old(tcb[..]) && Levels() == old(Levels())
      ensures !old(runScheduler) && WordDec(old(countDown)) == 0 ==>
        var prev := currTCB;
        var level := old(tcb[prev].priority);
        && countDown == TIME_SLICE && pendSVPending
        && tcb[..] == old(tcb[..])[prev := old(tcb[prev]).(state := Ready)]
        && runScheduler == RequestsReschedule(old(tcb[prev].state), Ready, level, currPriority)
        && Levels() == old(Levels())[level := Rotate(old(Levels())[level], prev)]
      ensures !old(runScheduler) && WordDec(old(countDown)) != 0 ==>
        && countDown == WordDec(old(countDown)) && !runScheduler
        && pendSVPending == old(pendSVPending)
        && tcb[..] == old(tcb[..]) && Levels() == old(Levels())
    {
      msTicks := WordInc(msTicks);
      countDown := WordDec(countDown);

      if runScheduler {
        runScheduler := false;
        countDown := TIME_SLICE;
        pendSVPending := true;
        return;
      }

      if countDown == 0 {
        countDown := TIME_SLICE;
        RotateCurrentTask();
        pendSVPending := true;
      }
    }

    /** The time-slice expiry step of SysTick_Handler: the current task is
        made Ready, the head of its level is dequeued and the current task
        is enqueued at that level's tail. */
    method RotateCurrentTask()
      requires Valid()
      modifies this`runScheduler, tcb, readyQueueList
      ensures Valid()
      ensures
        var prev := currTCB;
        var level := old(tcb[prev].priority);
        && tcb[..] == old(tcb[..])[prev := old(tcb[prev]).(state := Ready)]
        && runScheduler == (old(runScheduler) || RequestsReschedule(old(tcb[prev].state), Ready, level, currPriority))
        && Levels() == old(Levels())[level := Rotate(old(Levels())[level], prev)]
    {
      var prevTask := currTCB;
      var prevList := tcb[prevTask].priority;
      var _ := ChangeState(prevTask, Ready);
      var _ := DequeueReady(prevList);
      var _ := EnqueueReady(prevList, prevTask);
    }

    /** contextSwitch, as far as the kernel state sees it: storeContext
        leaves the old task's registers on its stack and its stack pointer
        (`savedSp`, supplied by the processor) is recorded in its TCB;
        restoreContext changes no kernel state. */
    method ContextSwitch(oldTask: Slot, newTask: Slot, savedSp: int) returns (e: OsError)
      requires Valid()
      modifies tcb
      ensures Valid() && Levels() == old(Levels())
      ensures tcb[..] == old(tcb[..])[oldTask := old(tcb[oldTask]).(stackPointer := savedSp)]
      ensures e == NoError
    {
      tcb[oldTask] := tcb[oldTask].(stackPointer := savedSp);
      return NoError;
    }

    /** PendSV_Handler: switch to the head of the highest non-empty ready
        level, mark it Running, cache its priority and clear the pending
        bit. The ready queues are not touched, and the previous task keeps
        whatever state it had. */
    method PendSVHandler(savedSp: int)
      requires Valid() && readyQueueList[PRIORITY_NONE].items != []
      modifies this`currTCB, this`currPriority, this`pendSVPending, this`runScheduler, tcb
      ensures Valid() && Levels() == old(Levels())
      ensures currTCB == Levels()[HighestReady(Levels())][0]
      ensures
        var saved := old(tcb[..])[old(currTCB) := old(tcb[currTCB]).(stackPointer := savedSp)];
        tcb[..] == saved[currTCB := saved[currTCB].(state := Running)]
      ensures tcb[currTCB].state == Running && currPriority == tcb[currTCB].priority
      ensures !pendSVPending && runScheduler == old(runScheduler)
    {
      var prevTask := currTCB;
      var nextQueue := FindNextTask();
      var nextTask := readyQueueList[nextQueue].head.value;

      var _ := ContextSwitch(prevTask, nextTask, savedSp);

      currTCB := nextTask;
      var _ := ChangeState(currTCB, Running);
      currPriority := tcb[currTCB].priority;

      pendSVPending := false;
    }

    /** initScheduler: the idle task in slot 0 gets IDLE_ID and is
        Running as the current task at priority None, alone in the None
        queue. Only the sizes of the other levels are written; their heads
        are the NULLs of zero-initialised storage, which the caller
        guarantees by calling it on empty levels. */
    method InitScheduler()
      requires Valid()
      requires forall p :: PRIORITY_LOW <= p < NUM_PRIORITIES ==> readyQueueList[p].items == []
      modifies tcb, this`currTCB, this`currPriority, readyQueueList
      ensures Valid()
      ensures tcb[..] == old(tcb[..])[0 := old(tcb[0]).(tid := IDLE_ID, state := Running)]
      ensures currTCB == 0 && currPriority == PRIORITY_NONE
      ensures Levels() == [[0], [], [], []]
    {
      tcb[0] := tcb[0].(tid := IDLE_ID);
      tcb[0] := tcb[0].(state := Running);

      currTCB := 0;
      currPriority := PRIORITY_NONE;
      var none := readyQueueList[PRIORITY_NONE];
      none.size := 1;
      none.head := Some(0);
      none.tail := Some(0);
      // tcb[0].nextTcb is NULL, so the chain is the idle task alone
      none.items := [0];

      readyQueueList[PRIORITY_LOW].size := 0;
      readyQueueList[PRIORITY_MED].size := 0;
      readyQueueList[PRIORITY_HIGH].size := 0;
    }
  }
}
