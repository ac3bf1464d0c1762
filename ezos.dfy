/** Kernel start-up and task creation (ezOS.c): the per-slot stack layout
    of osInitialize, and osCreateTask, which synthesises a task's first
    stack frame so that the first restore of its context enters the task
    function with its argument. */
module EzOS {
  import opened Types
  import opened SchedulerSpec
  import opened Scheduler

  /** KIBI: words of stack per task slot. */
  const KIBI: int := 0x100
  /** xPSR of a new task: only the Thumb bit set. */
  const PSR_VAL: Word := 0x0100_0000
  /** Value pushed for every register slot except R0. */
  const PLACEHOLDER: Word := 0x01
  /** The register loop of osCreateTask pushes LR, R12, R3, R2, R1, R0,
      R11 ... R4; R0, the argument register, is its sixth push. */
  const ARGUMENT_PUSH: int := 5
  const REGISTER_PUSHES: int := 14
  const FRAME_WORDS: int := 16

  // ---------------------------------------------------------------------
  // Stack layout of osInitialize

  /** What the layout loop of osInitialize writes into slot `i`, given
      stackLocater, the top of the first task stack. */
  function SlotLayout(stackLocater: int, i: Slot): (t: Tcb)
    ensures t.stackPointer == t.stackBaseAddress == t.stackOverflowAddress + KIBI
    ensures t.state == Inactive && t.priority == PRIORITY_NONE && t.tid == 0
  {
    Tcb(0, stackLocater - i * KIBI, stackLocater - i * KIBI,
        stackLocater - KIBI * (i + 1), Inactive, PRIORITY_NONE)
  }

  /** The words slot `t` may store: above its overflow boundary and below
      its base. */
  predicate InStackRegion(t: Tcb, a: int)
  {
    t.stackOverflowAddress < a < t.stackBaseAddress
  }

  /** The stack regions of different slots do not overlap, so pushes made
      for one task never touch another task's stack. */
  lemma SlotRegionsDisjoint(stackLocater: int, i: Slot, j: Slot, a: int)
    requires i != j
    ensures !(InStackRegion(SlotLayout(stackLocater, i), a) && InStackRegion(SlotLayout(stackLocater, j), a))
  {
  }

  /** osInitialize, restricted to kernel state: the layout loop over every
      slot, followed by initScheduler. The main-stack relocation, the
      MSP/PSP/CONTROL writes and the SysTick configuration act on the
      processor only. `mainStackBase` is the initial main stack pointer
      read from vector 0. */
  method OsInitialize(k: Kernel, mainStackBase: int) returns (e: OsError)
    requires k.Valid()
    requires forall p :: PRIORITY_LOW <= p < NUM_PRIORITIES ==> k.readyQueueList[p].items == []
    modifies k.tcb, k`currTCB, k`currPriority, k.readyQueueList
    ensures k.Valid()
    ensures
      var stackLocater := mainStackBase - 2 * KIBI;
      && k.tcb[0] == SlotLayout(stackLocater, 0).(tid := IDLE_ID, state := Running)
      && forall i: Slot :: i != 0 ==> k.tcb[i] == SlotLayout(stackLocater, i)
    ensures k.currTCB == 0 && k.currPriority == PRIORITY_NONE
    ensures k.Levels() == [[0], [], [], []]
    ensures e == NoError
  {
    var stackLocater := mainStackBase - 2 * KIBI;
    for stackCount := 0 to NUM_TCB
      invariant forall i: Slot :: i < stackCount ==> k.tcb[i] == SlotLayout(stackLocater, i)
      modifies k.tcb
    {
      k.tcb[stackCount] := Tcb(
        0,
        stackLocater - stackCount * KIBI,
        stackLocater - stackCount * KIBI,
        stackLocater - KIBI * (stackCount + 1),
        Inactive,
        PRIORITY_NONE);
    }
    k.InitScheduler();
    return NoError;
  }

  // ---------------------------------------------------------------------
  // The initial frame of a task

  /** The word the register loop pushes at iteration `count`. */
  function RegisterWord(count: int, argument: Word): Word
  {
    if count == ARGUMENT_PUSH then argument else PLACEHOLDER
  }

  /** The words osCreateTask pushes, in push order (from the top of the
      stack downward): xPSR, PC = entry, then the register loop. */
  function InitialFrame(entry: Word, argument: Word): (f: seq<Word>)
    ensures |f| == FRAME_WORDS
    ensures f[0] == PSR_VAL && f[1] == entry && f[2 + ARGUMENT_PUSH] == argument
    ensures forall j :: 2 <= j < FRAME_WORDS && j != 2 + ARGUMENT_PUSH ==> f[j] == PLACEHOLDER
  {
    [PSR_VAL, entry] + seq(REGISTER_PUSHES, count => RegisterWord(count, argument))
  }

  /** The same frame as the processor reads it, from the final stack
      pointer upward: R4-R11, popped by restoreContext, then the ARMv7-M
      basic exception frame R0, R1, R2, R3, R12, LR, PC, xPSR popped by the
      exception return (section B1.5.6 of the ARMv7-M Architecture
      Reference Manual). */
  function RestoredView(entry: Word, argument: Word): (v: seq<Word>)
    ensures |v| == FRAME_WORDS
  {
    var p := PLACEHOLDER;
    [p, p, p, p, p, p, p, p,        // R4 .. R11
     argument, p, p, p, p, p,       // R0, R1, R2, R3, R12, LR
     entry, PSR_VAL]                // PC, xPSR
  }

  /** Memory after tcb_push has stored the words `ws` one by one below
      `sp`; a push at or below `overflow` stores nothing. */
  function PushAll(mem: map<int, Word>, sp: int, overflow: int, ws: seq<Word>): (r: map<int, Word>)
    ensures mem.Keys <= r.Keys
    ensures forall a :: a in mem && (a >= sp || a <= overflow) ==> r[a] == mem[a]
    decreases |ws|
  {
    if ws == [] then mem
    else
      var m := PushAll(mem, sp, overflow, ws[..|ws| - 1]);
      var a := sp - |ws|;
      if a > overflow then m[a := ws[|ws| - 1]] else m
  }

  /** One more push extends PushAll by one word. */
  lemma PushAllStep(mem: map<int, Word>, sp: int, overflow: int, ws: seq<Word>, n: nat)
    requires n < |ws|
    ensures
      var m := PushAll(mem, sp, overflow, ws[..n]);
      PushAll(mem, sp, overflow, ws[..n + 1]) ==
        if sp - n - 1 > overflow then m[sp - n - 1 := ws[n]] else m
  {
    assert ws[..n + 1][..n] == ws[..n];
  }

  /** The first two pushes of the frame store xPSR, then the entry point. */
  lemma HeaderPushes(mem: map<int, Word>, sp: int, overflow: int, entry: Word, argument: Word)
    ensures
      var frame := InitialFrame(entry, argument);
      var m := if sp - 1 > overflow then mem[sp - 1 := PSR_VAL] else mem;
      PushAll(mem, sp, overflow, frame[..2]) == if sp - 2 > overflow then m[sp - 2 := entry] else m
  {
    var frame := InitialFrame(entry, argument);
    PushAllStep(mem, sp, overflow, frame, 0);
    PushAllStep(mem, sp, overflow, frame, 1);
    assert frame[..0] == [];
  }

  /** Iteration `count` of the register loop pushes RegisterWord(count,
      argument) as the next word of the frame. */
  lemma RegisterPushStep(mem: map<int, Word>, sp: int, overflow: int, entry: Word, argument: Word, count: nat)
    requires count < REGISTER_PUSHES
    ensures
      var frame := InitialFrame(entry, argument);
      var m := PushAll(mem, sp, overflow, frame[..2 + count]);
      var a := sp - 3 - count;
      PushAll(mem, sp, overflow, frame[..3 + count]) ==
        if a > overflow then m[a := RegisterWord(count, argument)] else m
  {
    var frame := InitialFrame(entry, argument);
    assert frame[2 + count] == RegisterWord(count, argument);
    PushAllStep(mem, sp, overflow, frame, 2 + count);
  }

  /** The value at word `a`, 0 when nothing was stored there. */
  function Peek(mem: map<int, Word>, a: int): Word
  {
    if a in mem then mem[a] else 0
  }

  /** `n` words of memory from address `from` upward. */
  function StackView(mem: map<int, Word>, from: int, n: nat): (v: seq<Word>)
    ensures |v| == n
  {
    seq<Word>(n, o => Peek(mem, from + o))
  }

  /** Pushing `ws` below `sp` stores the j-th word at sp - 1 - j when that
      address lies above the overflow boundary, and changes nothing else. */
  lemma {:induction false} PushAllStores(mem: map<int, Word>, sp: int, overflow: int, ws: seq<Word>)
    ensures forall a :: sp - |ws| <= a < sp && a > overflow ==>
      a in PushAll(mem, sp, overflow, ws) && PushAll(mem, sp, overflow, ws)[a] == ws[sp - 1 - a]
    ensures forall a :: !(sp - |ws| <= a < sp && a > overflow) ==>
      && (a in PushAll(mem, sp, overflow, ws) <==> a in mem)
      && (a in mem ==> PushAll(mem, sp, overflow, ws)[a] == mem[a])
    decreases |ws|
  {
    if ws != [] {
      var init := ws[..|ws| - 1];
      PushAllStores(mem, sp, overflow, init);
      assert forall j :: 0 <= j < |init| ==> init[j] == ws[j];
    }
  }

  /** When the whole frame fits above the overflow boundary, the stack of
      a created task, read upward from its final stack pointer, is exactly
      what restoreContext and the exception return expect: R0 holds the
      argument, PC the entry point and xPSR the Thumb bit. */
  lemma CreatedFrameRestores(mem: map<int, Word>, sp: int, overflow: int, entry: Word, argument: Word)
    requires sp - FRAME_WORDS > overflow
    ensures
      var r := PushAll(mem, sp, overflow, InitialFrame(entry, argument));
      && (forall a :: sp - FRAME_WORDS <= a < sp ==> a in r)
      && StackView(r, sp - FRAME_WORDS, FRAME_WORDS) == RestoredView(entry, argument)
  {
    var f := InitialFrame(entry, argument);
    var r := PushAll(mem, sp, overflow, f);
    PushAllStores(mem, sp, overflow, f);
    var view := StackView(r, sp - FRAME_WORDS, FRAME_WORDS);
    forall o | 0 <= o < FRAME_WORDS ensures view[o] == RestoredView(entry, argument)[o] {
      var a := sp - FRAME_WORDS + o;
      assert a in r && r[a] == f[sp - 1 - a];
      assert view[o] == Peek(r, a);
      assert sp - 1 - a == FRAME_WORDS - 1 - o;
    }
  }

  /** A slot fresh from the layout loop has room for the whole frame, so
      none of the 16 creation pushes reports an overflow. */
  lemma FreshSlotFitsFrame(stackLocater: int, i: Slot, entry: Word, argument: Word, mem: map<int, Word>)
    ensures
      var t := SlotLayout(stackLocater, i);
      && t.stackPointer - FRAME_WORDS > t.stackOverflowAddress
      && StackView(PushAll(mem, t.stackPointer, t.stackOverflowAddress, InitialFrame(entry, argument)),
                   t.stackPointer - FRAME_WORDS, FRAME_WORDS) == RestoredView(entry, argument)
  {
    var t := SlotLayout(stackLocater, i);
    CreatedFrameRestores(mem, t.stackPointer, t.stackOverflowAddress, entry, argument);
  }

  // ---------------------------------------------------------------------
  // osCreateTask

  /** osCreateTask: take slot `taskNumber`, give it tid = taskNumber, the
      priority and state Ready (through changeState), push the initial
      frame, enqueue it at the tail of its priority level and advance
      taskNumber. The results of tcb_push are ignored, so the call always
      returns osNoError. taskNumber starts at 1, so slot 0, the idle
      task, is never taken; nothing in the source bounds taskNumber, so
      callers create at most NUM_TCB - 1 tasks. */
  method OsCreateTask(k: Kernel, entry: Word, argument: Word, priority: Priority) returns (e: OsError)
    requires k.Valid() && 1 <= k.taskNumber < NUM_TCB
    modifies k`taskNumber, k`runScheduler, k`mem, k.tcb, k.readyQueueList
    ensures k.Valid()
    ensures
      var n: Slot := old(k.taskNumber);
      var t := old(k.tcb[n]);
      && k.tcb[..] == old(k.tcb[..])[n := t.(tid := n, priority := priority, state := Ready,
                                            stackPointer := t.stackPointer - FRAME_WORDS)]
      && k.mem == PushAll(old(k.mem), t.stackPointer, t.stackOverflowAddress, InitialFrame(entry, argument))
      && k.Levels() == old(k.Levels())[priority := old(k.Levels())[priority] + [n]]
      && k.runScheduler == (old(k.runScheduler) || RequestsReschedule(t.state, Ready, priority, k.currPriority))
      && k.taskNumber == n + 1
    ensures k.tcb[0] == old(k.tcb[0])
    ensures e == NoError
  {
    var n: Slot := k.taskNumber;
    ghost var start := k.tcb[..];
    ghost var t := start[n];
    ClaimSlot(k, n, priority);

    PushInitialFrame(k, n, entry, argument);
    UpdateTwice(start, n, t.(tid := n, priority := priority, state := Ready),
                t.(tid := n, priority := priority, state := Ready, stackPointer := t.stackPointer - FRAME_WORDS));

    var newTask := n;
    var _ := k.EnqueueReady(priority, newTask);

    k.taskNumber := k.taskNumber + 1;
    return NoError;
  }

  /** The first step of osCreateTask: slot `n` gets tid = n and the
      priority, then changeState makes it Ready. */
  method ClaimSlot(k: Kernel, n: Slot, priority: Priority)
    requires k.Valid()
    modifies k.tcb, k`runScheduler
    ensures k.Valid() && k.Levels() == old(k.Levels())
    ensures k.tcb[..] == old(k.tcb[..])[n := old(k.tcb[n]).(tid := n, priority := priority, state := Ready)]
    ensures k.runScheduler == (old(k.runScheduler) || RequestsReschedule(old(k.tcb[n].state), Ready, priority, k.currPriority))
  {
    ghost var start := k.tcb[..];
    ghost var t := start[n];
    k.tcb[n] := k.tcb[n].(tid := n, priority := priority);
    var _ := k.ChangeState(n, Ready);
    UpdateTwice(start, n, t.(tid := n, priority := priority), t.(tid := n, priority := priority, state := Ready));
  }

  /** The frame-building part of osCreateTask: xPSR, the entry point, then
      fourteen register words through tcb_push, whose results are
      ignored. */
  method PushInitialFrame(k: Kernel, n: Slot, entry: Word, argument: Word)
    requires k.Valid()
    modifies k.tcb, k`mem
    ensures
      var t := old(k.tcb[n]);
      && k.tcb[..] == old(k.tcb[..])[n := t.(stackPointer := t.stackPointer - FRAME_WORDS)]
      && k.mem == PushAll(old(k.mem), t.stackPointer, t.stackOverflowAddress, InitialFrame(entry, argument))
  {
    ghost var created := k.tcb[..];
    ghost var sp0 := k.tcb[n].stackPointer;
    ghost var mem0 := k.mem;
    ghost var frame := InitialFrame(entry, argument);

    HeaderPushes(mem0, sp0, created[n].stackOverflowAddress, entry, argument);
    var _ := k.TcbPush(n, PSR_VAL);
    var _ := k.TcbPush(n, entry);
    UpdateTwice(created, n, created[n].(stackPointer := sp0 - 1), created[n].(stackPointer := sp0 - 2));
    PushRegisters(k, n, argument, entry, mem0, sp0);
    UpdateTwice(created, n, created[n].(stackPointer := sp0 - 2), created[n].(stackPointer := sp0 - FRAME_WORDS));
  }

  /** The register loop of osCreateTask: fourteen pushes, the argument at
      iteration ARGUMENT_PUSH and PLACEHOLDER elsewhere, continuing the
      frame whose first two words are already below `sp0`. */
  method PushRegisters(k: Kernel, n: Slot, argument: Word, ghost entry: Word, ghost mem0: map<int, Word>, ghost sp0: int)
    requires k.Valid()
    requires k.tcb[n].stackPointer == sp0 - 2
    requires k.mem == PushAll(mem0, sp0, k.tcb[n].stackOverflowAddress, InitialFrame(entry, argument)[..2])
    modifies k.tcb, k`mem
    ensures k.tcb[..] == old(k.tcb[..])[n := old(k.tcb[n]).(stackPointer := sp0 - FRAME_WORDS)]
    ensures k.mem == PushAll(mem0, sp0, old(k.tcb[n].stackOverflowAddress), InitialFrame(entry, argument))
  {
    ghost var start := k.tcb[..];
    ghost var overflow := k.tcb[n].stackOverflowAddress;
    ghost var frame := InitialFrame(entry, argument);
    for count := 0 to REGISTER_PUSHES
      invariant k.tcb[..] == start[n := start[n].(stackPointer := sp0 - 2 - count)]
      invariant k.mem == PushAll(mem0, sp0, overflow, frame[..2 + count])
    {
      var word := RegisterWord(count, argument);
      RegisterPushStep(mem0, sp0, overflow, entry, argument, count);
      assert k.tcb[n].stackPointer == sp0 - 2 - count && k.tcb[n].stackOverflowAddress == overflow;
      var _ := k.TcbPush(n, word);
      UpdateTwice(start, n, start[n].(stackPointer := sp0 - 2 - count), start[n].(stackPointer := sp0 - 3 - count));
    }
    assert frame[..FRAME_WORDS] == frame;
  }
}
