/** Constants, enumerations and records shared by the whole kernel
    (global_types.h). */
module Types {

  /** Length of a time slice in SysTick ticks (STIME). */
  const TIME_SLICE: int := 1000
  const NUM_PRIORITIES: int := 4
  const NUM_TCB: int := 6
  /** Task id given to the idle task occupying slot 0. */
  const IDLE_ID: nat := 77

  /** A pointer that may be NULL. */
  datatype Option<T> = None | Some(value: T)

  /** Unsigned 32-bit machine word (uint32_t). */
  const WORD_MODULUS: int := 0x1_0000_0000
  type Word = x: int | 0 <= x < WORD_MODULUS

  /** Result codes (osError_t), with their numeric values. */
  datatype OsError = NoError | Error | ErrorOverflow | ErrorPerm | ErrorInv | ErrorEmp
  {
    function Code(): (c: int)
      ensures c <= 0
      ensures c == 0 <==> this == NoError
    {
      match this
      case NoError => 0
      case Error => -1
      case ErrorOverflow => -2
      case ErrorPerm => -3
      case ErrorInv => -4
      case ErrorEmp => -5
    }
  }

  /** Priority levels (priority_t); used as ready-queue indices and
      compared numerically, so they are kept as integers. */
  type Priority = p: int | 0 <= p < NUM_PRIORITIES
  const PRIORITY_NONE: Priority := 0
  const PRIORITY_LOW: Priority := 1
  const PRIORITY_MED: Priority := 2
  const PRIORITY_HIGH: Priority := 3

  /** Task lifecycle states (taskState_t). */
  datatype TaskState = Inactive | Ready | Running | Blocked

  /** Index of a slot in the TCB arena; a `tcb_t *` into `tcb[]`. */
  type Slot = i: int | 0 <= i < NUM_TCB

  /** Task control block (tcb_t). Stack addresses are word addresses:
      `stackPointer - 1` is the word just below the stack pointer. The
      `nextTcb` link is represented by the order of the queues that hold
      the task, see Scheduler.TcbList. */
  datatype Tcb = Tcb(
    tid: nat,
    stackPointer: int,
    stackBaseAddress: int,
    stackOverflowAddress: int,
    state: TaskState,
    priority: Priority)

  /** A statically allocated, zero-filled TCB: NULL pointers, state
      T_INACTIVE (0) and priority osPriorityNone (0). */
  const ZERO_TCB: Tcb := Tcb(0, 0, 0, 0, Inactive, PRIORITY_NONE)

  /** How a possibly blocking call ends: it either returns a code at once,
      or the calling task is suspended and the call completes in a later
      resume step. */
  datatype Completion = Completed(code: OsError) | Suspended

  /** Overwriting one element twice leaves only the second write. */
  lemma UpdateTwice<T>(s: seq<T>, n: int, x: T, y: T)
    requires 0 <= n < |s|
    ensures s[n := x][n := y] == s[n := y]
  {
  }

  /** `x - 1` on uint32_t, wrapping below zero. */
  function WordDec(x: Word): (r: Word)
    ensures x > 0 ==> r == x - 1
    ensures x == 0 ==> r == WORD_MODULUS - 1
  {
    (x - 1) % WORD_MODULUS
  }

  /** `x + 1` on uint32_t, wrapping above the largest word. */
  function WordInc(x: Word): (r: Word)
    ensures x < WORD_MODULUS - 1 ==> r == x + 1
    ensures x == WORD_MODULUS - 1 ==> r == 0
  {
    (x + 1) % WORD_MODULUS
  }
}
