/** Value-level rules of the scheduler (scheduler.c): the reschedule gate of
    changeState, the level findNextTask selects, and the round-robin
    rotation the SysTick handler performs. The Scheduler module proves its
    methods against these definitions. */
module SchedulerSpec {
  import opened Types

  /** The gate inside changeState: does moving a task of priority
      `priority` from `oldState` to `newState` demand a reschedule, while
      the running task has priority `currPriority`? Only a real change of
      state asks: a block of the running task, or a wake-up or creation of
      a task that outranks the running one. A dispatch (to Running), a
      rotation (Running to Ready) and a deactivation never ask. */
  predicate RequestsReschedule(oldState: TaskState, newState: TaskState, priority: Priority, currPriority: Priority): (r: bool)
    ensures r ==> oldState != newState && newState != Running && newState != Inactive
    ensures r && newState == Blocked ==> oldState == Running
    ensures r && newState == Ready ==> oldState != Running && priority > currPriority
  {
    // a running task blocks on a mutex or semaphore
    (oldState == Running && newState == Blocked) ||
    // a task of higher priority than the running one is unblocked
    (oldState == Blocked && newState == Ready && priority > currPriority) ||
    // a task of higher priority than the running one is created
    (oldState == Inactive && newState == Ready && priority > currPriority)
  }

  /** The converse: each of the three transitions the gate is written
      for does ask for a reschedule. */
  lemma RescheduleTransitions(oldState: TaskState, newState: TaskState, priority: Priority, currPriority: Priority)
    ensures oldState == Running && newState == Blocked ==> RequestsReschedule(oldState, newState, priority, currPriority)
    ensures oldState != Ready && oldState != Running && newState == Ready && priority > currPriority ==>
      RequestsReschedule(oldState, newState, priority, currPriority)
  {
  }

  /** The highest level at or below `p` whose queue is non-empty; level
      None counts as non-empty, as the idle task always occupies it. */
  function HighestFrom(levels: seq<seq<Slot>>, p: int): (r: Priority)
    requires |levels| == NUM_PRIORITIES && 0 <= p < NUM_PRIORITIES
    requires levels[PRIORITY_NONE] != []
    ensures r <= p && levels[r] != []
    ensures forall q :: r < q <= p ==> levels[q] == []
    decreases p
  {
    if p == 0 || levels[p] != [] then p else HighestFrom(levels, p - 1)
  }

  /** The level findNextTask returns: the highest non-empty ready queue. */
  function HighestReady(levels: seq<seq<Slot>>): (r: Priority)
    requires |levels| == NUM_PRIORITIES && levels[PRIORITY_NONE] != []
  {
    HighestFrom(levels, PRIORITY_HIGH)
  }

  /** The scan result is the only level that is non-empty with every level
      above it empty. */
  lemma HighestReadyUnique(levels: seq<seq<Slot>>, p: Priority)
    requires |levels| == NUM_PRIORITIES && levels[PRIORITY_NONE] != []
    ensures p == HighestReady(levels) <==>
      levels[p] != [] && forall q :: p < q < NUM_PRIORITIES ==> levels[q] == []
  {
  }

  /** A queue after tcbList_dequeue: the head is gone, if there was one. */
  function DropHead(q: seq<Slot>): (r: seq<Slot>)
    ensures q == [] ==> r == []
    ensures q != [] ==> [q[0]] + r == q
  {
    if q == [] then [] else q[1..]
  }

  /** A level after the SysTick rotation: its head is dequeued and the
      current task `t` is enqueued at the tail. */
  function Rotate(q: seq<Slot>, t: Slot): (r: seq<Slot>)
    ensures |r| == if q == [] then 1 else |q|
    ensures r[|r| - 1] == t
  {
    DropHead(q) + [t]
  }

  /** When the current task is the head of its level, the rotation moves
      exactly that task from the front to the back and keeps the others
      in order. */
  lemma RotateHeadTask(q: seq<Slot>)
    requires q != []
    ensures Rotate(q, q[0]) == q[1..] + [q[0]]
    ensures multiset(Rotate(q, q[0])) == multiset(q)
  {
    assert q == [q[0]] + q[1..];
  }

  /** `n` successive time-slice expiries on one level whose running task
      is always the head. */
  function RotateTimes(q: seq<Slot>, n: nat): (r: seq<Slot>)
    requires q != []
    ensures |r| == |q|
    decreases n
  {
    if n == 0 then q else RotateTimes(Rotate(q, q[0]), n - 1)
  }

  /** Splitting the rotated level at i - 1 is splitting the level at i. */
  lemma RotatedSplit(q: seq<Slot>, i: nat)
    requires 0 < i <= |q|
    ensures
      var r := q[1..] + [q[0]];
      r[i - 1..] + r[..i - 1] == q[i..] + q[..i]
  {
    var r := q[1..] + [q[0]];
    assert r[i - 1..] == q[i..] + [q[0]];
    assert r[..i - 1] == q[1..i];
    assert q[..i] == [q[0]] + q[1..i];
  }

  /** Round robin: after `i` expiries the level reads q[i..] + q[..i]. */
  lemma {:induction false} RoundRobin(q: seq<Slot>, i: nat)
    requires q != [] && i <= |q|
    ensures RotateTimes(q, i) == q[i..] + q[..i]
    decreases i
  {
    if i > 0 {
      RotateHeadTask(q);
      RoundRobin(q[1..] + [q[0]], i - 1);
      RotatedSplit(q, i);
    }
  }

  /** Every task of the level runs exactly once in |q| consecutive
      slices, in FIFO order: the task at the head during slice `i` is q[i],
      and after |q| slices the level is back where it started. */
  lemma RoundRobinFair(q: seq<Slot>)
    requires q != []
    ensures RotateTimes(q, |q|) == q
    ensures forall i :: 0 <= i < |q| ==> RotateTimes(q, i)[0] == q[i]
  {
    RoundRobin(q, |q|);
    forall i | 0 <= i < |q| ensures RotateTimes(q, i)[0] == q[i] {
      RoundRobin(q, i);
      assert (q[i..] + q[..i])[0] == q[i..][0];
    }
  }
}
