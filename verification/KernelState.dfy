/**
 The scheduler state of tasks.c and its operations as functions: ready lists
 per priority, the delayed lists, the suspended, terminated and pending-ready
 lists, for one core with preemption and time slicing.
 */
module KernelState {
  import opened Rings
  import opened KernelTime
  import opened KernelTypes
  import opened Sequences

  datatype State = State(
    time: Time,
    ready: seq<WalkedRing<Task>>, top: nat, current: Task,
    suspended: seq<Task>, terminated: seq<Task>, pendingReady: seq<Task>,
    depth: nat, pended: nat, yieldPending: bool,
    number: nat, prio: map<Task, nat>, running: bool)

  // No task is current: before the first is created, or when all are suspended before the scheduler starts.
  const NOBODY: Task := 0

  // At least one priority, and the ready hint is one of them.
  type Kernel = k: State | |k.ready| > 0 && k.top < |k.ready|
    witness State(Time(0, [], [], 0, 0), [Ring([], 0)], 0, 0, [], [], [], 0, 0, false, 0, map[], false)

  function Level(k: Kernel, t: Task): (p: nat)
    ensures p < |k.ready|
  {
    if t in k.prio && k.prio[t] < |k.ready| then k.prio[t] else 0
  }

  // ---- Moving tasks between lists ----

  function AddReady(k: Kernel, t: Task): (r: Kernel)
    ensures |r.ready| == |k.ready| && r.pendingReady == k.pendingReady
  {
    var p := Level(k, t);
    k.(ready := k.ready[p := InsertEnd(k.ready[p], t)], top := if p > k.top then p else k.top)
  }

  function AddReadyAll(k: Kernel, ts: seq<Task>): (r: Kernel)
    ensures |r.ready| == |k.ready|
    decreases |ts|
  {
    if ts == [] then k else AddReadyAll(AddReady(k, ts[0]), ts[1..])
  }

  function IndexOf(items: seq<Task>, t: Task): (i: nat)
    requires t in items
    ensures i < |items| && items[i] == t && t !in items[..i]
  {
    if items[0] == t then 0 else 1 + IndexOf(items[1..], t)
  }

  function RemoveFromRing(r: WalkedRing<Task>, t: Task): WalkedRing<Task> {
    if t in r.items then RemoveAt(r, IndexOf(r.items, t)) else r
  }

  // The state list item of a live task leaves whichever list it is in.
  function RemoveState(k: Kernel, t: Task): (r: Kernel)
    ensures |r.ready| == |k.ready| && r.pendingReady == k.pendingReady
  {
    var p := Level(k, t);
    k.(ready := k.ready[p := RemoveFromRing(k.ready[p], t)], time := RemoveSleeper(k.time, t),
       suspended := Without(k.suspended, t))
  }

  // ---- Operations ----

  // The current task blocks, for a number of ticks or for ever.
  function Block(k: Kernel, ticks: nat, indefinitely: bool): Kernel {
    var k' := RemoveState(k, k.current);
    if ticks == MAX_DELAY && indefinitely then k'.(suspended := k'.suspended + [k.current])
    else k'.(time := AddDelayed(k'.time, k.current, ticks))
  }

  function Preempting(k: Kernel, t: Task): bool {
    Level(k, t) > Level(k, k.current)
  }

  // An event unblocks the head of an event list.
  function Event(k: Kernel, t: Task): Kernel {
    var k' := if k.depth == 0 then AddReady(RemoveState(k, t), t) else k.(pendingReady := k.pendingReady + [t]);
    k'.(yieldPending := k.yieldPending || Preempting(k, t))
  }

  // Setting event bits readies a waiter at once, although the scheduler is suspended.
  function EventNow(k: Kernel, t: Task): Kernel {
    AddReady(RemoveState(k, t), t).(yieldPending := k.yieldPending || Preempting(k, t))
  }

  // A task gets another priority; a ready one moves to the end of the list of that priority.
  function Reprioritise(k: Kernel, t: Task, p: nat): Kernel {
    if t in k.ready[Level(k, t)].items then AddReady(RemoveState(k, t).(prio := k.prio[t := p]), t)
    else k.(prio := k.prio[t := p])
  }

  function Processed(k: Kernel): (r: Kernel)
    ensures |r.ready| == |k.ready|
  {
    AddReadyAll(k.(time := Tick(k.time)), Woken(k.time))
  }

  predicate AnyPreempting(k: Kernel, ts: seq<Task>) {
    exists i :: 0 <= i < |ts| && Preempting(k, ts[i])
  }

  // What xTaskIncrementTick answers after processing a tick that woke some tasks.
  predicate SwitchRequired(k: Kernel, woken: seq<Task>) {
    || AnyPreempting(k, woken) || |k.ready[Level(k, k.current)].items| > 1 || k.yieldPending
  }

  function TickInterrupt(k: Kernel): Kernel {
    if k.depth == 0 then Processed(k) else k.(pended := (k.pended + 1) % M)
  }

  // The head of the pending-ready list becomes ready.
  function DrainOne(k: Kernel): (r: Kernel)
    requires k.pendingReady != []
    ensures |r.ready| == |k.ready| && r.pendingReady == k.pendingReady[1..]
  {
    var t := k.pendingReady[0];
    AddReady(RemoveState(k.(pendingReady := k.pendingReady[1..]), t), t)
      .(yieldPending := k.yieldPending || Preempting(k, t))
  }

  function Drain(k: Kernel): (r: Kernel)
    ensures |r.ready| == |k.ready|
    decreases |k.pendingReady|
  {
    if k.pendingReady == [] then k else Drain(DrainOne(k))
  }

  function CatchUp(k: Kernel, ticks: nat): Kernel
    decreases ticks
  {
    if ticks == 0 then k.(pended := 0)
    else
      var k' := Processed(k);
      CatchUp(k'.(yieldPending := k.yieldPending || SwitchRequired(k', Woken(k.time))), ticks - 1)
  }

  function Drained(k: Kernel): Kernel {
    var k' := Drain(k);
    if k.pendingReady == [] then k' else k'.(time := ResetNext(k'.time))
  }

  function ResumeAll(k: Kernel): Kernel
    requires k.depth > 0
  {
    var k' := k.(depth := k.depth - 1);
    if k'.depth > 0 || k.number == 0 then k' else CatchUp(Drained(k'), k.pended)
  }

  // The highest priority at or below p with a ready task.
  function HighestFrom(ready: seq<WalkedRing<Task>>, p: nat): (r: nat)
    requires p < |ready| && exists q :: 0 <= q <= p && ready[q].items != []
    ensures r <= p && ready[r].items != [] && forall q | r < q <= p :: ready[q].items == []
  {
    if ready[p].items != [] then p else HighestFrom(ready, p - 1)
  }

  predicate SomethingReady(k: Kernel) {
    exists q :: 0 <= q <= k.top && k.ready[q].items != []
  }

  function Switch(k: Kernel): Kernel
    requires k.depth == 0 ==> SomethingReady(k)
  {
    if k.depth > 0 then k.(yieldPending := true)
    else
      var p := HighestFrom(k.ready, k.top);
      var r := Advance(k.ready[p]);
      k.(ready := k.ready[p := r], top := p, current := Served(r), yieldPending := false)
  }

  // Before the scheduler starts the current task is the latest of the highest priority created so far.
  function Create(k: Kernel, t: Task, p: nat): Kernel {
    var chosen := k.current == NOBODY || (!k.running && Level(k, k.current) <= p);
    AddReady(k.(number := k.number + 1, prio := k.prio[t := p], current := if chosen then t else k.current), t)
  }

  // Ticks are counted, and tasks may block, from here on.
  function Start(k: Kernel, initialTick: nat): Kernel {
    k.(running := true, time := k.time.(tick := initialTick, next := MAX_DELAY))
  }

  function Suspended(k: Kernel, t: Task): Kernel {
    var k' := RemoveState(k, t);
    k'.(suspended := k'.suspended + [t], pendingReady := Without(k.pendingReady, t),
        time := if k.running then ResetNext(k'.time) else k'.time)
  }

  // The current task is suspended before the scheduler has started.
  predicate ChoosesAgain(k: Kernel, t: Task) {
    t == k.current && !k.running
  }

  function SuspendTask(k: Kernel, t: Task): Kernel
    requires ChoosesAgain(k, t) && |Suspended(k, t).suspended| != k.number && k.depth == 0 ==> SomethingReady(Suspended(k, t))
  {
    var k' := Suspended(k, t);
    if !ChoosesAgain(k, t) then k' else if |k'.suspended| == k.number then k'.(current := NOBODY) else Switch(k')
  }

  function ResumeTask(k: Kernel, t: Task): Kernel {
    AddReady(RemoveState(k, t), t)
  }

  function Delete(k: Kernel, t: Task): Kernel {
    var k' := RemoveState(k, t).(pendingReady := Without(k.pendingReady, t));
    if t == k.current && k.running then k'.(terminated := k'.terminated + [t])
    else k'.(number := if k.number > 0 then k.number - 1 else 0, prio := k.prio - {t}, time := ResetNext(k'.time))
  }

  // The idle task frees the first terminated task.
  function CleanUp(k: Kernel): Kernel
    requires k.terminated != []
  {
    k.(terminated := k.terminated[1..], number := if k.number > 0 then k.number - 1 else 0,
       prio := k.prio - {k.terminated[0]})
  }
}
