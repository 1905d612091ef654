/**
 The scheduler of tasks.c itself: file-scope state updated in place, each
 operation proved against its function, with the unbounded clock and the
 absolute wake times as ghost state.
 */
module Kernel {
  import opened Rings
  import opened KernelTime
  import opened KernelTypes
  import opened Sequences
  import S = KernelState
  import L = KernelLists
  import opened KernelRuns

  class Scheduler {
    var tick: nat
    var delayed: seq<Item<Task>>
    var overflow: seq<Item<Task>>
    var nextUnblock: nat
    var overflows: nat
    var ready: seq<WalkedRing<Task>>
    var top: nat
    var current: Task
    var suspended: seq<Task>
    var terminated: seq<Task>
    var pendingReady: seq<Task>
    var depth: nat
    var pended: nat
    var yieldPending: bool
    var number: nat
    var prio: map<Task, nat>
    var running: bool

    ghost var clock: int
    ghost var due: map<Task, int>

    ghost predicate Sane()
      reads this
    {
      |ready| > 0 && top < |ready|
    }

    ghost function View(): S.Kernel
      requires Sane()
      reads this
    {
      S.State(Time(tick, delayed, overflow, nextUnblock, overflows), ready, top, current, suspended, terminated,
              pendingReady, depth, pended, yieldPending, number, prio, running)
    }

    ghost predicate Valid()
      reads this
    {
      Sane() && Inv(View(), clock, due)
    }

    // What an operation did, on the state and on the ghost clock.
    twostate predicate Did(a: Action)
      reads this
    {
      && old(Valid()) && Enabled(old(View()), a) && Valid() && View() == Next(old(View()), a)
      && clock == ClockAfter(old(View()), old(clock), a) && due == DueAfter(old(View()), old(clock), old(due), a)
    }

    constructor (priorities: nat, initialTick: nat)
      requires priorities > 0 && initialTick < M
      ensures Valid() && View() == Fresh(priorities, initialTick) && clock == initialTick && due == map[]
    {
      tick, delayed, overflow, nextUnblock, overflows := initialTick, [], [], 0, 0;
      ready := seq(priorities, _ => Ring([], 0));
      top, current, suspended, terminated, pendingReady := 0, S.NOBODY, [], [], [];
      depth, pended, yieldPending, number, prio, running := 0, 0, false, 0, map[], false;
      clock, due := initialTick, map[];
      new;
      FreshInv(priorities, initialTick);
      assert View().ready == Fresh(priorities, initialTick).ready;
    }

    function Level(t: Task): (p: nat)
      requires |ready| > 0
      reads this
      ensures p < |ready|
    {
      if t in prio && prio[t] < |ready| then prio[t] else 0
    }

    method AddTaskToReadyList(t: Task)
      requires Sane()
      modifies this`ready, this`top
      ensures Sane() && View() == S.AddReady(old(View()), t)
    {
      var p := Level(t);
      if p > top { top := p; }
      ready := ready[p := InsertEnd(ready[p], t)];
    }

    method ResetNextTaskUnblockTime()
      requires Sane()
      modifies this`nextUnblock
      ensures View() == old(View()).(time := ResetNext(old(View()).time))
    {
      if delayed == [] {
        nextUnblock := MAX_DELAY;
      } else {
        nextUnblock := delayed[0].value;
      }
    }

    // The state list item leaves the one list it is in.
    method RemoveStateItem(t: Task)
      requires Sane() && L.ReadyOk(ready, top, prio) && L.StateLists(View())[t] == 1 && t !in terminated && t in prio
      modifies this`ready, this`delayed, this`overflow, this`suspended
      ensures Sane() && View() == S.RemoveState(old(View()), t)
    {
      hide L.ReadyOk, L.StateLists, Owners, WithoutOwner, Without, S.RemoveFromRing, RemoveAt;
      InOneList(View(), t);
      var p := Level(t);
      assert ready[p := ready[p]] == ready;
      FromRing(ready[p], t);
      if t in ready[p].items {
        ready := ready[p := RemoveAt(ready[p], S.IndexOf(ready[p].items, t))];
      } else if t in Owners(delayed) {
        delayed := WithoutOwner(delayed, t);
      } else if t in Owners(overflow) {
        overflow := WithoutOwner(overflow, t);
      } else {
        suspended := Without(suspended, t);
      }
    }

    method MoveToReadyList(t: Task)
      requires Sane() && L.ReadyOk(ready, top, prio) && L.StateLists(View())[t] == 1 && t !in terminated && t in prio
      modifies this`ready, this`delayed, this`overflow, this`suspended, this`top
      ensures Sane() && View() == S.AddReady(S.RemoveState(old(View()), t), t)
    {
      hide L.ReadyOk, L.StateLists, S.RemoveState, S.AddReady;
      RemoveStateItem(t);
      AddTaskToReadyList(t);
    }

    // A state list item with exactly one place: what the invariant says of every live task.
    lemma LiveItem(t: Task)
      requires Valid() && t in prio && t !in terminated
      ensures L.ReadyOk(ready, top, prio) && L.StateLists(View())[t] == 1
    {
      Live(View(), t);
    }

    // Wake times beyond the wrap go to the overflow list.
    method InsertInDelayedList(ticks: nat)
      requires Sane()
      modifies this`delayed, this`overflow, this`nextUnblock
      ensures View() == old(View()).(time := AddDelayed(old(View()).time, current, ticks))
    {
      hide Insert;
      var timeToWake := (tick + ticks) % M;
      if timeToWake < tick {
        overflow := Insert(overflow, Item(current, timeToWake));
      } else {
        delayed := Insert(delayed, Item(current, timeToWake));
        if timeToWake < nextUnblock { nextUnblock := timeToWake; }
      }
    }

    // The current task blocks, for a number of ticks or for ever.
    method AddCurrentTaskToDelayedList(ticks: nat, canBlockIndefinitely: bool)
      requires Valid() && Enabled(View(), Blocking(ticks, canBlockIndefinitely))
      modifies this
      ensures Did(Blocking(ticks, canBlockIndefinitely))
    {
      hide Inv, Next, Enabled, ClockAfter, DueAfter, S.RemoveState, AddDelayed, L.ReadyOk, L.StateLists;
      ghost var k := View();
      BlockingIs(k, ticks, canBlockIndefinitely);
      CurrentLive(k, clock, due, ticks, canBlockIndefinitely);
      LiveItem(current);
      RemoveStateItem(current);
      if ticks == MAX_DELAY && canBlockIndefinitely {
        suspended := suspended + [current];
      } else {
        InsertInDelayedList(ticks);
      }
      Advance(k, Blocking(ticks, canBlockIndefinitely));
    }

    // The ghost clock follows an operation whose effect on the state is established.
    ghost method Advance(k: S.Kernel, a: Action)
      requires Sane() && Inv(k, clock, due) && Enabled(k, a) && View() == Next(k, a)
      modifies this`clock, this`due
      ensures Valid() && View() == Next(k, a)
      ensures clock == ClockAfter(k, old(clock), a) && due == DueAfter(k, old(clock), old(due), a)
    {
      hide Inv, Next, Enabled, ClockAfter, DueAfter;
      StepKeeps(k, clock, due, a);
      clock, due := ClockAfter(k, clock, a), DueAfter(k, clock, due, a);
    }

    method ReadyOrPark(t: Task) returns (higher: bool)
      requires Sane() && L.ReadyOk(ready, top, prio) && L.StateLists(View())[t] == 1 && t !in terminated && t in prio
      modifies this`ready, this`delayed, this`overflow, this`suspended, this`top, this`pendingReady, this`yieldPending
      ensures Sane() && View() == S.Event(old(View()), t) && higher == S.Preempting(old(View()), t)
    {
      hide S.RemoveState, S.AddReady, L.ReadyOk, L.StateLists;
      KeepsLevels(View(), t);
      if depth == 0 {
        MoveToReadyList(t);
      } else {
        pendingReady := pendingReady + [t];
      }
      higher := Level(t) > Level(current);
      if higher { yieldPending := true; }
    }

    // An event takes a task from an event list; with the scheduler suspended it waits in the pending-ready list.
    method RemoveFromEventList(t: Task) returns (higher: bool)
      requires Valid() && Enabled(View(), Unblock(t))
      modifies this
      ensures Did(Unblock(t))
      ensures t in prio && (current in prio ==> higher == (prio[t] > prio[current]))
      ensures yieldPending == (old(yieldPending) || higher)
    {
      hide Inv, Next, Enabled, ClockAfter, DueAfter, S.Event, S.Preempting, L.ReadyOk, L.StateLists;
      ghost var k := View();
      UnblockIs(k, t);
      UnblockedLive(k, clock, due, t);
      LiveItem(t);
      HigherPriority(k, t);
      higher := ReadyOrPark(t);
      EventIs(k, t);
      Advance(k, Unblock(t));
    }

    // Setting event bits readies a waiter at once, although the scheduler is suspended.
    method RemoveFromUnorderedEventList(t: Task)
      requires Valid() && Enabled(View(), UnblockNow(t))
      modifies this
      ensures Did(UnblockNow(t))
    {
      hide Inv, Next, Enabled, ClockAfter, DueAfter, S.RemoveState, S.AddReady, L.ReadyOk, L.StateLists;
      ghost var k := View();
      UnblockNowIs(k, t);
      UnblockedNowLive(k, clock, due, t);
      LiveItem(t);
      MoveToReadyList(t);
      if Level(t) > Level(current) { yieldPending := true; }
      Advance(k, UnblockNow(t));
    }

    // A ready task moves to the ready list of its new priority.
    method ChangePriority(t: Task, priority: nat)
      requires Valid() && Enabled(View(), SetPriority(t, priority))
      modifies this
      ensures Did(SetPriority(t, priority))
    {
      hide Inv, Next, Enabled, ClockAfter, DueAfter, S.RemoveState, S.AddReady, L.ReadyOk, L.StateLists;
      ghost var k := View();
      SetPriorityIs(k, t, priority);
      if t in ready[Level(t)].items {
        ReadyLive(k, clock, due, t);
        LiveItem(t);
        RemoveStateItem(t);
        prio := prio[t := priority];
        AddTaskToReadyList(t);
      } else {
        prio := prio[t := priority];
      }
      Advance(k, SetPriority(t, priority));
    }

    method SwitchDelayedLists()
      requires Sane() && delayed == []
      modifies this`delayed, this`overflow, this`overflows, this`nextUnblock
      ensures View().time == ResetNext(Time(tick, old(overflow), [], old(nextUnblock), old(overflows) + 1))
      ensures View() == old(View()).(time := View().time)
    {
      delayed, overflow := overflow, delayed;
      overflows := overflows + 1;
      ResetNextTaskUnblockTime();
    }

    // Moves the head of the current list, the n-th of those found there, to its ready list.
    method UnblockHead(ghost k: S.Kernel, ghost list: seq<Item<Task>>, ghost n: nat) returns (higher: bool)
      requires Sane() && n < |list| && View() == S.AddReadyAll(k, Owners(list[..n])).(time := k.time.(delayed := list[n..]))
      modifies this`ready, this`top, this`delayed
      ensures Sane() && View() == S.AddReadyAll(k, Owners(list[..n + 1])).(time := k.time.(delayed := list[n + 1..]))
      ensures S.AnyPreempting(k, Owners(list[..n + 1])) == (S.AnyPreempting(k, Owners(list[..n])) || higher)
    {
      hide S.AddReadyAll, S.AddReady, Owners, S.AnyPreempting;
      var first := delayed[0];
      OneMore(k, list, n);
      AddOneTime(S.AddReadyAll(k, Owners(list[..n])), first.owner, k.time.(delayed := list[n + 1..]));
      SamePreempting(k, View(), Owners(list[..n]), k.time.(delayed := list[n..]));
      delayed := delayed[1..];
      AddTaskToReadyList(first.owner);
      higher := Level(first.owner) > Level(current);
    }

    // Moves every expired head of the current list to its ready list; k is the state when the drain starts.
    method UnblockExpired(ghost k: S.Kernel) returns (preempted: bool)
      requires Sane() && View() == k && tick >= nextUnblock
      modifies this`ready, this`top, this`delayed, this`nextUnblock
      ensures Sane() && View() == S.AddReadyAll(k.(time := Expire(k.time)), Expired(k.time))
      ensures preempted == S.AnyPreempting(k, Expired(k.time))
    {
      hide S.AddReadyAll, S.AddReady, Owners, S.AnyPreempting, Expire, Expired, Slot, HeadValue;
      ghost var list := delayed;
      ghost var n := 0;
      preempted := false;
      Started(k);
      while true
        invariant 0 <= n <= |list| && delayed == list[n..]
        invariant forall j | 0 <= j < n :: list[j].value <= tick
        invariant Sane() && View() == S.AddReadyAll(k, Owners(list[..n])).(time := k.time.(delayed := list[n..]))
        invariant preempted == S.AnyPreempting(k, Owners(list[..n]))
        decreases |delayed|
        modifies this`ready, this`top, this`delayed, this`nextUnblock
      {
        if delayed == [] {
          nextUnblock := MAX_DELAY;
          break;
        }
        var first := delayed[0];
        if tick < first.value {
          nextUnblock := first.value;
          break;
        }
        var higher := UnblockHead(k, list, n);
        preempted := preempted || higher;
        n := n + 1;
      }
      Finished(k, n);
      assert View().time == Expire(k.time);
    }

    // The tick count moves on; the lists swap when it wraps.
    method CountTick()
      requires Sane() && (tick + 1 == M ==> delayed == []) && tick < M
      modifies this`tick, this`delayed, this`overflow, this`overflows, this`nextUnblock
      ensures Sane() && View() == old(View()).(time := Count(old(View()).time))
    {
      hide HeadValue;
      tick := (tick + 1) % M;
      if tick == 0 { SwitchDelayedLists(); }
    }

    // One tick, processed now or counted for when the scheduler resumes.
    method IncrementTick() returns (switchRequired: bool)
      requires Sane() && (depth == 0 && tick + 1 == M ==> delayed == []) && tick < M
      modifies this`tick, this`delayed, this`overflow, this`overflows, this`nextUnblock, this`ready, this`top, this`pended
      ensures Sane() && View() == S.TickInterrupt(old(View()))
      ensures switchRequired == (old(depth) == 0 && S.SwitchRequired(View(), Woken(old(View()).time)))
    {
      hide S.AddReadyAll, Owners, Slot, Count, S.AnyPreempting, Expire, Expired;
      ghost var k := View();
      switchRequired := false;
      if depth == 0 {
        CountTick();
        ghost var k1 := View();
        ProcessedIs(k);
        if tick >= nextUnblock {
          switchRequired := UnblockExpired(k1);
        }
        LevelsKept(k1, Woken(k.time), View());
        if |ready[Level(current)].items| > 1 { switchRequired := true; }
        if yieldPending { switchRequired := true; }
      } else {
        pended := (pended + 1) % M;
      }
    }

    // The tick interrupt.
    method Tick() returns (switchRequired: bool)
      requires Valid() && Enabled(View(), TickInt)
      modifies this
      ensures Did(TickInt)
      ensures switchRequired == (old(depth) == 0 && S.SwitchRequired(View(), Woken(old(View()).time)))
    {
      hide Inv, Next, ClockAfter, DueAfter, S.TickInterrupt, S.SwitchRequired;
      ghost var k := View();
      SwapReady(k, clock, due);
      switchRequired := IncrementTick();
      TickIs(k);
      Advance(k, TickInt);
    }

    method ReadyPendingHead(ghost awake: map<Task, int>)
      requires Sane() && Drainable(View(), clock, awake) && pendingReady != []
      modifies this`pendingReady, this`ready, this`top, this`delayed, this`overflow, this`suspended, this`yieldPending
      ensures Sane() && View() == S.DrainOne(old(View()))
    {
      hide Drainable, S.RemoveState, S.AddReady, L.ReadyOk, L.StateLists;
      DrainLive(View(), clock, awake);
      var t := pendingReady[0];
      pendingReady := pendingReady[1..];
      MoveToReadyList(t);
      if Level(t) > Level(current) { yieldPending := true; }
    }

    // Moves the tasks readied while the scheduler was suspended to their ready lists.
    method DrainPendingReady()
      requires Sane() && Drainable(View(), clock, due)
      modifies this`pendingReady, this`ready, this`top, this`delayed, this`overflow, this`suspended, this`yieldPending,
               this`nextUnblock
      ensures Sane() && View() == S.Drained(old(View()))
    {
      hide Drainable, S.Drain, S.DrainOne, ResetNext;
      ghost var k := View();
      ghost var awake := due;
      var moved := false;
      while pendingReady != []
        invariant Sane() && Drainable(View(), clock, awake) && S.Drain(View()) == S.Drain(k)
        invariant if moved then |pendingReady| < |k.pendingReady| else View() == k
        decreases |pendingReady|
        modifies this`pendingReady, this`ready, this`top, this`delayed, this`overflow, this`suspended, this`yieldPending
      {
        var t := pendingReady[0];
        DrainOneKeeps(View(), clock, awake);
        DrainUnfolds(View());
        ReadyPendingHead(awake);
        moved := true;
        awake := awake - {t};
      }
      DrainUnfolds(View());
      if moved { ResetNextTaskUnblockTime(); }
    }

    // Processes the ticks counted while the scheduler was suspended.
    method ProcessPendedTicks(ghost awake: map<Task, int>)
      requires Sane() && depth == 0 && L.Placed(View(), multiset{}) && Tells(View().time, clock, awake, clock)
      modifies this`tick, this`delayed, this`overflow, this`overflows, this`nextUnblock, this`ready, this`top, this`pended,
               this`yieldPending
      ensures Sane() && View() == S.CatchUp(old(View()), old(pended))
    {
      hide L.Placed, Tells, S.CatchUp, S.Processed, S.TickInterrupt, S.SwitchRequired;
      ghost var k := View();
      ghost var now, wakes := clock, awake;
      var count := pended;
      while count > 0
        invariant Sane() && depth == 0 && 0 <= count
        invariant L.Placed(View(), multiset{}) && Tells(View().time, now, wakes, now)
        invariant S.CatchUp(View(), count) == S.CatchUp(k, k.pended)
        decreases count
        modifies this`tick, this`delayed, this`overflow, this`overflows, this`nextUnblock, this`ready, this`top, this`pended,
                 this`yieldPending
      {
        CatchUpStep(View(), now, wakes, count);
        var required := IncrementTick();
        if required { yieldPending := true; }
        count := count - 1;
        now, wakes := now + 1, Later(wakes, now + 1);
      }
      CatchUpDone(View());
      pended := 0;
    }

    method ResumeAll() returns (alreadyYielded: bool)
      requires Valid() && Enabled(View(), ResumeScheduler)
      modifies this
      ensures Did(ResumeScheduler)
      ensures alreadyYielded == (old(depth) == 1 && yieldPending)
    {
      hide Inv, Next, ClockAfter, DueAfter, Drainable, S.Drained, S.CatchUp, L.Placed, Tells;
      ghost var k := View();
      alreadyYielded := false;
      depth := depth - 1;
      if depth == 0 {
        ResumeParts(k, clock, due);
        DrainPendingReady();
        ProcessPendedTicks(due - Set(k.pendingReady));
        alreadyYielded := yieldPending;
      }
      ResumeIs(k);
      Advance(k, ResumeScheduler);
    }

    // The search asserts that it does not run off the lowest priority.
    method HighestReady() returns (topPriority: nat)
      requires Sane() && S.SomethingReady(View())
      ensures topPriority == S.HighestFrom(ready, top)
    {
      topPriority := top;
      while ready[topPriority].items == []
        invariant topPriority <= top
        invariant exists q :: 0 <= q <= topPriority && ready[q].items != []
        invariant S.HighestFrom(ready, topPriority) == S.HighestFrom(ready, top)
        decreases topPriority
      {
        topPriority := topPriority - 1;
      }
    }

    // The next task of the list that the search finds becomes the current one.
    method SelectHighestPriorityTask()
      requires Sane() && S.SomethingReady(View())
      modifies this`ready, this`current, this`top
      ensures Sane()
      ensures var k, p := old(View()), S.HighestFrom(old(ready), old(top));
              var r := Rings.Advance(k.ready[p]);
              View() == k.(ready := k.ready[p := r], top := p, current := Served(r))
    {
      hide S.HighestFrom, S.SomethingReady, Rings.Advance, Served;
      var topPriority := HighestReady();
      var r := Rings.Advance(ready[topPriority]);
      ready, current, top := ready[topPriority := r], Served(r), topPriority;
    }

    // Runs the next task of the highest ready priority, or remembers to once the scheduler resumes.
    method ChooseTask()
      requires Sane() && (depth == 0 ==> S.SomethingReady(View()))
      modifies this`yieldPending, this`ready, this`current, this`top
      ensures Sane() && View() == S.Switch(old(View()))
    {
      hide S.HighestFrom, S.SomethingReady, Rings.Advance, Served;
      if depth != 0 {
        yieldPending := true;
      } else {
        YieldApart(View());
        yieldPending := false;
        SelectHighestPriorityTask();
      }
    }

    method SwitchContext()
      requires Valid() && Enabled(View(), Action.SwitchContext)
      modifies this
      ensures Did(Action.SwitchContext)
    {
      hide Inv, Next, ClockAfter, DueAfter, S.Switch;
      ghost var k := View();
      ChooseTask();
      SwitchIs(k);
      Advance(k, Action.SwitchContext);
    }

    // Before the scheduler starts a new task of no lower priority becomes the current one.
    method AdmitTask(t: Task, priority: nat)
      requires Sane() && t !in prio
      modifies this`number, this`current, this`prio, this`ready, this`top
      ensures Sane() && View() == S.Create(old(View()), t, priority)
    {
      hide S.AddReady;
      number := number + 1;
      if current == S.NOBODY {
        current := t;
      } else if !running && Level(current) <= priority {
        current := t;
      }
      prio := prio[t := priority];
      AddTaskToReadyList(t);
    }

    method AddNewTaskToReadyList(t: Task, priority: nat) returns (preempts: bool)
      requires Valid() && Enabled(View(), CreateTask(t, priority))
      modifies this
      ensures Did(CreateTask(t, priority))
      ensures current in prio ==> preempts == (running && priority > prio[current])
    {
      hide Inv, Next, ClockAfter, DueAfter, S.Create;
      ghost var k := View();
      AdmitTask(t, priority);
      CreateIs(k, t, priority);
      Advance(k, CreateTask(t, priority));
      preempts := running && Level(t) > Level(current);
      CreatedLevels(View(), clock, due, t);
    }

    method StartScheduler(initialTick: nat)
      requires Valid() && Enabled(View(), Action.StartScheduler(initialTick))
      modifies this
      ensures Did(Action.StartScheduler(initialTick))
    {
      hide Inv;
      ghost var k := View();
      nextUnblock := MAX_DELAY;
      running := true;
      tick := initialTick;
      Advance(k, Action.StartScheduler(initialTick));
    }

    // The task leaves its state list and the pending-ready list.
    method Detach(t: Task)
      requires Sane() && L.ReadyOk(ready, top, prio) && L.StateLists(View())[t] == 1 && t !in terminated && t in prio
      modifies this`ready, this`delayed, this`overflow, this`suspended, this`pendingReady
      ensures Sane() && View() == S.RemoveState(old(View()), t).(pendingReady := Without(old(pendingReady), t))
    {
      hide S.RemoveState, Without, L.ReadyOk, L.StateLists;
      RemoveStateItem(t);
      pendingReady := Without(pendingReady, t);
    }

    method MoveToSuspended(t: Task)
      requires Sane() && L.ReadyOk(ready, top, prio) && L.StateLists(View())[t] == 1 && t !in terminated && t in prio
      modifies this`ready, this`delayed, this`overflow, this`suspended, this`pendingReady, this`nextUnblock
      ensures Sane() && View() == S.Suspended(old(View()), t)
    {
      hide S.RemoveState, Without, ResetNext, L.ReadyOk, L.StateLists;
      Detach(t);
      suspended := suspended + [t];
      if running { ResetNextTaskUnblockTime(); }
    }

    // Before the scheduler starts, suspending the current task makes another one current, or none.
    method SuspendTask(t: Task)
      requires Valid() && Enabled(View(), SuspendIt(t))
      modifies this
      ensures Did(SuspendIt(t))
    {
      hide Inv, Next, Enabled, ClockAfter, DueAfter, S.Suspended, S.Switch, S.SomethingReady, L.ReadyOk, L.StateLists;
      ghost var k := View();
      MovableLive(k, t);
      LiveItem(t);
      SuspendIs(k, t);
      MoveToSuspended(t);
      if t == current && !running {
        if |suspended| == number {
          current := S.NOBODY;
        } else {
          ChooseTask();
        }
      }
      Advance(k, SuspendIt(t));
    }

    // Only for a task that is suspended rather than blocked without a time-out.
    method ResumeTask(t: Task) returns (preempts: bool)
      requires Valid() && Enabled(View(), ResumeIt(t))
      modifies this
      ensures Did(ResumeIt(t))
      ensures t in prio && (current in prio ==> preempts == (prio[t] > prio[current]))
    {
      hide Inv, Next, Enabled, ClockAfter, DueAfter, S.RemoveState, S.AddReady, L.ReadyOk, L.StateLists;
      ghost var k := View();
      ResumableLive(k, clock, due, t);
      LiveItem(t);
      HigherPriority(k, t);
      KeepsLevels(k, t);
      MoveToReadyList(t);
      preempts := Level(t) > Level(current);
      ResumeTaskIs(k, t);
      Advance(k, ResumeIt(t));
    }

    method ForgetTask(t: Task)
      requires Sane()
      modifies this`number, this`prio, this`nextUnblock
      ensures Sane()
      ensures var k := old(View());
              View() == k.(number := if k.number > 0 then k.number - 1 else 0, prio := k.prio - {t}, time := ResetNext(k.time))
    {
      if number > 0 { number := number - 1; }
      prio := prio - {t};
      ResetNextTaskUnblockTime();
    }

    // A task that deletes itself is left to the idle task.
    method DeleteTask(t: Task)
      requires Valid() && Enabled(View(), DeleteIt(t))
      modifies this
      ensures Did(DeleteIt(t))
    {
      hide Inv, Next, Enabled, ClockAfter, DueAfter, S.RemoveState, Without, ResetNext, L.ReadyOk, L.StateLists;
      ghost var k := View();
      MovableLive(k, t);
      LiveItem(t);
      Detach(t);
      if t == current && running {
        terminated := terminated + [t];
      } else {
        ForgetTask(t);
      }
      DeleteIs(k, t);
      Advance(k, DeleteIt(t));
    }

    method FreeFirstTerminated()
      requires Valid() && Enabled(View(), FreeTerminated)
      modifies this
      ensures Did(FreeTerminated)
    {
      hide Inv, Next, ClockAfter, DueAfter;
      ghost var k := View();
      FreeIs(k, clock, due);
      prio := prio - {terminated[0]};
      terminated := terminated[1..];
      number := number - 1;
      Advance(k, FreeTerminated);
    }

    // The idle task's loop.
    method CheckTasksWaitingTermination()
      requires Valid()
      modifies this
      ensures Valid() && terminated == [] && number == old(number) - |old(terminated)|
      ensures View() == old(View()).(terminated := [], number := number, prio := prio)
      ensures clock == old(clock) && due == old(due)
    {
      hide Inv, Next, ClockAfter, DueAfter;
      ghost var k := View();
      while terminated != []
        invariant Valid() && clock == old(clock) && due == old(due)
        invariant View() == k.(terminated := terminated, number := number, prio := prio)
        invariant number - |terminated| == k.number - |k.terminated|
        decreases |terminated|
      {
        FreeIs(View(), clock, due);
        FreeFirstTerminated();
      }
    }

    method SuspendAll()
      requires Valid()
      modifies this
      ensures Did(SuspendScheduler)
    {
      hide Inv;
      ghost var k := View();
      depth := depth + 1;
      Advance(k, SuspendScheduler);
    }
  }

  // Preemption in terms of the priorities.
  lemma HigherPriority(k: S.Kernel, t: Task)
    requires L.ReadyOk(k.ready, k.top, k.prio) && t in k.prio
    ensures k.current in k.prio ==> (S.Preempting(k, t) <==> k.prio[t] > k.prio[k.current])
  {
  }

  lemma EventIs(k: S.Kernel, t: Task)
    ensures var k' := S.Event(k, t);
            && k'.prio == k.prio && k'.current == k.current && k'.yieldPending == (k.yieldPending || S.Preempting(k, t))
  {
  }

  lemma KeepsLevels(k: S.Kernel, t: Task)
    ensures var k' := S.AddReady(S.RemoveState(k, t), t);
            k'.prio == k.prio && k'.current == k.current && |k'.ready| == |k.ready|
  {
  }

  lemma YieldApart(k: S.Kernel)
    ensures S.SomethingReady(k) == S.SomethingReady(k.(yieldPending := false))
  {
  }

  lemma CatchUpStep(k: S.Kernel, clock: int, due: map<Task, int>, count: nat)
    requires count > 0 && k.depth == 0 && L.Placed(k, multiset{}) && Tells(k.time, clock, due, clock)
    ensures k.time.tick < M && (k.time.tick + 1 == M ==> k.time.delayed == [])
    ensures var k1 := S.TickInterrupt(k);
            var k2 := k1.(yieldPending := k.yieldPending || S.SwitchRequired(k1, Woken(k.time)));
            && k2.depth == 0 && k1.yieldPending == k.yieldPending
            && S.CatchUp(k, count) == S.CatchUp(k2, count - 1)
            && L.Placed(k2, multiset{}) && Tells(k2.time, clock + 1, Later(due, clock + 1), clock + 1)
  {
    hide L.Placed, Tells, S.Processed, S.SwitchRequired, KernelTime.Tick;
    var k1 := S.Processed(k);
    ProcessedPlaced(k);
    ProcessedYield(k);
    TickTells(k.time, clock, due);
    YieldPlaced(k1, k1.(yieldPending := k.yieldPending || S.SwitchRequired(k1, Woken(k.time))));
    TellsTick(k.time, clock, due);
  }

  lemma TellsTick(t: Time, clock: int, due: map<Task, int>)
    requires Tells(t, clock, due, clock)
    ensures t.tick < M && (t.tick + 1 == M ==> t.delayed == [])
  {
    if t.tick + 1 == M {
      EmptyAtSwap(t, clock, due);
    }
  }

  lemma {:induction false} AddReadyAllYield(k: S.Kernel, ts: seq<Task>)
    ensures S.AddReadyAll(k, ts).yieldPending == k.yieldPending
    decreases |ts|
  {
    if ts != [] {
      AddReadyAllYield(S.AddReady(k, ts[0]), ts[1..]);
    }
  }

  lemma ProcessedYield(k: S.Kernel)
    ensures S.Processed(k).yieldPending == k.yieldPending
  {
    hide S.AddReadyAll;
    AddReadyAllYield(k.(time := KernelTime.Tick(k.time)), Woken(k.time));
  }

  lemma CatchUpDone(k: S.Kernel)
    ensures S.CatchUp(k, 0) == k.(pended := 0)
  {
  }

  lemma ResumeParts(k: S.Kernel, clock: int, due: map<Task, int>)
    requires Inv(k, clock, due) && k.depth == 1
    ensures var k1 := k.(depth := 0);
            var k2 := S.Drained(k1);
            && Drainable(k1, clock, due) && k2.depth == 0 && k2.pended == k.pended
            && L.Placed(k2, multiset{}) && Tells(k2.time, clock, due - Set(k.pendingReady), clock)
  {
    hide L.Placed, Tells, S.Drain, ResetNext;
    var k1 := k.(depth := 0);
    YieldPlacedAt(k, k1);
    DrainKeeps(k1, clock, due);
    ResetTells(S.Drain(k1).time, clock, due - Set(k.pendingReady));
    ResetPlaced(S.Drain(k1));
  }

  lemma ResumeIs(k: S.Kernel)
    requires Enabled(k, ResumeScheduler)
    ensures Next(k, ResumeScheduler)
         == if k.depth > 1 then k.(depth := k.depth - 1) else S.CatchUp(S.Drained(k.(depth := k.depth - 1)), k.pended)
  {
  }

  lemma SwitchIs(k: S.Kernel)
    requires Enabled(k, SwitchContext)
    ensures Next(k, SwitchContext) == S.Switch(k)
  {
  }

  lemma CreatedLevels(k: S.Kernel, clock: int, due: map<Task, int>, t: Task)
    requires Inv(k, clock, due) && t in k.prio
    ensures S.Level(k, t) == k.prio[t] && (k.current in k.prio ==> S.Level(k, k.current) == k.prio[k.current])
  {
  }

  lemma CreateIs(k: S.Kernel, t: Task, p: nat)
    requires Enabled(k, CreateTask(t, p))
    ensures Next(k, CreateTask(t, p)) == S.Create(k, t, p)
    ensures S.Create(k, t, p).prio == k.prio[t := p]
  {
  }

  lemma SuspendIs(k: S.Kernel, t: Task)
    requires Enabled(k, SuspendIt(t))
    ensures Next(k, SuspendIt(t)) == S.SuspendTask(k, t)
    ensures var k' := S.Suspended(k, t);
            && k'.current == k.current && k'.running == k.running && k'.number == k.number && k'.depth == k.depth
            && (S.ChoosesAgain(k, t) && |k'.suspended| != k.number && k.depth == 0 ==> S.SomethingReady(k'))
            && Next(k, SuspendIt(t)) == if !S.ChoosesAgain(k, t) then k'
                                        else if |k'.suspended| == k.number then k'.(current := S.NOBODY) else S.Switch(k')
  {
  }

  lemma ResumeTaskIs(k: S.Kernel, t: Task)
    requires Enabled(k, ResumeIt(t))
    ensures Next(k, ResumeIt(t)) == S.ResumeTask(k, t)
  {
  }

  lemma DeleteIs(k: S.Kernel, t: Task)
    requires Enabled(k, DeleteIt(t))
    ensures Next(k, DeleteIt(t)) == S.Delete(k, t)
  {
  }

  lemma MovableLive(k: S.Kernel, t: Task)
    ensures Enabled(k, SuspendIt(t)) || Enabled(k, DeleteIt(t)) ==> t in k.prio && t !in k.terminated
  {
  }

  lemma ResumableLive(k: S.Kernel, clock: int, due: map<Task, int>, t: Task)
    requires Inv(k, clock, due) && Enabled(k, ResumeIt(t))
    ensures t in k.prio && t !in k.terminated
  {
    AsleepLive(k, clock, due, t);
  }

  lemma FreeIs(k: S.Kernel, clock: int, due: map<Task, int>)
    requires Inv(k, clock, due) && k.terminated != []
    ensures Enabled(k, FreeTerminated) && Next(k, FreeTerminated) == S.CleanUp(k) && k.number > 0
    ensures ClockAfter(k, clock, FreeTerminated) == clock && DueAfter(k, clock, due, FreeTerminated) == due
  {
    Live(k, k.terminated[0]);
    assert k.terminated[0] in k.prio;
  }

  lemma DrainUnfolds(k: S.Kernel)
    ensures S.Drain(k) == if k.pendingReady == [] then k else S.Drain(S.DrainOne(k))
  {
  }

  lemma DrainLive(k: S.Kernel, clock: int, due: map<Task, int>)
    requires Drainable(k, clock, due) && k.pendingReady != []
    ensures var k', t := k.(pendingReady := k.pendingReady[1..]), k.pendingReady[0];
            && L.ReadyOk(k'.ready, k'.top, k'.prio) && L.StateLists(k')[t] == 1 && t in k'.prio && t !in k'.terminated
  {
    DrainOneKeeps(k, clock, due);
    Live(k, k.pendingReady[0]);
  }

  lemma AddOneTime(k: S.Kernel, t: Task, time: Time)
    ensures S.AddReady(k.(time := time), t) == S.AddReady(k, t).(time := time)
  {
  }

  lemma {:induction false} AddReadyAllFrame(k: S.Kernel, ts: seq<Task>)
    ensures var r := S.AddReadyAll(k, ts); r.prio == k.prio && r.current == k.current && |r.ready| == |k.ready|
    decreases |ts|
  {
    if ts != [] {
      AddReadyAllFrame(S.AddReady(k, ts[0]), ts[1..]);
    }
  }

  lemma SamePreempting(k: S.Kernel, k': S.Kernel, ts: seq<Task>, time: Time)
    requires k' == S.AddReadyAll(k, ts).(time := time)
    ensures k'.prio == k.prio && k'.current == k.current && |k'.ready| == |k.ready|
  {
    AddReadyAllFrame(k, ts);
  }

  lemma Started(k: S.Kernel)
    ensures S.AddReadyAll(k, Owners(k.time.delayed[..0])) == k && k.time.delayed[0..] == k.time.delayed
    ensures !S.AnyPreempting(k, Owners(k.time.delayed[..0]))
    ensures k.time == k.time.(delayed := k.time.delayed[0..])
  {
  }

  lemma {:induction false} AddReadyMore(k: S.Kernel, ts: seq<Task>, t: Task)
    ensures S.AddReadyAll(k, ts + [t]) == S.AddReady(S.AddReadyAll(k, ts), t)
    decreases |ts|
  {
    hide S.AddReady;
    if ts == [] {
      assert ts + [t] == [t];
      assert S.AddReadyAll(k, [t]) == S.AddReadyAll(S.AddReady(k, t), []);
    } else {
      assert (ts + [t])[1..] == ts[1..] + [t];
      AddReadyMore(S.AddReady(k, ts[0]), ts[1..], t);
    }
  }

  lemma OneMore(k: S.Kernel, list: seq<Item<Task>>, n: nat)
    requires n < |list|
    ensures S.AddReadyAll(k, Owners(list[..n + 1])) == S.AddReady(S.AddReadyAll(k, Owners(list[..n])), list[n].owner)
    ensures S.AnyPreempting(k, Owners(list[..n + 1])) == (S.AnyPreempting(k, Owners(list[..n])) || S.Preempting(k, list[n].owner))
    ensures list[n..][1..] == list[n + 1..] && list[n..][0] == list[n]
  {
    hide S.AddReadyAll, S.AddReady, S.Preempting;
    assert Owners(list[..n + 1]) == Owners(list[..n]) + [list[n].owner];
    AddReadyMore(k, Owners(list[..n]), list[n].owner);
    AnyMore(k, Owners(list[..n]), list[n].owner);
  }

  lemma AnyMore(k: S.Kernel, ts: seq<Task>, t: Task)
    ensures S.AnyPreempting(k, ts + [t]) == (S.AnyPreempting(k, ts) || S.Preempting(k, t))
  {
    hide S.Preempting;
    if S.AnyPreempting(k, ts) {
      var i :| 0 <= i < |ts| && S.Preempting(k, ts[i]);
      assert S.Preempting(k, (ts + [t])[i]);
    }
    if S.Preempting(k, t) {
      assert S.Preempting(k, (ts + [t])[|ts|]);
    }
  }

  lemma {:induction false} AddReadyTime(k: S.Kernel, ts: seq<Task>, time: Time)
    ensures S.AddReadyAll(k.(time := time), ts) == S.AddReadyAll(k, ts).(time := time)
    decreases |ts|
  {
    if ts != [] {
      AddReadyTime(S.AddReady(k, ts[0]), ts[1..], time);
      assert S.AddReady(k.(time := time), ts[0]) == S.AddReady(k, ts[0]).(time := time);
    }
  }

  // The drain stops exactly behind the items that are not later than the tick.
  lemma Finished(k: S.Kernel, n: nat)
    requires n <= |k.time.delayed| && k.time.tick >= k.time.next
    requires forall j | 0 <= j < n :: k.time.delayed[j].value <= k.time.tick
    requires n < |k.time.delayed| ==> k.time.tick < k.time.delayed[n].value
    ensures Slot(k.time.delayed, k.time.tick) == n
    ensures Expired(k.time) == Owners(k.time.delayed[..n])
    ensures Expire(k.time) == k.time.(delayed := k.time.delayed[n..],
                                      next := if n < |k.time.delayed| then k.time.delayed[n].value else MAX_DELAY)
    ensures S.AddReadyAll(k.(time := Expire(k.time)), Expired(k.time))
         == S.AddReadyAll(k, Owners(k.time.delayed[..n])).(time := Expire(k.time))
  {
    hide S.AddReadyAll;
    AddReadyTime(k, Owners(k.time.delayed[..n]), Expire(k.time));
  }

  lemma ProcessedIs(k: S.Kernel)
    ensures var k1 := k.(time := Count(k.time));
            S.Processed(k) == if k1.time.tick >= k1.time.next
                              then S.AddReadyAll(k1.(time := Expire(k1.time)), Expired(k1.time)) else k1
    ensures k.depth == 0 ==> S.TickInterrupt(k) == S.Processed(k)
    ensures Woken(k.time) == Expired(Count(k.time))
    ensures Count(k.time).tick < Count(k.time).next ==> !S.AnyPreempting(k.(time := Count(k.time)), Woken(k.time))
  {
  }

  lemma LevelsKept(k: S.Kernel, ts: seq<Task>, k': S.Kernel)
    requires k'.prio == k.prio && |k'.ready| == |k.ready| && k'.current == k.current
    ensures S.AnyPreempting(k, ts) == S.AnyPreempting(k', ts)
  {
    forall i | 0 <= i < |ts|
      ensures S.Preempting(k, ts[i]) == S.Preempting(k', ts[i])
    {
    }
  }

  lemma SwapReady(k: S.Kernel, clock: int, due: map<Task, int>)
    requires Inv(k, clock, due)
    ensures k.time.tick < M && (k.time.tick + 1 == M ==> k.time.delayed == [])
  {
    if k.time.tick + 1 == M {
      EmptyAtSwap(k.time, clock, due);
    }
  }

  lemma TickIs(k: S.Kernel)
    requires Enabled(k, TickInt)
    ensures Next(k, TickInt) == S.TickInterrupt(k)
  {
  }

  lemma BlockingIs(k: S.Kernel, ticks: nat, indefinitely: bool)
    requires Enabled(k, Blocking(ticks, indefinitely))
    ensures Next(k, Blocking(ticks, indefinitely)) == S.Block(k, ticks, indefinitely)
  {
  }

  lemma UnblockIs(k: S.Kernel, t: Task)
    requires Enabled(k, Unblock(t))
    ensures Next(k, Unblock(t)) == S.Event(k, t)
  {
  }

  lemma UnblockNowIs(k: S.Kernel, t: Task)
    requires Enabled(k, UnblockNow(t))
    ensures Next(k, UnblockNow(t)) == S.EventNow(k, t)
  {
  }

  lemma UnblockedNowLive(k: S.Kernel, clock: int, due: map<Task, int>, t: Task)
    requires Inv(k, clock, due) && Enabled(k, UnblockNow(t))
    ensures t in k.prio && t !in k.terminated
  {
    SleepersAre(k.time, clock, due, t);
    AsleepLive(k, clock, due, t);
  }

  lemma SetPriorityIs(k: S.Kernel, t: Task, p: nat)
    requires Enabled(k, SetPriority(t, p))
    ensures Next(k, SetPriority(t, p)) == S.Reprioritise(k, t, p)
  {
  }

  lemma ReadyLive(k: S.Kernel, clock: int, due: map<Task, int>, t: Task)
    requires Inv(k, clock, due) && t in k.ready[S.Level(k, t)].items
    ensures t in k.prio && t !in k.terminated
  {
    InReadyLive(k, clock, due, t);
  }

  lemma CurrentLive(k: S.Kernel, clock: int, due: map<Task, int>, ticks: nat, indefinitely: bool)
    requires Inv(k, clock, due) && Enabled(k, Blocking(ticks, indefinitely))
    ensures k.current in k.prio && k.current !in k.terminated
  {
    InReadyLive(k, clock, due, k.current);
  }

  lemma UnblockedLive(k: S.Kernel, clock: int, due: map<Task, int>, t: Task)
    requires Inv(k, clock, due) && Enabled(k, Unblock(t))
    ensures t in k.prio && t !in k.terminated
  {
    SleepersAre(k.time, clock, due, t);
    AsleepLive(k, clock, due, t);
  }

  lemma FromRing(r: WalkedRing<Task>, t: Task)
    ensures t in r.items ==> S.RemoveFromRing(r, t) == RemoveAt(r, S.IndexOf(r.items, t))
  {
  }

  lemma {:induction false} WithoutNone(list: seq<Item<Task>>, t: Task)
    requires t !in Owners(list)
    ensures WithoutOwner(list, t) == list
  {
    if list != [] {
      assert Owners(list)[0] != t;
      assert Owners(list)[1..] == Owners(list[1..]);
      WithoutNone(list[1..], t);
    }
  }

  // A task in one of the lists is in none of the others.
  lemma InOneList(k: S.Kernel, t: Task)
    requires L.ReadyOk(k.ready, k.top, k.prio) && L.StateLists(k)[t] == 1 && t !in k.terminated && t in k.prio
    ensures var p := S.Level(k, t);
            var r, d, o, s := t in k.ready[p].items, t in Owners(k.time.delayed), t in Owners(k.time.overflow), t in k.suspended;
            && (r || d || o || s) && (r ==> !d && !o && !s) && (d ==> !o && !s) && (o ==> !s)
            && (!d ==> WithoutOwner(k.time.delayed, t) == k.time.delayed)
            && (!o ==> WithoutOwner(k.time.overflow, t) == k.time.overflow)
            && (!s ==> Without(k.suspended, t) == k.suspended)
            && (!r ==> S.RemoveFromRing(k.ready[p], t) == k.ready[p])
  {
    hide L.ReadyTasks, Owners;
    var p := S.Level(k, t);
    L.AtLevel(k.ready, p, t);
    if t !in Owners(k.time.delayed) {
      WithoutNone(k.time.delayed, t);
    }
    if t !in Owners(k.time.overflow) {
      WithoutNone(k.time.overflow, t);
    }
    if t !in k.suspended {
      WithoutAbsent(k.suspended, t);
    }
    assert multiset(Sleepers(k.time))[t] == multiset(Owners(k.time.delayed))[t] + multiset(Owners(k.time.overflow))[t];
    assert t in k.ready[p].items <==> multiset(k.ready[p].items)[t] > 0;
    assert t in k.suspended <==> multiset(k.suspended)[t] > 0;
    assert multiset(k.terminated)[t] == 0;
  }
}
