/**
 Runs of the scheduler: every operation keeps the conservation and timing
 invariants, so over any run a task that delayed itself becomes ready in the
 processing of exactly the tick it asked for.
 */
module KernelRuns {
  import opened Rings
  import opened KernelTime
  import opened KernelTypes
  import opened Sequences
  import opened KernelState
  import opened KernelLists

  // ---- What the helper loops leave alone ----

  ghost predicate SameElsewhere(k: Kernel, k': Kernel) {
    && k'.suspended == k.suspended && k'.terminated == k.terminated && k'.number == k.number && k'.prio == k.prio
    && k'.current == k.current && k'.depth == k.depth && k'.running == k.running && |k'.ready| == |k.ready|
  }

  lemma {:induction false} AddReadyAllPlaced(k: Kernel, ts: seq<Task>)
    requires Placed(k, multiset(ts)) && forall t | t in ts :: t in k.prio
    ensures Placed(AddReadyAll(k, ts), multiset{})
    ensures SameElsewhere(k, AddReadyAll(k, ts))
    ensures var r := AddReadyAll(k, ts); r.time == k.time && r.pendingReady == k.pendingReady && r.pended == k.pended
    decreases |ts|
  {
    hide Placed;
    if ts == [] {
      assert multiset(ts) == multiset{};
    } else {
      AddReadyPlaced(k, ts[0], multiset(ts));
      assert ts == [ts[0]] + ts[1..];
      assert multiset(ts) - multiset{ts[0]} == multiset(ts[1..]);
      AddReadyAllPlaced(AddReady(k, ts[0]), ts[1..]);
    }
  }

  lemma CountSleepers(t: Time)
    ensures multiset(Sleepers(Count(t))) == multiset(Sleepers(t))
  {
    hide Owners, HeadValue;
  }

  lemma TickSleepers(t: Time)
    ensures multiset(Sleepers(Tick(t))) + multiset(Woken(t)) == multiset(Sleepers(t))
  {
    hide Owners, HeadValue, Slot, Count;
    var c := Count(t);
    CountSleepers(t);
    SplitOwners(c.delayed, Slot(c.delayed, c.tick));
  }

  // Live tasks: those in the lists.
  lemma Live(k: Kernel, x: Task)
    requires Placed(k, multiset{})
    ensures x in k.prio <==> StateLists(k)[x] == 1
    ensures StateLists(k)[x] <= 1
  {
    assert StateLists(k)[x] == multiset(k.prio.Keys)[x];
  }

  lemma ProcessedPlaced(k: Kernel)
    requires Placed(k, multiset{})
    ensures Placed(Processed(k), multiset{}) && SameElsewhere(k, Processed(k))
    ensures Processed(k).time == Tick(k.time)
    ensures Processed(k).pendingReady == k.pendingReady && Processed(k).pended == k.pended
  {
    hide ReadyOk, ReadyTasks, Tick, Woken, Sleepers;
    var k1, ts := k.(time := Tick(k.time)), Woken(k.time);
    TickSleepers(k.time);
    assert StateLists(k1) + multiset(ts) == StateLists(k);
    forall t | t in ts
      ensures t in k.prio
    {
      assert t in multiset(Sleepers(k.time));
      Live(k, t);
    }
    AddReadyAllPlaced(k1, ts);
  }

  lemma LaterTwice(due: map<Task, int>, a: int, b: int)
    requires a <= b
    ensures Later(Later(due, a), b) == Later(due, b)
  {
  }

  lemma LaterNow(t: Time, clock: int, due: map<Task, int>)
    requires Tells(t, clock, due, clock)
    ensures Later(due, clock) == due
  {
  }

  lemma {:induction false} CatchUpKeeps(k: Kernel, ticks: nat, clock: int, due: map<Task, int>)
    requires Placed(k, multiset{}) && Tells(k.time, clock, due, clock)
    ensures var k' := CatchUp(k, ticks);
            && Placed(k', multiset{}) && SameElsewhere(k, k') && k'.pendingReady == k.pendingReady && k'.pended == 0
            && Tells(k'.time, clock + ticks, Later(due, clock + ticks), clock + ticks)
    decreases ticks
  {
    hide Placed, Tells, Processed, SwitchRequired, Tick;
    if ticks == 0 {
      LaterNow(k.time, clock, due);
      YieldPlaced(k, k.(pended := 0));
    } else {
      var k1 := Processed(k);
      var k2 := k1.(yieldPending := k.yieldPending || SwitchRequired(k1, Woken(k.time)));
      ProcessedPlaced(k);
      YieldPlaced(k1, k2);
      TickTells(k.time, clock, due);
      LaterTwice(due, clock + 1, clock + ticks);
      CatchUpKeeps(k2, ticks - 1, clock + 1, Later(due, clock + 1));
    }
  }

  lemma YieldPlaced(k: Kernel, k': Kernel)
    requires Placed(k, multiset{}) && SameElsewhere(k, k') && k'.time == k.time && k'.ready == k.ready && k'.top == k.top
    ensures Placed(k', multiset{})
  {
  }

  ghost predicate SuspendedWithin(k: Kernel, k': Kernel) {
    && (forall t | t in k'.suspended :: t in k.suspended)
    && k'.terminated == k.terminated && k'.number == k.number && k'.prio == k.prio
    && k'.current == k.current && k'.depth == k.depth && k'.running == k.running && |k'.ready| == |k.ready|
  }

  function MoveToReady(k: Kernel, t: Task): Kernel {
    AddReady(RemoveState(k, t), t)
  }

  lemma MoveKeeps(k: Kernel, clock: int, due: map<Task, int>, t: Task)
    requires Placed(k, multiset{}) && Tells(k.time, clock, due, clock) && t in k.prio && t !in k.terminated
    ensures var k' := MoveToReady(k, t);
            && Placed(k', multiset{}) && Tells(k'.time, clock, due - {t}, clock)
            && SuspendedWithin(k, k') && k'.suspended == Without(k.suspended, t) && k'.time == RemoveSleeper(k.time, t)
            && k'.pendingReady == k.pendingReady && k'.pended == k.pended
  {
    hide Placed, Tells, RemoveSleeper, Without, RemoveFromRing;
    RemoveStatePlaced(k, t);
    AddReadyPlaced(RemoveState(k, t), t, multiset{t});
    assert multiset{t} - multiset{t} == multiset{};
    RemoveTells(k.time, clock, due, t);
    WithoutSubset(k.suspended, t);
  }

  // Asleep with or without a wake time, hence live and not terminated.
  ghost predicate Asleep(k: Kernel, due: map<Task, int>, t: Task) {
    t in due || t in k.suspended
  }

  lemma AsleepLive(k: Kernel, clock: int, due: map<Task, int>, t: Task)
    requires Placed(k, multiset{}) && Tells(k.time, clock, due, clock) && Asleep(k, due, t)
    ensures t in k.prio && t !in k.terminated
  {
    Live(k, t);
    assert multiset(Sleepers(k.time))[t] == multiset(due.Keys)[t];
  }

  ghost predicate Different(ts: seq<Task>) {
    forall i, j | 0 <= i < j < |ts| :: ts[i] != ts[j]
  }

  ghost function Set(ts: seq<Task>): set<Task> {
    set t | t in ts
  }

  // What the drain of the pending-ready list starts from, and keeps.
  ghost predicate Drainable(k: Kernel, clock: int, due: map<Task, int>) {
    && Placed(k, multiset{}) && Tells(k.time, clock, due, clock)
    && Different(k.pendingReady) && forall t | t in k.pendingReady :: Asleep(k, due, t)
  }

  lemma DrainOneKeeps(k: Kernel, clock: int, due: map<Task, int>)
    requires Drainable(k, clock, due) && k.pendingReady != []
    ensures var t, k' := k.pendingReady[0], DrainOne(k);
            && t in k.prio && t !in k.terminated && Drainable(k', clock, due - {t})
            && SuspendedWithin(k, k') && k'.pended == k.pended
            && due - Set(k.pendingReady) == due - {t} - Set(k'.pendingReady)
  {
    hide Placed, Tells, AddReady, RemoveState, Without, RemoveSleeper;
    var t, rest := k.pendingReady[0], k.pendingReady[1..];
    var k0 := k.(pendingReady := rest);
    AsleepLive(k, clock, due, t);
    YieldPlaced(k, k0);
    MoveKeeps(k0, clock, due, t);
    WithoutSubset(k.suspended, t);
    YieldPlaced(MoveToReady(k0, t), DrainOne(k));
    forall u | u in rest
      ensures Asleep(DrainOne(k), due - {t}, u)
    {
      assert Asleep(k, due, u) && u != t;
    }
    assert Set(k.pendingReady) == {t} + Set(rest);
  }

  lemma {:induction false} DrainKeeps(k: Kernel, clock: int, due: map<Task, int>)
    requires Drainable(k, clock, due)
    ensures var k' := Drain(k);
            && Placed(k', multiset{}) && Tells(k'.time, clock, due - Set(k.pendingReady), clock)
            && SuspendedWithin(k, k') && k'.pendingReady == [] && k'.pended == k.pended
    decreases |k.pendingReady|
  {
    hide Placed, Tells, DrainOne, Different, Asleep;
    if k.pendingReady == [] {
      assert due - Set(k.pendingReady) == due;
    } else {
      DrainOneKeeps(k, clock, due);
      DrainKeeps(DrainOne(k), clock, due - {k.pendingReady[0]});
    }
  }

  lemma ResetTells(t: Time, clock: int, due: map<Task, int>)
    requires Tells(t, clock, due, clock)
    ensures Tells(ResetNext(t), clock, due, clock)
  {
    ValuesBelow(t.delayed, clock - t.tick, due);
    hide Filed, Sleepers;
    assert Sleepers(ResetNext(t)) == Sleepers(t) by { SameSleepers(t); }
  }

  lemma SameSleepers(t: Time)
    ensures Sleepers(ResetNext(t)) == Sleepers(t)
  {
  }

  // ---- Operations ----

  datatype Action =
    | Blocking(ticks: nat, indefinitely: bool)
    | Unblock(t: Task)
    | UnblockNow(t: Task)
    | SetPriority(t: Task, p: nat)
    | StartScheduler(initialTick: nat)
    | TickInt
    | SuspendScheduler
    | ResumeScheduler
    | SwitchContext
    | CreateTask(t: Task, p: nat)
    | SuspendIt(t: Task)
    | ResumeIt(t: Task)
    | DeleteIt(t: Task)
    | FreeTerminated

  ghost predicate Enabled(k: Kernel, a: Action) {
    match a
    case Blocking(ticks, _) => k.running && 1 <= ticks < M && k.current in k.ready[Level(k, k.current)].items
    case Unblock(t) => t in multiset(Sleepers(k.time)) + multiset(k.suspended) && t !in k.pendingReady
    case UnblockNow(t) => t in multiset(Sleepers(k.time)) + multiset(k.suspended) && t !in k.pendingReady && k.depth > 0
    case SetPriority(t, p) => t in k.prio && p < |k.ready|
    case StartScheduler(initialTick) => !k.running && initialTick < M
    case TickInt => k.running
    case SuspendScheduler => true
    case ResumeScheduler => k.depth > 0 && k.number > 0
    case SwitchContext => k.depth == 0 ==> SomethingReady(k)
    case CreateTask(t, p) => t !in k.prio && t != NOBODY && p < |k.ready|
    case SuspendIt(t) =>
      && t in k.prio && t !in k.terminated && (t == k.current && k.running ==> k.depth == 0)
      && (ChoosesAgain(k, t) && |Suspended(k, t).suspended| != k.number && k.depth == 0 ==> SomethingReady(Suspended(k, t)))
    case ResumeIt(t) => t in k.suspended && t !in k.pendingReady && t != k.current
    case DeleteIt(t) => t in k.prio && t !in k.terminated && (t == k.current ==> k.running)
    case FreeTerminated => k.terminated != []
  }

  ghost function Next(k: Kernel, a: Action): Kernel
    requires Enabled(k, a)
  {
    match a
    case Blocking(ticks, indefinitely) => Block(k, ticks, indefinitely)
    case Unblock(t) => Event(k, t)
    case UnblockNow(t) => EventNow(k, t)
    case SetPriority(t, p) => Reprioritise(k, t, p)
    case StartScheduler(initialTick) => Start(k, initialTick)
    case TickInt => TickInterrupt(k)
    case SuspendScheduler => k.(depth := k.depth + 1)
    case ResumeScheduler => ResumeAll(k)
    case SwitchContext => Switch(k)
    case CreateTask(t, p) => Create(k, t, p)
    case SuspendIt(t) => SuspendTask(k, t)
    case ResumeIt(t) => ResumeTask(k, t)
    case DeleteIt(t) => Delete(k, t)
    case FreeTerminated => CleanUp(k)
  }

  ghost predicate Resumes(k: Kernel) {
    k.depth == 1
  }

  // The absolute time: processed ticks.
  ghost function ClockAfter(k: Kernel, clock: int, a: Action): int {
    match a
    case TickInt => if k.depth == 0 then clock + 1 else clock
    case ResumeScheduler => if Resumes(k) then clock + k.pended else clock
    case _ => clock
  }

  // The absolute wake times.
  ghost function DueAfter(k: Kernel, clock: int, due: map<Task, int>, a: Action): map<Task, int> {
    match a
    case Blocking(ticks, indefinitely) => if ticks == MAX_DELAY && indefinitely then due else due[k.current := clock + ticks]
    case Unblock(t) => if k.depth == 0 then due - {t} else due
    case UnblockNow(t) => due - {t}
    case TickInt => if k.depth == 0 then Later(due, clock + 1) else due
    case ResumeScheduler => if Resumes(k) then Later(due - Set(k.pendingReady), clock + k.pended) else due
    case SuspendIt(t) => due - {t}
    case ResumeIt(t) => due - {t}
    case DeleteIt(t) => due - {t}
    case _ => due
  }

  ghost predicate PendingOk(k: Kernel, due: map<Task, int>) {
    && (k.depth == 0 ==> k.pendingReady == [] && k.pended == 0)
    && Different(k.pendingReady) && forall t | t in k.pendingReady :: Asleep(k, due, t)
  }

  ghost predicate Inv(k: Kernel, clock: int, due: map<Task, int>) {
    && Placed(k, multiset{}) && k.number == |k.prio| && Tells(k.time, clock, due, clock) && PendingOk(k, due)
    && (k.running || due == map[])
  }

  // Before the first task is created, at any initial tick count.
  function Fresh(priorities: nat, tick: nat): Kernel
    requires priorities > 0
  {
    State(Time(tick, [], [], 0, 0), seq(priorities, _ => Ring([], 0)), 0, 0, [], [], [], 0, 0, false, 0, map[], false)
  }

  lemma FreshInv(priorities: nat, tick: nat)
    requires priorities > 0 && tick < M
    ensures Inv(Fresh(priorities, tick), tick, map[])
  {
    var k := Fresh(priorities, tick);
    forall x: Task
      ensures ReadyTasks(k.ready)[x] == 0
    {
      Nowhere(k.ready, x);
    }
  }

  // ---- Every operation keeps the invariant ----

  lemma InReadyLive(k: Kernel, clock: int, due: map<Task, int>, t: Task)
    requires Placed(k, multiset{}) && Tells(k.time, clock, due, clock) && t in k.ready[Level(k, t)].items
    ensures t in k.prio && t !in k.terminated && t !in k.suspended && t !in due
  {
    var p := Level(k, t);
    InReadyTasks(k.ready, p, t);
    Live(k, t);
    assert multiset(Sleepers(k.time))[t] == multiset(due.Keys)[t];
  }

  lemma {:induction false} InReadyTasks(ready: seq<WalkedRing<Task>>, p: nat, t: Task)
    requires p < |ready| && t in ready[p].items
    ensures ReadyTasks(ready)[t] > 0
  {
    if p > 0 {
      InReadyTasks(ready[1..], p - 1, t);
    }
  }

  lemma SuspendedPlaced(k: Kernel, k': Kernel, t: Task)
    requires Placed(k, multiset{t}) && k' == k.(suspended := k.suspended + [t])
    ensures Placed(k', multiset{})
  {
    hide ReadyOk, ReadyTasks, Sleepers;
    assert StateLists(k') == StateLists(k) + multiset{t};
  }

  lemma DelayedPlaced(k: Kernel, t: Task, ticks: nat)
    requires Placed(k, multiset{t})
    ensures Placed(k.(time := AddDelayed(k.time, t, ticks)), multiset{})
  {
    hide ReadyOk, ReadyTasks, Sleepers, AddDelayed;
    AddSleepers(k.time, t, ticks);
    assert StateLists(k.(time := AddDelayed(k.time, t, ticks))) == StateLists(k) + multiset{t};
  }

  lemma PendingStays(k: Kernel, due: map<Task, int>, k': Kernel, due': map<Task, int>)
    requires PendingOk(k, due) && k'.pendingReady == k.pendingReady && k'.pended == k.pended && k'.depth == k.depth
    requires forall t | t in k.pendingReady && Asleep(k, due, t) :: Asleep(k', due', t)
    ensures PendingOk(k', due')
  {
  }

  lemma BlockKeeps(k: Kernel, clock: int, due: map<Task, int>, ticks: nat, indefinitely: bool)
    requires Inv(k, clock, due) && Enabled(k, Blocking(ticks, indefinitely))
    ensures Inv(Block(k, ticks, indefinitely), clock, DueAfter(k, clock, due, Blocking(ticks, indefinitely)))
  {
    hide Placed, Tells, PendingOk, RemoveSleeper, RemoveFromRing, Without, AddDelayed;
    var t, k1 := k.current, RemoveState(k, k.current);
    var due' := DueAfter(k, clock, due, Blocking(ticks, indefinitely));
    InReadyLive(k, clock, due, t);
    RemoveStatePlaced(k, t);
    RemoveTells(k.time, clock, due, t);
    assert due - {t} == due;
    WithoutSubset(k.suspended, t);
    if ticks == MAX_DELAY && indefinitely {
      SuspendedPlaced(k1, k1.(suspended := k1.suspended + [t]), t);
    } else {
      DelayedPlaced(k1, t, ticks);
      AddTells(k1.time, clock, due, t, ticks);
    }
    forall u | Asleep(k, due, u)
      ensures Asleep(Block(k, ticks, indefinitely), due', u)
    {
    }
    PendingStays(k, due, Block(k, ticks, indefinitely), due');
  }

  lemma UnblockKeeps(k: Kernel, clock: int, due: map<Task, int>, t: Task)
    requires Inv(k, clock, due) && Enabled(k, Unblock(t))
    ensures Inv(Event(k, t), clock, DueAfter(k, clock, due, Unblock(t)))
  {
    hide Placed, Tells, RemoveSleeper, RemoveFromRing, AddReady, RemoveState;
    assert t in due || t in k.suspended by { SleepersAre(k.time, clock, due, t); }
    AsleepLive(k, clock, due, t);
    if k.depth == 0 {
      MoveKeeps(k, clock, due, t);
      YieldPlaced(MoveToReady(k, t), Event(k, t));
    } else {
      YieldPlaced(k, Event(k, t));
    }
  }

  lemma UnblockNowKeeps(k: Kernel, clock: int, due: map<Task, int>, t: Task)
    requires Inv(k, clock, due) && Enabled(k, UnblockNow(t))
    ensures Inv(EventNow(k, t), clock, due - {t})
  {
    hide Placed, Tells, PendingOk, RemoveSleeper, Without, AddReady, RemoveState;
    assert t in due || t in k.suspended by { SleepersAre(k.time, clock, due, t); }
    AsleepLive(k, clock, due, t);
    MoveKeeps(k, clock, due, t);
    YieldPlaced(MoveToReady(k, t), EventNow(k, t));
    WithoutSubset(k.suspended, t);
    PendingStays(k, due, EventNow(k, t), due - {t});
  }

  // ---- Changes of priority ----

  lemma RepriorOk(ready: seq<WalkedRing<Task>>, top: nat, prio: map<Task, nat>, t: Task, p: nat)
    requires ReadyOk(ready, top, prio) && ReadyTasks(ready)[t] == 0 && p < |ready|
    ensures ReadyOk(ready, top, prio[t := p])
  {
    var prio' := prio[t := p];
    NotReady(ready, t);
    forall q, x | 0 <= q < |ready| && x in ready[q].items
      ensures x in prio' && prio'[x] == q && q <= top
    {
      assert x in prio && x != t;
    }
  }

  lemma RepriorPlaced(k: Kernel, t: Task, p: nat, between: multiset<Task>)
    requires Placed(k, between) && t in k.prio && ReadyTasks(k.ready)[t] == 0 && p < |k.ready|
    ensures Placed(k.(prio := k.prio[t := p]), between) && |k.prio[t := p]| == |k.prio|
  {
    hide StateLists, ReadyOk;
    RepriorOk(k.ready, k.top, k.prio, t, p);
    assert k.prio[t := p].Keys == k.prio.Keys;
    SameLists(k, k.(prio := k.prio[t := p]));
    SameSize(k.prio, k.prio[t := p]);
  }

  lemma SameSize(a: map<Task, nat>, b: map<Task, nat>)
    requires a.Keys == b.Keys
    ensures |a| == |b|
  {
    assert |a.Keys| == |a| && |b.Keys| == |b|;
  }

  lemma NotAtLevel(k: Kernel, t: Task)
    requires ReadyOk(k.ready, k.top, k.prio) && t in k.prio && t !in k.ready[Level(k, t)].items
    ensures ReadyTasks(k.ready)[t] == 0
  {
    Nowhere(k.ready, t);
  }

  lemma BetweenNotReady(k: Kernel, t: Task)
    requires Placed(k, multiset{t})
    ensures ReadyTasks(k.ready)[t] == 0
  {
    assert (StateLists(k) + multiset{t})[t] == multiset(k.prio.Keys)[t];
    NoneReady(k, t);
  }

  lemma PlacedOk(k: Kernel, between: multiset<Task>)
    requires Placed(k, between)
    ensures ReadyOk(k.ready, k.top, k.prio)
  {
  }

  lemma SetPriorityKeeps(k: Kernel, clock: int, due: map<Task, int>, t: Task, p: nat)
    requires Inv(k, clock, due) && Enabled(k, SetPriority(t, p))
    ensures Inv(Reprioritise(k, t, p), clock, due)
  {
    hide Placed, Tells, PendingOk, RemoveSleeper, RemoveFromRing, Without, AddReady, ReadyTasks, ReadyOk;
    if t in k.ready[Level(k, t)].items {
      var k1 := RemoveState(k, t);
      var k2 := k1.(prio := k.prio[t := p]);
      InReadyLive(k, clock, due, t);
      RemoveStatePlaced(k, t);
      RemoveTells(k.time, clock, due, t);
      assert due - {t} == due;
      BetweenNotReady(k1, t);
      RepriorPlaced(k1, t, p, multiset{t});
      AddReadyPlaced(k2, t, multiset{t});
      assert multiset{t} - multiset{t} == multiset{};
      AddReadyFrame(k2, t);
      WithoutSubset(k.suspended, t);
      PendingStays(k, due, Reprioritise(k, t, p), due);
    } else {
      PlacedOk(k, multiset{});
      NotAtLevel(k, t);
      RepriorPlaced(k, t, p, multiset{});
      PendingStays(k, due, Reprioritise(k, t, p), due);
    }
  }

  // Nobody sleeps yet, so that the count may be set.
  lemma StartKeeps(k: Kernel, clock: int, due: map<Task, int>, initialTick: nat)
    requires Inv(k, clock, due) && Enabled(k, StartScheduler(initialTick))
    ensures Inv(Start(k, initialTick), clock, due)
  {
    hide ReadyOk, ReadyTasks;
    var t, t' := k.time, Start(k, initialTick).time;
    assert |Sleepers(t)| == |multiset(Sleepers(t))| == 0;
    assert Sleepers(t') == Sleepers(t) == [];
  }

  lemma SleepersAre(t: Time, clock: int, due: map<Task, int>, x: Task)
    requires Tells(t, clock, due, clock)
    ensures x in multiset(Sleepers(t)) <==> x in due
  {
    assert multiset(Sleepers(t))[x] == multiset(due.Keys)[x];
  }

  lemma TickKeeps(k: Kernel, clock: int, due: map<Task, int>)
    requires Inv(k, clock, due) && k.running
    ensures Inv(TickInterrupt(k), ClockAfter(k, clock, TickInt), DueAfter(k, clock, due, TickInt))
  {
    hide Placed, Tells, Processed, Tick;
    if k.depth == 0 {
      ProcessedPlaced(k);
      TickTells(k.time, clock, due);
    } else {
      YieldPlaced(k, TickInterrupt(k));
    }
  }

  lemma ResumeKeeps(k: Kernel, clock: int, due: map<Task, int>)
    requires Inv(k, clock, due) && k.depth > 0 && k.number > 0
    ensures Inv(ResumeAll(k), ClockAfter(k, clock, ResumeScheduler), DueAfter(k, clock, due, ResumeScheduler))
    ensures SuspendedWithin(k.(depth := k.depth - 1), ResumeAll(k))
  {
    hide Placed, Tells, Drain, CatchUp, ResetNext, Different;
    var k1 := k.(depth := k.depth - 1);
    YieldPlacedAt(k, k1);
    if Resumes(k) {
      DrainKeeps(k1, clock, due);
      var k2 := Drain(k1);
      ResetTells(k2.time, clock, due - Set(k.pendingReady));
      ResetPlaced(k2);
      assert Drained(k1).time == (if k.pendingReady == [] then k2.time else ResetNext(k2.time));
      CatchUpKeeps(Drained(k1), k.pended, clock, due - Set(k.pendingReady));
      NoneDifferent();
    }
  }

  lemma NoneDifferent()
    ensures Different([])
  {
  }

  lemma ResetPlaced(k: Kernel)
    requires Placed(k, multiset{})
    ensures Placed(k.(time := ResetNext(k.time)), multiset{})
  {
  }

  lemma YieldPlacedAt(k: Kernel, k': Kernel)
    requires Placed(k, multiset{}) && k'.ready == k.ready && k'.top == k.top && k'.time == k.time && k'.prio == k.prio
    requires k'.suspended == k.suspended && k'.terminated == k.terminated
    ensures Placed(k', multiset{})
  {
  }

  lemma SwitchKeeps(k: Kernel, clock: int, due: map<Task, int>)
    requires Inv(k, clock, due) && (k.depth == 0 ==> SomethingReady(k))
    ensures Inv(Switch(k), clock, due)
  {
    hide Tells, Placed;
    if k.depth > 0 {
      YieldPlacedAt(k, Switch(k));
    } else {
      SwitchPlaced(k);
    }
  }

  lemma SwitchOk(k: Kernel)
    requires ReadyOk(k.ready, k.top, k.prio) && k.depth == 0 && SomethingReady(k)
    ensures ReadyOk(Switch(k).ready, Switch(k).top, k.prio)
  {
    hide HighestFrom;
    var k', p := Switch(k), HighestFrom(k.ready, k.top);
    assert forall q | 0 <= q < |k.ready| :: k'.ready[q].items == k.ready[q].items;
    forall q, x | 0 <= q < |k'.ready| && x in k'.ready[q].items
      ensures x in k.prio && k.prio[x] == q && q <= k'.top
    {
      assert x in k.ready[q].items && k.ready[q].items != [];
    }
  }

  lemma SwitchLists(k: Kernel)
    requires k.depth == 0 && SomethingReady(k)
    ensures StateLists(Switch(k)) == StateLists(k)
  {
    hide HighestFrom, Sleepers, ReadyTasks;
    var p := HighestFrom(k.ready, k.top);
    var r: WalkedRing<Task> := Advance(k.ready[p]);
    forall x: Task
      ensures StateLists(Switch(k))[x] == StateLists(k)[x]
    {
      ReadyUpdate(k.ready, p, r, x);
    }
  }

  lemma SwitchPlaced(k: Kernel)
    requires Placed(k, multiset{}) && k.depth == 0 && SomethingReady(k)
    ensures Placed(Switch(k), multiset{})
  {
    hide ReadyOk, StateLists;
    SwitchOk(k);
    SwitchLists(k);
  }

  lemma CreateKeeps(k: Kernel, clock: int, due: map<Task, int>, t: Task, p: nat)
    requires Inv(k, clock, due) && Enabled(k, CreateTask(t, p))
    ensures Inv(Create(k, t, p), clock, due)
  {
    hide Tells, Placed, AddReady;
    var chosen := k.current == NOBODY || (!k.running && Level(k, k.current) <= p);
    var k1 := k.(number := k.number + 1, prio := k.prio[t := p], current := if chosen then t else k.current);
    NewPlaced(k, k1, t, p);
    AddReadyPlaced(k1, t, multiset{t});
    assert multiset{t} - multiset{t} == multiset{};
    NewKeys(k.prio, t, p);
    AddReadyFrame(k1, t);
  }

  lemma AddReadyFrame(k: Kernel, t: Task)
    ensures var r := AddReady(k, t);
            && r.time == k.time && r.pendingReady == k.pendingReady && r.pended == k.pended && r.number == k.number
            && r.prio == k.prio && r.suspended == k.suspended && r.terminated == k.terminated && r.depth == k.depth
            && r.running == k.running
  {
  }

  lemma NewOk(ready: seq<WalkedRing<Task>>, top: nat, prio: map<Task, nat>, t: Task, p: nat)
    requires ReadyOk(ready, top, prio) && t !in prio && p < |ready|
    ensures ReadyOk(ready, top, prio[t := p])
  {
    var prio' := prio[t := p];
    forall q, x | 0 <= q < |ready| && x in ready[q].items
      ensures x in prio' && prio'[x] == q && q <= top
    {
      assert x in prio && x != t;
    }
  }

  lemma NewKeys(prio: map<Task, nat>, t: Task, p: nat)
    requires t !in prio
    ensures multiset(prio[t := p].Keys) == multiset(prio.Keys) + multiset{t} && |prio[t := p]| == |prio| + 1
  {
    assert prio[t := p].Keys == prio.Keys + {t};
  }

  lemma NewPlaced(k: Kernel, k': Kernel, t: Task, p: nat)
    requires Placed(k, multiset{}) && t !in k.prio && p < |k.ready|
    requires k' == k.(number := k.number + 1, prio := k.prio[t := p], current := k'.current)
    ensures Placed(k', multiset{t})
  {
    hide StateLists, ReadyOk;
    SameLists(k, k');
    NewOk(k.ready, k.top, k.prio, t, p);
    NewKeys(k.prio, t, p);
    assert StateLists(k) + multiset{} == StateLists(k);
  }

  lemma SameLists(k: Kernel, k': Kernel)
    requires k'.ready == k.ready && k'.time == k.time && k'.suspended == k.suspended && k'.terminated == k.terminated
    ensures StateLists(k') == StateLists(k)
  {
  }

  lemma PendingWithout(k: Kernel, due: map<Task, int>, k': Kernel, t: Task)
    requires PendingOk(k, due) && k'.pendingReady == Without(k.pendingReady, t) && k'.depth == k.depth && k'.pended == k.pended
    requires forall u | u in k.suspended && u != t :: u in k'.suspended
    ensures PendingOk(k', due - {t})
  {
    WithoutDifferent(k.pendingReady, t);
    WithoutSubset(k.pendingReady, t);
  }

  lemma {:induction false} WithoutDifferent(ts: seq<Task>, t: Task)
    requires Different(ts)
    ensures Different(Without(ts, t)) && t !in Without(ts, t)
  {
    if ts != [] {
      var rest := ts[1..];
      assert Different(rest) && ts[0] !in rest;
      WithoutDifferent(rest, t);
      WithoutSubset(rest, t);
    }
  }

  lemma SuspendedKeeps(k: Kernel, clock: int, due: map<Task, int>, t: Task)
    requires Inv(k, clock, due) && Enabled(k, SuspendIt(t))
    ensures Inv(Suspended(k, t), clock, due - {t})
  {
    hide Placed, Tells, PendingOk, RemoveSleeper, RemoveFromRing, Without, ResetNext, SomethingReady;
    var k1 := RemoveState(k, t);
    RemoveStatePlaced(k, t);
    RemoveTells(k.time, clock, due, t);
    ResetTells(k1.time, clock, due - {t});
    WithoutSubset(k.suspended, t);
    var k2 := k1.(suspended := k1.suspended + [t]);
    SuspendedPlaced(k1, k2, t);
    ResetPlaced(k2);
    var k3 := k2.(time := Suspended(k, t).time);
    YieldPlacedAt(k3, Suspended(k, t));
    PendingWithout(k, due, Suspended(k, t), t);
  }

  lemma SuspendKeeps(k: Kernel, clock: int, due: map<Task, int>, t: Task)
    requires Inv(k, clock, due) && Enabled(k, SuspendIt(t))
    ensures Inv(SuspendTask(k, t), clock, due - {t})
  {
    hide Placed, Tells, PendingOk, Suspended, Switch, SomethingReady;
    var k' := Suspended(k, t);
    SuspendedKeeps(k, clock, due, t);
    if ChoosesAgain(k, t) {
      if |k'.suspended| == k.number {
        YieldPlacedAt(k', k'.(current := NOBODY));
        PendingStays(k', due - {t}, k'.(current := NOBODY), due - {t});
      } else {
        SuspendedDepth(k, t);
        SwitchKeeps(k', clock, due - {t});
      }
    }
  }

  lemma SuspendedDepth(k: Kernel, t: Task)
    ensures Suspended(k, t).depth == k.depth
  {
  }

  lemma ResumeTaskKeeps(k: Kernel, clock: int, due: map<Task, int>, t: Task)
    requires Inv(k, clock, due) && Enabled(k, ResumeIt(t))
    ensures Inv(ResumeTask(k, t), clock, due - {t})
  {
    hide Placed, Tells, PendingOk, RemoveSleeper, RemoveFromRing, Without, AddReady, RemoveState;
    AsleepLive(k, clock, due, t);
    MoveKeeps(k, clock, due, t);
    WithoutSubset(k.suspended, t);
    PendingStays(k, due, ResumeTask(k, t), due - {t});
  }

  lemma ForgottenOk(ready: seq<WalkedRing<Task>>, top: nat, prio: map<Task, nat>, t: Task)
    requires ReadyOk(ready, top, prio) && ReadyTasks(ready)[t] == 0
    ensures ReadyOk(ready, top, prio - {t})
  {
    var prio' := prio - {t};
    NotReady(ready, t);
    forall q, x | 0 <= q < |ready| && x in ready[q].items
      ensures x in prio' && prio'[x] == q && q <= top
    {
      assert x in prio && x != t;
    }
  }

  lemma ForgottenKeys(prio: map<Task, nat>, t: Task)
    requires t in prio
    ensures multiset((prio - {t}).Keys) + multiset{t} == multiset(prio.Keys)
    ensures |prio - {t}| == |prio| - 1
  {
    assert (prio - {t}).Keys == prio.Keys - {t};
  }

  lemma TerminatedPlaced(k: Kernel, k': Kernel, t: Task)
    requires Placed(k, multiset{t})
    requires k'.ready == k.ready && k'.top == k.top && k'.time == k.time && k'.suspended == k.suspended
    requires k'.terminated == k.terminated + [t] && k'.prio == k.prio
    ensures Placed(k', multiset{})
  {
    hide ReadyTasks, Sleepers, ReadyOk;
    assert StateLists(k') == StateLists(k) + multiset{t};
  }

  lemma ForgottenPlaced(k: Kernel, k': Kernel, t: Task)
    requires Placed(k, multiset{t}) && t in k.prio
    requires k'.ready == k.ready && k'.top == k.top && k'.time == k.time && k'.suspended == k.suspended
    requires k'.terminated == k.terminated && k'.prio == k.prio - {t}
    ensures Placed(k', multiset{})
  {
    hide StateLists, ReadyOk;
    assert ReadyTasks(k.ready)[t] == 0 by {
      assert (StateLists(k) + multiset{t})[t] == multiset(k.prio.Keys)[t];
      NoneReady(k, t);
    }
    ForgottenOk(k.ready, k.top, k.prio, t);
    ForgottenKeys(k.prio, t);
    SameLists(k, k');
    forall x: Task
      ensures StateLists(k')[x] == multiset(k'.prio.Keys)[x]
    {
      assert (StateLists(k) + multiset{t})[x] == multiset(k.prio.Keys)[x];
    }
  }

  lemma NoneReady(k: Kernel, t: Task)
    ensures StateLists(k)[t] == 0 ==> ReadyTasks(k.ready)[t] == 0
    ensures t in k.terminated && StateLists(k)[t] <= 1 ==> ReadyTasks(k.ready)[t] == 0
  {
  }

  lemma NotReady(ready: seq<WalkedRing<Task>>, t: Task)
    requires ReadyTasks(ready)[t] == 0
    ensures forall p | 0 <= p < |ready| :: t !in ready[p].items
  {
    forall p | 0 <= p < |ready|
      ensures t !in ready[p].items
    {
      if t in ready[p].items {
        InReadyTasks(ready, p, t);
      }
    }
  }

  lemma DeleteKeeps(k: Kernel, clock: int, due: map<Task, int>, t: Task)
    requires Inv(k, clock, due) && Enabled(k, DeleteIt(t))
    ensures Inv(Delete(k, t), clock, due - {t})
  {
    hide Placed, Tells, PendingOk, RemoveSleeper, RemoveFromRing, Without, ResetNext;
    var k1 := RemoveState(k, t);
    RemoveStatePlaced(k, t);
    RemoveTells(k.time, clock, due, t);
    ResetTells(k1.time, clock, due - {t});
    WithoutSubset(k.suspended, t);
    PendingWithout(k, due, Delete(k, t), t);
    if t == k.current {
      TerminatedPlaced(k1, Delete(k, t), t);
    } else {
      var k2 := k1.(number := Delete(k, t).number, prio := k.prio - {t}, pendingReady := Without(k.pendingReady, t));
      ForgottenPlaced(k1, k2, t);
      ResetPlaced(k2);
      ForgottenKeys(k.prio, t);
    }
  }

  lemma FreeKeeps(k: Kernel, clock: int, due: map<Task, int>)
    requires Inv(k, clock, due) && k.terminated != []
    ensures Inv(CleanUp(k), clock, due)
  {
    hide Tells, PendingOk, Placed;
    var t := k.terminated[0];
    FreePlaced(k, CleanUp(k), t);
    ForgottenKeys(k.prio, t);
    PendingSame(k, CleanUp(k), due);
  }

  lemma PendingSame(k: Kernel, k': Kernel, due: map<Task, int>)
    requires PendingOk(k, due) && k'.pendingReady == k.pendingReady && k'.pended == k.pended && k'.depth == k.depth
    requires k'.suspended == k.suspended
    ensures PendingOk(k', due)
  {
  }

  lemma FreePlaced(k: Kernel, k': Kernel, t: Task)
    requires Placed(k, multiset{}) && k.terminated != [] && t == k.terminated[0]
    requires k'.ready == k.ready && k'.top == k.top && k'.time == k.time && k'.suspended == k.suspended
    requires k'.terminated == k.terminated[1..] && k'.prio == k.prio - {t}
    ensures Placed(k', multiset{}) && t in k.prio
  {
    hide ReadyTasks, Sleepers, ReadyOk;
    Live(k, t);
    NoneReady(k, t);
    ForgottenOk(k.ready, k.top, k.prio, t);
    ForgottenKeys(k.prio, t);
    assert k.terminated == [t] + k.terminated[1..];
    forall x: Task
      ensures StateLists(k')[x] == multiset(k'.prio.Keys)[x]
    {
      assert StateLists(k)[x] == multiset(k.prio.Keys)[x];
    }
  }

  // ---- Runs ----

  // Every operation keeps every live task in exactly one list, the count, the ready hint, and the wake times.
  lemma StepKeeps(k: Kernel, clock: int, due: map<Task, int>, a: Action)
    requires Inv(k, clock, due) && Enabled(k, a)
    ensures Inv(Next(k, a), ClockAfter(k, clock, a), DueAfter(k, clock, due, a))
  {
    hide Inv, Block, Event, EventNow, Reprioritise, TickInterrupt, ResumeAll, Switch, Create, SuspendTask, ResumeTask, Delete, CleanUp;
    match a
    case Blocking(ticks, indefinitely) => BlockKeeps(k, clock, due, ticks, indefinitely);
    case Unblock(t) => UnblockKeeps(k, clock, due, t);
    case UnblockNow(t) => UnblockNowKeeps(k, clock, due, t);
    case SetPriority(t, p) => SetPriorityKeeps(k, clock, due, t, p);
    case StartScheduler(initialTick) => StartKeeps(k, clock, due, initialTick);
    case TickInt => TickKeeps(k, clock, due);
    case SuspendScheduler => SuspendSchedulerKeeps(k, clock, due);
    case ResumeScheduler => ResumeKeeps(k, clock, due);
    case SwitchContext => SwitchKeeps(k, clock, due);
    case CreateTask(t, p) => CreateKeeps(k, clock, due, t, p);
    case SuspendIt(t) => SuspendKeeps(k, clock, due, t);
    case ResumeIt(t) => ResumeTaskKeeps(k, clock, due, t);
    case DeleteIt(t) => DeleteKeeps(k, clock, due, t);
    case FreeTerminated => FreeKeeps(k, clock, due);
  }

  lemma SuspendSchedulerKeeps(k: Kernel, clock: int, due: map<Task, int>)
    requires Inv(k, clock, due)
    ensures Inv(k.(depth := k.depth + 1), clock, due)
  {
    hide Placed, Tells;
    YieldPlacedAt(k, k.(depth := k.depth + 1));
  }

  // The lists add up to the task count.
  lemma CountIsSum(k: Kernel, clock: int, due: map<Task, int>)
    requires Inv(k, clock, due)
    ensures k.number == ReadyCount(k.ready) + |k.time.delayed| + |k.time.overflow| + |k.suspended| + |k.terminated|
  {
    ReadyCountIs(k.ready);
    assert |multiset(k.prio.Keys)| == |k.prio|;
  }

  lemma {:induction false} ReadyCountIs(ready: seq<WalkedRing<Task>>)
    ensures |ReadyTasks(ready)| == ReadyCount(ready)
  {
    if ready != [] {
      ReadyCountIs(ready[1..]);
    }
  }

  ghost predicate Possible(k: Kernel, actions: seq<Action>)
    decreases actions
  {
    actions != [] ==> Enabled(k, actions[0]) && Possible(Next(k, actions[0]), actions[1..])
  }

  ghost function After(k: Kernel, actions: seq<Action>): Kernel
    requires Possible(k, actions)
    decreases actions
  {
    if actions == [] then k else After(Next(k, actions[0]), actions[1..])
  }

  lemma {:induction false} AlwaysInv(k: Kernel, clock: int, due: map<Task, int>, actions: seq<Action>)
    returns (clock': int, due': map<Task, int>)
    requires Inv(k, clock, due) && Possible(k, actions)
    ensures Inv(After(k, actions), clock', due')
    decreases actions
  {
    hide Inv, Next, Enabled, ClockAfter, DueAfter;
    if actions == [] {
      clock', due' := clock, due;
    } else {
      StepKeeps(k, clock, due, actions[0]);
      clock', due' := AlwaysInv(Next(k, actions[0]), ClockAfter(k, clock, actions[0]), DueAfter(k, clock, due, actions[0]),
                                actions[1..]);
    }
  }

  // In every run from the start: each live task's state item is in exactly one list, the task count is the number of
  // live tasks and the sum of the list lengths, and no ready task is above the ready hint.
  lemma Conservation(priorities: nat, tick: nat, actions: seq<Action>)
    requires priorities > 0 && tick < M && Possible(Fresh(priorities, tick), actions)
    ensures var k := After(Fresh(priorities, tick), actions);
            && StateLists(k) == multiset(k.prio.Keys) && k.number == |k.prio|
            && k.number == ReadyCount(k.ready) + |k.time.delayed| + |k.time.overflow| + |k.suspended| + |k.terminated|
            && (forall p | k.top < p < |k.ready| :: k.ready[p].items == [])
  {
    hide Possible, After, Fresh;
    FreshInv(priorities, tick);
    var clock, due := AlwaysInv(Fresh(priorities, tick), tick, map[], actions);
    var k := After(Fresh(priorities, tick), actions);
    CountIsSum(k, clock, due);
    assert StateLists(k) + multiset{} == StateLists(k);
    NoneAboveHint(k);
  }

  lemma NoneAboveHint(k: Kernel)
    requires ReadyOk(k.ready, k.top, k.prio)
    ensures forall p | k.top < p < |k.ready| :: k.ready[p].items == []
  {
    hide ReadyOk;
    forall p | k.top < p < |k.ready|
      ensures k.ready[p].items == []
    {
      if k.ready[p].items != [] {
        BelowHint(k, p, k.ready[p].items[0]);
      }
    }
  }

  lemma BelowHint(k: Kernel, p: nat, t: Task)
    requires ReadyOk(k.ready, k.top, k.prio) && p < |k.ready| && t in k.ready[p].items
    ensures p <= k.top
  {
  }

  // The action neither unblocks the task early, nor moves it, nor is the task itself blocking.
  ghost predicate LeavesAlone(k: Kernel, a: Action, x: Task) {
    match a
    case Blocking(_, _) => k.current != x
    case Unblock(t) => t != x
    case UnblockNow(t) => t != x
    case SuspendIt(t) => t != x
    case ResumeIt(t) => t != x
    case DeleteIt(t) => t != x
    case _ => true
  }

  // Asleep until the absolute time d, from then on in no sleeping list.
  ghost predicate WakesAt(k: Kernel, clock: int, due: map<Task, int>, x: Task, d: int) {
    && x in k.prio && x !in k.suspended && x !in k.terminated && x !in k.pendingReady
    && (if clock < d then x in due && due[x] == d else x !in due)
  }

  // What the action does not touch: the task's presence in the lists without a wake time.
  lemma StepLeavesLists(k: Kernel, clock: int, due: map<Task, int>, a: Action, x: Task)
    requires Inv(k, clock, due) && Enabled(k, a) && LeavesAlone(k, a, x)
    requires x in k.prio && x !in k.suspended && x !in k.terminated && x !in k.pendingReady
    ensures var k' := Next(k, a); x in k'.prio && x !in k'.suspended && x !in k'.terminated && x !in k'.pendingReady
  {
    hide Placed, Tells, RemoveSleeper, RemoveFromRing, Without, AddDelayed, ResetNext, PendingOk, InsertEnd, SuspendTask;
    match a
    case Blocking(_, _) => WithoutSubset(k.suspended, k.current);
    case Unblock(t) => WithoutSubset(k.suspended, t);
    case UnblockNow(t) => WithoutSubset(k.suspended, t);
    case SetPriority(t, _) => WithoutSubset(k.suspended, t);
    case StartScheduler(_) =>
    case TickInt =>
      hide Processed;
      ProcessedPlaced(k);
    case SuspendScheduler =>
    case ResumeScheduler =>
      hide CatchUp, Drained;
      ResumeKeeps(k, clock, due);
      ResumeEmptiesPending(k, clock, due);
    case SwitchContext =>
    case CreateTask(_, _) =>
    case SuspendIt(t) => SuspendLeavesLists(k, t, x);
    case ResumeIt(t) => WithoutSubset(k.suspended, t);
    case DeleteIt(t) =>
      WithoutSubset(k.suspended, t);
      WithoutSubset(k.pendingReady, t);
    case FreeTerminated =>
  }

  lemma SuspendLeavesLists(k: Kernel, t: Task, x: Task)
    requires Enabled(k, SuspendIt(t)) && t != x
    requires x in k.prio && x !in k.suspended && x !in k.terminated && x !in k.pendingReady
    ensures var k' := SuspendTask(k, t); x in k'.prio && x !in k'.suspended && x !in k'.terminated && x !in k'.pendingReady
  {
    hide RemoveSleeper, RemoveFromRing, Without, ResetNext, SomethingReady, HighestFrom;
    WithoutSubset(k.suspended, t);
    WithoutSubset(k.pendingReady, t);
  }

  lemma ResumeEmptiesPending(k: Kernel, clock: int, due: map<Task, int>)
    requires Inv(k, clock, due) && k.depth > 0 && k.number > 0
    ensures ResumeAll(k).pendingReady == if k.depth > 1 then k.pendingReady else []
  {
    hide Placed, Tells, ResumeAll;
    ResumeKeeps(k, clock, due);
    if k.depth > 1 {
      ResumeDeep(k);
    } else {
      assert ResumeAll(k).depth == 0;
    }
  }

  lemma ResumeDeep(k: Kernel)
    requires k.depth > 1
    ensures ResumeAll(k) == k.(depth := k.depth - 1)
  {
  }

  lemma StepWakesAt(k: Kernel, clock: int, due: map<Task, int>, a: Action, x: Task, d: int)
    requires Inv(k, clock, due) && Enabled(k, a) && LeavesAlone(k, a, x) && WakesAt(k, clock, due, x, d)
    ensures WakesAt(Next(k, a), ClockAfter(k, clock, a), DueAfter(k, clock, due, a), x, d)
  {
    hide Inv, Next, Enabled;
    StepLeavesLists(k, clock, due, a, x);
  }

  ghost predicate IsRun(k: Kernel, actions: seq<Action>, x: Task)
    decreases actions
  {
    actions != [] ==> Enabled(k, actions[0]) && LeavesAlone(k, actions[0], x) && IsRun(Next(k, actions[0]), actions[1..], x)
  }

  ghost function Run(k: Kernel, actions: seq<Action>, x: Task): Kernel
    requires IsRun(k, actions, x)
    decreases actions
  {
    if actions == [] then k else Run(Next(k, actions[0]), actions[1..], x)
  }

  // Ticks processed over a run.
  ghost function RunClock(k: Kernel, clock: int, actions: seq<Action>, x: Task): int
    requires IsRun(k, actions, x)
    decreases actions
  {
    if actions == [] then clock
    else RunClock(Next(k, actions[0]), ClockAfter(k, clock, actions[0]), actions[1..], x)
  }

  lemma {:induction false} RunWakesAt(k: Kernel, clock: int, due: map<Task, int>, actions: seq<Action>, x: Task, d: int)
    returns (due': map<Task, int>)
    requires Inv(k, clock, due) && WakesAt(k, clock, due, x, d) && IsRun(k, actions, x)
    ensures var k', clock' := Run(k, actions, x), RunClock(k, clock, actions, x);
            Inv(k', clock', due') && WakesAt(k', clock', due', x, d)
    decreases actions
  {
    hide Inv, WakesAt, Next, Enabled, ClockAfter, DueAfter, LeavesAlone;
    if actions == [] {
      due' := due;
    } else {
      var a := actions[0];
      StepKeeps(k, clock, due, a);
      StepWakesAt(k, clock, due, a, x, d);
      due' := RunWakesAt(Next(k, a), ClockAfter(k, clock, a), DueAfter(k, clock, due, a), actions[1..], x, d);
    }
  }

  // Exact wake-up. The current task blocks for `ticks` at absolute time `clock`; whatever happens then that does not
  // touch it (ticks, other tasks' delays, events, creation and deletion, scheduler suspensions with pended ticks,
  // wraps of the tick count), it is in a delayed list before absolute time clock + ticks and in a ready list from
  // then on.
  lemma ExactWakeUp(k: Kernel, clock: int, due: map<Task, int>, ticks: nat, indefinitely: bool, actions: seq<Action>)
    requires Inv(k, clock, due) && Enabled(k, Blocking(ticks, indefinitely)) && !(indefinitely && ticks == MAX_DELAY)
    requires IsRun(Block(k, ticks, indefinitely), actions, k.current)
    ensures var x, k1 := k.current, Block(k, ticks, indefinitely);
            var k', now := Run(k1, actions, x), RunClock(k1, clock, actions, x);
            && (x in Sleepers(k'.time) <==> now < clock + ticks)
            && (ReadyTasks(k'.ready)[x] == 1 <==> now >= clock + ticks)
  {
    hide Block, DueAfter, RunClock, Run, IsRun;
    var x, k1 := k.current, Block(k, ticks, indefinitely);
    var due1 := DueAfter(k, clock, due, Blocking(ticks, indefinitely));
    BlockKeeps(k, clock, due, ticks, indefinitely);
    BlockedWakesAt(k, clock, due, ticks, indefinitely);
    var due' := RunWakesAt(k1, clock, due1, actions, x, clock + ticks);
    var k', now := Run(k1, actions, x), RunClock(k1, clock, actions, x);
    AsleepOrReady(k', now, due', x, clock + ticks);
  }

  lemma BlockedWakesAt(k: Kernel, clock: int, due: map<Task, int>, ticks: nat, indefinitely: bool)
    requires Inv(k, clock, due) && Enabled(k, Blocking(ticks, indefinitely)) && !(indefinitely && ticks == MAX_DELAY)
    ensures WakesAt(Block(k, ticks, indefinitely), clock, DueAfter(k, clock, due, Blocking(ticks, indefinitely)),
                    k.current, clock + ticks)
  {
    hide Placed, Tells, RemoveSleeper, RemoveFromRing, Without, AddDelayed;
    InReadyLive(k, clock, due, k.current);
    WithoutSubset(k.suspended, k.current);
  }

  lemma AsleepOrReady(k: Kernel, clock: int, due: map<Task, int>, x: Task, d: int)
    requires Inv(k, clock, due) && WakesAt(k, clock, due, x, d)
    ensures x in Sleepers(k.time) <==> clock < d
    ensures ReadyTasks(k.ready)[x] == 1 <==> clock >= d
  {
    hide ReadyTasks;
    Live(k, x);
    SleepersAre(k.time, clock, due, x);
    SleeperOnce(k, x);
  }

  lemma SleeperOnce(k: Kernel, x: Task)
    requires x !in k.suspended && x !in k.terminated && StateLists(k)[x] == 1
    ensures ReadyTasks(k.ready)[x] == if x in Sleepers(k.time) then 0 else 1
  {
    hide ReadyTasks, Sleepers;
    assert x in multiset(Sleepers(k.time)) <==> x in Sleepers(k.time);
  }

  // ---- No tick is lost ----

  function TickCount(actions: seq<Action>): nat {
    if actions == [] then 0 else (if actions[0].TickInt? then 1 else 0) + TickCount(actions[1..])
  }

  lemma SuspendPended(k: Kernel, t: Task)
    requires Enabled(k, SuspendIt(t))
    ensures SuspendTask(k, t).pended == k.pended
  {
    hide SomethingReady, Without, RemoveSleeper, RemoveFromRing, HighestFrom;
  }

  lemma StepTicks(k: Kernel, clock: int, due: map<Task, int>, a: Action)
    requires Inv(k, clock, due) && Enabled(k, a) && k.pended + 1 < M
    ensures ClockAfter(k, clock, a) + Next(k, a).pended == clock + k.pended + if a.TickInt? then 1 else 0
    ensures Next(k, a).pended <= k.pended + 1
  {
    hide Placed, Tells, RemoveSleeper, RemoveFromRing, Without, AddDelayed, ResetNext, InsertEnd;
    match a
    case TickInt =>
      hide Processed;
      ProcessedPlaced(k);
    case ResumeScheduler =>
      hide ResumeAll;
      ResumeKeeps(k, clock, due);
      if k.depth > 1 {
        ResumeDeep(k);
      }
    case SuspendIt(t) => SuspendPended(k, t);
    case _ =>
  }

  // Every tick interrupt is processed or still pended, as long as fewer than 2^32 interrupts are involved.
  lemma {:induction false} TicksAccounted(k: Kernel, clock: int, due: map<Task, int>, actions: seq<Action>, x: Task)
    requires Inv(k, clock, due) && IsRun(k, actions, x) && k.pended + |actions| < M
    ensures RunClock(k, clock, actions, x) + Run(k, actions, x).pended == clock + k.pended + TickCount(actions)
    decreases actions
  {
    hide Inv, Next, Enabled, ClockAfter, DueAfter, LeavesAlone;
    if actions != [] {
      var a := actions[0];
      StepKeeps(k, clock, due, a);
      StepTicks(k, clock, due, a);
      TicksAccounted(Next(k, a), ClockAfter(k, clock, a), DueAfter(k, clock, due, a), actions[1..], x);
    }
  }

  // ---- The ticks are numbered ----

  // The overflow count and the tick count taken together.
  function TickNumber(t: Time): nat {
    t.overflows * M + t.tick
  }

  lemma CountNumbers(t: Time)
    requires t.tick < M
    ensures TickNumber(Tick(t)) == TickNumber(t) + 1
  {
    hide HeadValue;
    NextTick(t);
  }

  lemma {:induction false} CatchUpNumbers(k: Kernel, ticks: nat, clock: int, due: map<Task, int>)
    requires Placed(k, multiset{}) && Tells(k.time, clock, due, clock)
    ensures TickNumber(CatchUp(k, ticks).time) == TickNumber(k.time) + ticks
    decreases ticks
  {
    hide Placed, Tells, Processed, SwitchRequired, Tick, TickNumber;
    if ticks > 0 {
      var k1 := Processed(k);
      var k2 := k1.(yieldPending := k.yieldPending || SwitchRequired(k1, Woken(k.time)));
      ProcessedPlaced(k);
      YieldPlaced(k1, k2);
      TickTells(k.time, clock, due);
      CountNumbers(k.time) by { TickBelow(k.time, clock, due); }
      CatchUpNumbers(k2, ticks - 1, clock + 1, Later(due, clock + 1));
    }
  }

  lemma TickBelow(t: Time, clock: int, due: map<Task, int>)
    requires Tells(t, clock, due, clock)
    ensures t.tick < M
  {
  }

  // But for the start of the scheduler, which sets the tick count, every operation counts exactly the ticks it processes,
  // wraps included.
  lemma StepNumbers(k: Kernel, clock: int, due: map<Task, int>, a: Action)
    requires Inv(k, clock, due) && Enabled(k, a) && !a.StartScheduler?
    ensures TickNumber(Next(k, a).time) - TickNumber(k.time) == ClockAfter(k, clock, a) - clock
  {
    hide Placed, Tells, RemoveFromRing, Without, Insert, InsertEnd, PendingOk, HighestFrom, SomethingReady;
    match a
    case TickInt =>
      hide Processed, Tick;
      TickBelow(k.time, clock, due);
      ProcessedPlaced(k);
      CountNumbers(k.time);
    case ResumeScheduler =>
      hide ResumeAll;
      ResumeNumbers(k, clock, due);
    case SuspendIt(t) => SuspendNumbers(k, t);
    case _ =>
  }

  lemma SuspendNumbers(k: Kernel, t: Task)
    requires Enabled(k, SuspendIt(t))
    ensures TickNumber(SuspendTask(k, t).time) == TickNumber(k.time)
  {
    hide SomethingReady, Without, RemoveFromRing, HighestFrom;
  }

  lemma {:induction false} DrainNumbers(k: Kernel)
    ensures TickNumber(Drain(k).time) == TickNumber(k.time)
    decreases |k.pendingReady|
  {
    hide AddReady, RemoveFromRing, Without, Preempting;
    if k.pendingReady != [] {
      OneNumbers(k);
      DrainNumbers(DrainOne(k));
    }
  }

  lemma OneNumbers(k: Kernel)
    requires k.pendingReady != []
    ensures TickNumber(DrainOne(k).time) == TickNumber(k.time)
  {
    hide InsertEnd, RemoveFromRing, Without;
  }

  lemma ResumeNumbers(k: Kernel, clock: int, due: map<Task, int>)
    requires Inv(k, clock, due) && k.depth > 0 && k.number > 0
    ensures TickNumber(ResumeAll(k).time) == TickNumber(k.time) + if k.depth == 1 then k.pended else 0
  {
    hide Placed, Tells, Drain, CatchUp, Different, TickNumber;
    var k1 := k.(depth := k.depth - 1);
    YieldPlacedAt(k, k1);
    if k.depth == 1 {
      DrainKeeps(k1, clock, due);
      DrainNumbers(k1);
      var k2 := Drain(k1);
      ResetTells(k2.time, clock, due - Set(k.pendingReady));
      ResetPlaced(k2);
      ResetNumbers(k2.time);
      assert Drained(k1).time == (if k.pendingReady == [] then k2.time else ResetNext(k2.time));
      CatchUpNumbers(Drained(k1), k.pended, clock, due - Set(k.pendingReady));
    }
  }

  lemma ResetNumbers(t: Time)
    ensures TickNumber(ResetNext(t)) == TickNumber(t)
  {
  }
}
