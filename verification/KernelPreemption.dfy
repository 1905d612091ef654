/**
 Preemption: unless a switch is pending or has been asked for, no ready task
 has a higher priority than the running one; and where every operation of the
 scheduler leaves its task.
 */
module KernelPreemption {
  import opened Rings
  import opened KernelTime
  import opened KernelTypes
  import opened Sequences
  import opened KernelState
  import opened KernelLists
  import opened KernelRuns
  import opened KernelScheduling

  ghost predicate IsReady(k: Kernel, t: Task) {
    ReadyTasks(k.ready)[t] > 0
  }

  // No ready task has a higher priority than the current one.
  ghost predicate Top(k: Kernel) {
    k.current in k.prio ==> forall t | IsReady(k, t) && t in k.prio :: k.prio[t] <= k.prio[k.current]
  }

  ghost predicate TopRuns(k: Kernel) {
    k.running && !k.yieldPending ==> Top(k)
  }

  // ---- What becomes ready ----

  lemma AddReadyTasks(k: Kernel, t: Task)
    ensures ReadyTasks(AddReady(k, t).ready) == ReadyTasks(k.ready) + multiset{t}
  {
    hide ReadyTasks;
    var p := Level(k, t);
    var r: WalkedRing<Task> := InsertEnd(k.ready[p], t);
    InsertEndItems(k.ready[p], t);
    forall x: Task
      ensures ReadyTasks(AddReady(k, t).ready)[x] == (ReadyTasks(k.ready) + multiset{t})[x]
    {
      ReadyUpdate(k.ready, p, r, x);
      assert multiset(r.items)[x] == (multiset(k.ready[p].items) + multiset{t})[x];
    }
  }

  lemma {:induction false} AddAllTasks(k: Kernel, ts: seq<Task>)
    ensures var r := AddReadyAll(k, ts);
            && ReadyTasks(r.ready) == ReadyTasks(k.ready) + multiset(ts)
            && r.prio == k.prio && r.current == k.current && r.running == k.running && r.yieldPending == k.yieldPending
            && r.depth == k.depth
    decreases |ts|
  {
    hide ReadyTasks, AddReady;
    if ts != [] {
      AddReadyTasks(k, ts[0]);
      AddKeeps(k, ts[0]);
      AddAllTasks(AddReady(k, ts[0]), ts[1..]);
      assert ts == [ts[0]] + ts[1..];
    }
  }

  lemma AddKeeps(k: Kernel, t: Task)
    ensures var r := AddReady(k, t);
            && r.prio == k.prio && r.current == k.current && r.running == k.running && r.yieldPending == k.yieldPending
            && r.depth == k.depth
  {
  }

  lemma MovedReady(k: Kernel, t: Task)
    requires ReadyOk(k.ready, k.top, k.prio) && t in k.prio
    ensures ReadyTasks(MoveToReady(k, t).ready) == ReadyTasks(k.ready) - multiset{t} + multiset{t}
    ensures var r := MoveToReady(k, t);
            && r.prio == k.prio && r.current == k.current && r.running == k.running && r.yieldPending == k.yieldPending
            && r.depth == k.depth
  {
    hide ReadyTasks, AddReady, ReadyOk, RemoveFromRing;
    RemoveReadyLists(k, t);
    AddReadyTasks(RemoveState(k, t), t);
    AddKeeps(RemoveState(k, t), t);
  }

  lemma LevelIs(k: Kernel, t: Task)
    requires ReadyOk(k.ready, k.top, k.prio) && t in k.prio
    ensures Level(k, t) == k.prio[t]
  {
  }

  // An unblocked task preempts exactly when its priority is higher.
  lemma PreemptsIff(k: Kernel, t: Task)
    requires ReadyOk(k.ready, k.top, k.prio) && t in k.prio && k.current in k.prio
    ensures Preempting(k, t) <==> k.prio[t] > k.prio[k.current]
  {
    LevelIs(k, t);
    LevelIs(k, k.current);
  }

  // ---- One task more ready ----

  lemma OneMoreTop(k: Kernel, t: Task, k': Kernel)
    requires ReadyOk(k.ready, k.top, k.prio) && t in k.prio && Top(k)
    requires forall x | IsReady(k', x) :: IsReady(k, x) || x == t
    requires k'.prio == k.prio && k'.current == k.current
    requires k.current in k.prio ==> k.prio[t] <= k.prio[k.current]
    ensures Top(k')
  {
  }

  // Fewer tasks ready, or fewer tasks at all.
  lemma FewerTop(k: Kernel, k': Kernel)
    requires Top(k) && k'.current == k.current
    requires forall x | IsReady(k', x) :: IsReady(k, x)
    requires forall x | x in k'.prio :: x in k.prio && k'.prio[x] == k.prio[x]
    ensures Top(k')
  {
  }

  lemma MoveTop(k: Kernel, t: Task, k': Kernel)
    requires ReadyOk(k.ready, k.top, k.prio) && t in k.prio && TopRuns(k) && (k.running ==> k.current in k.prio)
    requires k'.ready == MoveToReady(k, t).ready && k'.prio == k.prio && k'.current == k.current && k'.running == k.running
    requires k'.yieldPending == (k.yieldPending || Preempting(k, t))
    ensures TopRuns(k')
  {
    hide ReadyOk, MoveToReady, Preempting;
    MovedReady(k, t);
    if k'.running && !k'.yieldPending {
      PreemptsIff(k, t);
      OneMoreTop(k, t, k');
    }
  }

  lemma UnblockTop(k: Kernel, clock: int, due: map<Task, int>, t: Task)
    requires Inv(k, clock, due) && Enabled(k, Unblock(t)) && TopRuns(k) && (k.running ==> k.current in k.prio)
    ensures TopRuns(Event(k, t))
  {
    hide Tells, ReadyOk, StateLists, AddReady, RemoveState, IsReady, Preempting;
    assert t in due || t in k.suspended by { SleepersAre(k.time, clock, due, t); }
    AsleepLive(k, clock, due, t);
    if k.depth == 0 {
      MovedReady(k, t);
      MoveTop(k, t, Event(k, t));
    } else {
      SameReadyTop(k, Event(k, t));
    }
  }

  lemma SameReadyTop(k: Kernel, k': Kernel)
    requires TopRuns(k) && k'.ready == k.ready && k'.prio == k.prio && k'.current == k.current && k'.running == k.running
    requires k.yieldPending ==> k'.yieldPending
    ensures TopRuns(k')
  {
  }

  lemma UnblockNowTop(k: Kernel, clock: int, due: map<Task, int>, t: Task)
    requires Inv(k, clock, due) && Enabled(k, UnblockNow(t)) && TopRuns(k) && (k.running ==> k.current in k.prio)
    ensures TopRuns(EventNow(k, t))
  {
    hide Tells, ReadyOk, StateLists, AddReady, RemoveState, IsReady, Preempting;
    assert t in due || t in k.suspended by { SleepersAre(k.time, clock, due, t); }
    AsleepLive(k, clock, due, t);
    MovedReady(k, t);
    MoveTop(k, t, EventNow(k, t));
  }

  // ---- Ticks ----

  lemma ProcessedReady(k: Kernel)
    ensures var r := Processed(k);
            && ReadyTasks(r.ready) == ReadyTasks(k.ready) + multiset(Woken(k.time))
            && r.prio == k.prio && r.current == k.current && r.running == k.running && r.yieldPending == k.yieldPending
            && r.depth == k.depth
  {
    hide AddReadyAll, ReadyTasks, Tick, KernelTime.Woken;
    AddAllTasks(k.(time := Tick(k.time)), Woken(k.time));
  }

  // Unless the tick asks for a switch, nobody it woke comes before the running task.
  lemma TickTop(k: Kernel)
    requires Placed(k, multiset{}) && TopRuns(k) && (k.running ==> k.current in k.prio)
    requires !SwitchRequired(Processed(k), Woken(k.time))
    ensures TopRuns(Processed(k))
  {
    hide Processed, ReadyOk, StateLists, KernelTime.Woken;
    var r, woken := Processed(k), Woken(k.time);
    ProcessedReady(k);
    ProcessedPlaced(k);
    if k.running && !k.yieldPending {
      forall t | IsReady(r, t) && t in r.prio
        ensures r.prio[t] <= r.prio[r.current]
      {
        if !IsReady(k, t) {
          assert t in multiset(woken);
          var i :| 0 <= i < |woken| && woken[i] == t;
          assert !Preempting(r, woken[i]);
          PreemptsIff(r, t);
        }
      }
    }
  }

  // A tick asks for a switch exactly when one is pending, a ready task has a higher priority, or another ready task
  // shares the priority of the running one.
  lemma TickAsks(k: Kernel, clock: int, due: map<Task, int>)
    requires Inv(k, clock, due) && TopRuns(k) && k.running && k.depth == 0 && k.current in k.prio
    ensures var k' := Processed(k);
            SwitchRequired(k', Woken(k.time)) <==>
              || k'.yieldPending
              || (exists t :: IsReady(k', t) && t in k.prio && k.prio[t] > k.prio[k.current])
              || (exists t, u :: t != u && IsReady(k', t) && IsReady(k', u) && t in k.prio && u in k.prio
                   && k.prio[t] == k.prio[u] == k.prio[k.current])
  {
    hide Processed, Tells, KernelTime.Woken, StateLists, Preempting;
    var k', woken := Processed(k), Woken(k.time);
    ProcessedPlaced(k);
    ProcessedReady(k);
    LevelIs(k', k.current);
    var ring := k'.ready[k.prio[k.current]].items;
    if AnyPreempting(k', woken) {
      var i :| 0 <= i < |woken| && Preempting(k', woken[i]);
      assert woken[i] in multiset(woken);
      WokenLive(k, clock, due, woken[i]);
      PreemptsIff(k', woken[i]);
      assert IsReady(k', woken[i]);
    }
    if |ring| > 1 {
      OnlyOnceEach(k', k.prio[k.current]);
      InReadyTasks(k'.ready, k.prio[k.current], ring[0]);
      InReadyTasks(k'.ready, k.prio[k.current], ring[1]);
      assert ring[0] in ring && ring[1] in ring;
      assert IsReady(k', ring[0]) && IsReady(k', ring[1]);
    }
    if !SwitchRequired(k', woken) {
      TickTop(k);
      AtMostOne(k', k.prio[k.current]);
    }
  }

  lemma AtMostOne(k: Kernel, p: nat)
    requires ReadyOk(k.ready, k.top, k.prio) && p < |k.ready| && |k.ready[p].items| <= 1
    ensures forall t, u | IsReady(k, t) && IsReady(k, u) && t in k.prio && u in k.prio && k.prio[t] == k.prio[u] == p :: t == u
  {
    forall t, u | IsReady(k, t) && IsReady(k, u) && t in k.prio && u in k.prio && k.prio[t] == k.prio[u] == p
      ensures t == u
    {
      var a := ReadySomewhere(k.ready, t);
      var b := ReadySomewhere(k.ready, u);
    }
  }

  lemma WokenLive(k: Kernel, clock: int, due: map<Task, int>, t: Task)
    requires Inv(k, clock, due) && t in Woken(k.time)
    ensures t in k.prio
  {
    hide KernelTime.Woken, Tick, ReadyOk, ReadyTasks;
    TickSleepers(k.time);
    assert t in multiset(Woken(k.time));
    assert t in multiset(Sleepers(k.time));
    Live(k, t);
  }

  lemma OnlyOnceEach(k: Kernel, p: nat)
    requires Placed(k, multiset{}) && p < |k.ready| && |k.ready[p].items| > 1
    ensures k.ready[p].items[0] != k.ready[p].items[1]
  {
    hide ReadyOk;
    var items := k.ready[p].items;
    Live(k, items[0]);
    if items[0] == items[1] {
      TwiceReady(k.ready, p, items[0]);
      assert false;
    }
  }

  lemma {:induction false} TwiceReady(ready: seq<WalkedRing<Task>>, p: nat, t: Task)
    requires p < |ready| && |ready[p].items| > 1 && ready[p].items[0] == t == ready[p].items[1]
    ensures ReadyTasks(ready)[t] > 1
  {
    if p > 0 {
      TwiceReady(ready[1..], p - 1, t);
    } else {
      var items := ready[0].items;
      assert items == [t] + ([t] + items[2..]);
    }
  }

  // ---- Resuming the scheduler ----

  lemma DrainOneTop(k: Kernel, clock: int, due: map<Task, int>)
    requires Drainable(k, clock, due) && k.pendingReady != [] && TopRuns(k) && (k.running ==> k.current in k.prio)
    ensures TopRuns(DrainOne(k))
  {
    hide Tells, ReadyOk, StateLists, AddReady, RemoveState, Preempting;
    var t := k.pendingReady[0];
    var k0 := k.(pendingReady := k.pendingReady[1..]);
    AsleepLive(k, clock, due, t);
    assert Preempting(k0, t) == Preempting(k, t) by { SameLevels(k, k0, t); }
    MovedReady(k0, t);
    MoveTop(k0, t, DrainOne(k));
  }

  lemma SameLevels(k: Kernel, k': Kernel, t: Task)
    requires k'.prio == k.prio && k'.ready == k.ready && k'.current == k.current
    ensures Preempting(k', t) == Preempting(k, t)
  {
  }

  lemma {:induction false} DrainTop(k: Kernel, clock: int, due: map<Task, int>)
    requires Drainable(k, clock, due) && TopRuns(k) && (k.running ==> k.current in k.prio)
    ensures TopRuns(Drain(k))
    decreases |k.pendingReady|
  {
    hide Drainable, DrainOne, TopRuns;
    if k.pendingReady != [] {
      DrainOneKeeps(k, clock, due);
      DrainOneTop(k, clock, due);
      DrainTop(DrainOne(k), clock, due - {k.pendingReady[0]});
    }
  }

  lemma {:induction false} CatchUpTop(k: Kernel, ticks: nat)
    requires Placed(k, multiset{}) && TopRuns(k) && (k.running ==> k.current in k.prio)
    ensures TopRuns(CatchUp(k, ticks))
    decreases ticks
  {
    hide Placed, Processed, SwitchRequired, IsReady, Top, KernelTime.Woken;
    if ticks == 0 {
      SameReady(k, k.(pended := 0));
    } else {
      var k1 := Processed(k);
      var k2 := k1.(yieldPending := k.yieldPending || SwitchRequired(k1, Woken(k.time)));
      ProcessedPlaced(k);
      YieldPlaced(k1, k2);
      MoreReady(k, k1);
      SameReady(k1, k2);
      if !k2.yieldPending {
        TickTop(k);
      }
      CatchUpTop(k2, ticks - 1);
    }
  }

  lemma SameReady(k: Kernel, k': Kernel)
    requires k'.ready == k.ready && k'.prio == k.prio && k'.current == k.current
    ensures forall x :: IsReady(k', x) <==> IsReady(k, x)
    ensures Top(k') == Top(k)
  {
  }

  lemma MoreReady(k: Kernel, k': Kernel)
    requires k' == Processed(k)
    ensures forall x | IsReady(k, x) :: IsReady(k', x)
    ensures k'.prio == k.prio && k'.current == k.current && k'.running == k.running && k'.yieldPending == k.yieldPending
  {
    ProcessedReady(k);
  }

  // The backlogs are worked off, and a switch is pending if anything of them comes first.
  lemma ResumeTop(k: Kernel, clock: int, due: map<Task, int>)
    requires Inv(k, clock, due) && Enabled(k, ResumeScheduler) && TopRuns(k) && (k.running ==> k.current in k.prio)
    ensures TopRuns(ResumeAll(k))
  {
    hide Placed, Tells, Drain, CatchUp, ResetNext, Different, IsReady, Top, Asleep;
    var k1 := k.(depth := k.depth - 1);
    YieldPlacedAt(k, k1);
    SameReady(k, k1);
    if k.depth == 1 {
      assert Drainable(k1, clock, due) by { StillAsleep(k, k1, due); }
      DrainTop(k1, clock, due);
      DrainKeeps(k1, clock, due);
      var k2 := Drain(k1);
      ResetPlaced(k2);
      DrainedIs(k1);
      SameReady(k2, Drained(k1));
      CatchUpTop(Drained(k1), k.pended);
    }
  }

  lemma DrainedIs(k: Kernel)
    ensures var d, r := Drained(k), Drain(k);
            && d.ready == r.ready && d.prio == r.prio && d.current == r.current && d.running == r.running
            && d.yieldPending == r.yieldPending && d == r.(time := d.time) && (d.time == r.time || d.time == ResetNext(r.time))
  {
  }

  lemma StillAsleep(k: Kernel, k': Kernel, due: map<Task, int>)
    requires PendingOk(k, due) && k'.suspended == k.suspended && k'.pendingReady == k.pendingReady
    ensures Different(k'.pendingReady) && forall t | t in k'.pendingReady :: Asleep(k', due, t)
  {
  }

  // ---- Every operation ----

  lemma BlockTop(k: Kernel, clock: int, due: map<Task, int>, ticks: nat, indefinitely: bool)
    requires Inv(k, clock, due) && Enabled(k, Blocking(ticks, indefinitely)) && TopRuns(k)
    ensures TopRuns(Block(k, ticks, indefinitely))
  {
    hide Tells, ReadyOk, StateLists, ReadyTasks, RemoveFromRing, AddDelayed, RemoveSleeper, Without;
    InReadyLive(k, clock, due, k.current);
    RemoveReadyLists(k, k.current);
    if Top(k) {
      FewerTop(k, Block(k, ticks, indefinitely));
    }
  }

  lemma SuspendTop(k: Kernel, t: Task)
    requires Placed(k, multiset{}) && Enabled(k, SuspendIt(t)) && TopRuns(k)
    ensures TopRuns(SuspendTask(k, t))
  {
    hide ReadyOk, StateLists, ReadyTasks, RemoveFromRing, RemoveSleeper, Without, SomethingReady, Switch, ResetNext;
    RemoveReadyLists(k, t);
    if k.running && Top(k) {
      FewerTop(k, SuspendTask(k, t));
    } else {
      SuspendRunning(k, t);
    }
  }

  lemma SuspendRunning(k: Kernel, t: Task)
    requires Enabled(k, SuspendIt(t))
    ensures SuspendTask(k, t).running == k.running
    ensures k.running ==> SuspendTask(k, t).yieldPending == k.yieldPending
  {
    hide RemoveFromRing, RemoveSleeper, Without, SomethingReady, ResetNext, HighestFrom;
  }

  lemma DeleteTop(k: Kernel, t: Task)
    requires Placed(k, multiset{}) && Enabled(k, DeleteIt(t)) && TopRuns(k)
    ensures TopRuns(Delete(k, t))
  {
    hide ReadyOk, StateLists, ReadyTasks, RemoveFromRing, RemoveSleeper, Without, ResetNext;
    RemoveReadyLists(k, t);
    if Top(k) {
      FewerTop(k, Delete(k, t));
    }
  }

  lemma FreeTop(k: Kernel)
    requires k.terminated != [] && TopRuns(k)
    ensures TopRuns(CleanUp(k))
  {
    if Top(k) {
      FewerTop(k, CleanUp(k));
    }
  }

  lemma ResumeTaskTop(k: Kernel, t: Task)
    requires ReadyOk(k.ready, k.top, k.prio) && t in k.prio && TopRuns(k) && k.current in k.prio
    requires k.prio[t] <= k.prio[k.current]
    ensures TopRuns(ResumeTask(k, t))
  {
    hide ReadyOk, RemoveState, AddReady;
    MovedReady(k, t);
    if Top(k) {
      OneMoreTop(k, t, ResumeTask(k, t));
    }
  }

  lemma CreateTop(k: Kernel, t: Task, p: nat)
    requires t !in k.prio && TopRuns(k) && k.running && k.current in k.prio && k.current != NOBODY && p <= k.prio[k.current]
    ensures TopRuns(Create(k, t, p))
  {
    hide AddReady;
    var k1 := k.(number := k.number + 1, prio := k.prio[t := p]);
    AddReadyTasks(k1, t);
    AddKeeps(k1, t);
  }

  lemma SetPriorityTop(k: Kernel, t: Task, p: nat)
    requires Placed(k, multiset{}) && Enabled(k, SetPriority(t, p)) && TopRuns(k) && k.current in k.prio
    requires if t == k.current then p >= k.prio[t] else p <= k.prio[k.current]
    ensures TopRuns(Reprioritise(k, t, p))
  {
    hide ReadyOk, StateLists, AddReady, RemoveState, ReadyTasks;
    RepriorReady(k, t, p);
  }

  // Who is ready stays so; only the task's own priority changes.
  lemma RepriorReady(k: Kernel, t: Task, p: nat)
    requires Placed(k, multiset{}) && t in k.prio && p < |k.ready|
    ensures var r := Reprioritise(k, t, p);
            && (forall x | IsReady(r, x) :: IsReady(k, x)) && (forall x | IsReady(k, x) :: IsReady(r, x))
            && r.prio == k.prio[t := p] && r.current == k.current && r.running == k.running && r.yieldPending == k.yieldPending
  {
    hide ReadyOk, AddReady, RemoveState, ReadyTasks;
    if t in k.ready[Level(k, t)].items {
      RepriorMoves(k, t, p);
    }
  }

  lemma RepriorMoves(k: Kernel, t: Task, p: nat)
    requires Placed(k, multiset{}) && t in k.prio && p < |k.ready| && t in k.ready[Level(k, t)].items
    ensures var r := Reprioritise(k, t, p);
            && ReadyTasks(r.ready) == ReadyTasks(k.ready)
            && r.prio == k.prio[t := p] && r.current == k.current && r.running == k.running && r.yieldPending == k.yieldPending
  {
    hide ReadyOk, AddReady, ReadyTasks, RemoveFromRing, RemoveSleeper, Without;
    var k1 := RemoveState(k, t);
    var k2 := k1.(prio := k.prio[t := p]);
    InReadyTasks(k.ready, Level(k, t), t);
    RemoveReadyLists(k, t);
    AddReadyTasks(k2, t);
    AddKeeps(k2, t);
    PutBack(ReadyTasks(k.ready), t);
  }

  lemma PutBack(m: multiset<Task>, t: Task)
    requires m[t] > 0
    ensures m - multiset{t} + multiset{t} == m
  {
  }

  lemma SwitchTop(k: Kernel, clock: int, due: map<Task, int>)
    requires Inv(k, clock, due) && Enabled(k, SwitchContext)
    ensures TopRuns(Switch(k))
  {
    hide Placed, Tells, ReadyTasks, HighestFrom;
    if k.depth == 0 {
      SwitchPicksHighest(k, clock, due);
      SwitchReady(k);
    }
  }

  lemma SwitchReady(k: Kernel)
    requires k.depth == 0 && SomethingReady(k)
    ensures forall x | IsReady(Switch(k), x) :: IsReady(k, x)
  {
    hide HighestFrom, ReadyTasks;
    var p := HighestFrom(k.ready, k.top);
    var r: WalkedRing<Task> := Advance(k.ready[p]);
    forall x | IsReady(Switch(k), x)
      ensures IsReady(k, x)
    {
      ReadyUpdate(k.ready, p, r, x);
    }
  }

  // The call ends with a request to switch, in terms of the priorities before it.
  ghost predicate Asks(k: Kernel, a: Action) {
    match a
    case TickInt => k.depth == 0 && SwitchRequired(Processed(k), Woken(k.time))
    case ResumeIt(t) => t in k.prio && k.current in k.prio && k.prio[t] > k.prio[k.current]
    case CreateTask(_, p) => k.running && k.current in k.prio && p > k.prio[k.current]
    case SetPriority(t, p) =>
      t in k.prio && k.current in k.prio && if t == k.current then p < k.prio[t] else p > k.prio[k.current]
    case DeleteIt(t) => t == k.current
    case _ => false
  }

  // The scheduler starts with a task of the highest priority; the running task exists, and does not free itself.
  ghost predicate Sound(k: Kernel, a: Action) {
    && (k.running ==> k.current in k.prio && k.current != NOBODY)
    && (a.StartScheduler? ==> Top(k) && k.current in k.prio && k.current != NOBODY)
    && (a.FreeTerminated? ==> k.terminated != [] && k.terminated[0] != k.current)
  }

  // After every operation that does not end with a request to switch: unless a switch is pending, no ready task has a
  // higher priority than the running one.
  lemma StepTop(k: Kernel, clock: int, due: map<Task, int>, a: Action)
    requires Inv(k, clock, due) && Enabled(k, a) && TopRuns(k) && Sound(k, a) && !Asks(k, a)
    ensures TopRuns(Next(k, a))
  {
    hide Placed, Tells, ReadyOk, Top, Block, Event, EventNow, Reprioritise, Processed, ResumeAll, Switch, Create, Suspended,
         SuspendTask, ResumeTask, Delete, CleanUp, SwitchRequired, KernelTime.Woken, SomethingReady;
    match a
    case Blocking(ticks, indefinitely) => BlockTop(k, clock, due, ticks, indefinitely);
    case Unblock(t) => UnblockTop(k, clock, due, t);
    case UnblockNow(t) => UnblockNowTop(k, clock, due, t);
    case SetPriority(t, p) => if k.running { SetPriorityTop(k, t, p); } else { SetPriorityIdle(k, t, p); }
    case StartScheduler(initialTick) => StartTop(k, initialTick);
    case TickInt => if k.depth == 0 { TickTop(k); } else { SameReadyTop(k, Next(k, a)); }
    case SuspendScheduler => SameReadyTop(k, Next(k, a));
    case ResumeScheduler => ResumeTop(k, clock, due);
    case SwitchContext => SwitchTop(k, clock, due);
    case CreateTask(t, p) => if k.running { CreateTop(k, t, p); } else { CreateIdle(k, t, p); }
    case SuspendIt(t) => SuspendTop(k, t);
    case ResumeIt(t) =>
      ResumableIn(k, clock, due, t);
      if k.running { ResumeTaskTop(k, t); } else { ResumeIdle(k, t); }
    case DeleteIt(t) => DeleteTop(k, t);
    case FreeTerminated => FreeTop(k);
  }

  lemma StartTop(k: Kernel, initialTick: nat)
    requires Top(k)
    ensures TopRuns(Start(k, initialTick))
  {
  }

  lemma SetPriorityIdle(k: Kernel, t: Task, p: nat)
    requires !k.running
    ensures !Reprioritise(k, t, p).running
  {
  }

  lemma CreateIdle(k: Kernel, t: Task, p: nat)
    requires !k.running
    ensures !Create(k, t, p).running
  {
  }

  lemma ResumeIdle(k: Kernel, t: Task)
    requires !k.running
    ensures !ResumeTask(k, t).running
  {
  }

  lemma ResumableIn(k: Kernel, clock: int, due: map<Task, int>, t: Task)
    requires Inv(k, clock, due) && Enabled(k, ResumeIt(t))
    ensures t in k.prio && ReadyOk(k.ready, k.top, k.prio)
  {
    hide Tells;
    AsleepLive(k, clock, due, t);
  }

  // An event leaves a switch pending exactly when one was, or when the task it unblocks has the higher priority.
  lemma EventYields(k: Kernel, clock: int, due: map<Task, int>, t: Task)
    requires Inv(k, clock, due) && k.current in k.prio
    ensures Enabled(k, Unblock(t)) ==>
              t in k.prio && (Event(k, t).yieldPending <==> k.yieldPending || k.prio[t] > k.prio[k.current])
    ensures Enabled(k, UnblockNow(t)) ==>
              t in k.prio && (EventNow(k, t).yieldPending <==> k.yieldPending || k.prio[t] > k.prio[k.current])
  {
    hide Tells, Preempting;
    if Enabled(k, Unblock(t)) || Enabled(k, UnblockNow(t)) {
      SleepersAre(k.time, clock, due, t);
      AsleepLive(k, clock, due, t);
      PreemptsIff(k, t);
    }
  }

  // ---- Runs ----

  // Whatever is asked for is done at once: an operation that asks for a switch is followed by one.
  ghost predicate Prompt(k: Kernel, actions: seq<Action>)
    decreases actions
  {
    actions != [] ==>
      && Enabled(k, actions[0]) && Sound(k, actions[0])
      && (Asks(k, actions[0]) ==> |actions| > 1 && actions[1].SwitchContext?)
      && Prompt(Next(k, actions[0]), actions[1..])
  }

  ghost function Finally(k: Kernel, actions: seq<Action>): Kernel
    requires Prompt(k, actions)
    decreases actions
  {
    if actions == [] then k else Finally(Next(k, actions[0]), actions[1..])
  }

  lemma {:induction false} AlwaysTop(k: Kernel, clock: int, due: map<Task, int>, actions: seq<Action>)
    requires Inv(k, clock, due) && Prompt(k, actions)
    requires TopRuns(k) || (actions != [] && actions[0].SwitchContext?)
    ensures TopRuns(Finally(k, actions))
    decreases actions
  {
    hide Inv, Next, Enabled, ClockAfter, DueAfter, Asks, Sound, TopRuns;
    if actions != [] {
      var a := actions[0];
      StepKeeps(k, clock, due, a);
      if a.SwitchContext? {
        SwitchIsTop(k, clock, due);
      } else if !Asks(k, a) {
        StepTop(k, clock, due, a);
      }
      AlwaysTop(Next(k, a), ClockAfter(k, clock, a), DueAfter(k, clock, due, a), actions[1..]);
    }
  }

  lemma SwitchIsTop(k: Kernel, clock: int, due: map<Task, int>)
    requires Inv(k, clock, due) && Enabled(k, SwitchContext)
    ensures TopRuns(Next(k, SwitchContext))
  {
    hide Inv, TopRuns, Switch;
    SwitchTop(k, clock, due);
  }

  // In every run from the start in which requests to switch are followed at once: when the scheduler is not suspended
  // and no switch is pending, the running task has a priority no ready task exceeds.
  lemma HighestAlwaysRuns(priorities: nat, tick: nat, actions: seq<Action>)
    requires priorities > 0 && tick < M && Prompt(Fresh(priorities, tick), actions)
    ensures var k := Finally(Fresh(priorities, tick), actions);
            k.running && !k.yieldPending && k.current in k.prio ==>
              forall t | ReadyTasks(k.ready)[t] > 0 && t in k.prio :: k.prio[t] <= k.prio[k.current]
  {
    hide Prompt, Finally;
    FreshInv(priorities, tick);
    AlwaysTop(Fresh(priorities, tick), tick, map[], actions);
  }

  // ---- Where every operation leaves its task ----

  // Blocking for ever suspends; an event readies the task or parks it until the scheduler resumes, which readies all
  // that were parked; suspending, resuming, deleting and creating do what they say.
  lemma WhereTasksGo(k: Kernel, clock: int, due: map<Task, int>, a: Action)
    requires Inv(k, clock, due) && Enabled(k, a)
    ensures var k' := Next(k, a);
            match a
            case Blocking(ticks, indefinitely) => ticks == MAX_DELAY && indefinitely ==> k.current in k'.suspended
            case Unblock(t) => if k.depth == 0 then IsReady(k', t) else k'.pendingReady == k.pendingReady + [t]
            case UnblockNow(t) => IsReady(k', t)
            case StartScheduler(initialTick) => k'.running && k'.time.tick == initialTick && k'.time.next == MAX_DELAY
            case SwitchContext => k'.yieldPending == (k.depth > 0)
            case ResumeScheduler =>
              k.depth == 1 ==> k'.pendingReady == [] && k'.pended == 0 && forall x | x in k.pendingReady :: IsReady(k', x)
            case CreateTask(t, p) => IsReady(k', t) && t in k'.prio && k'.prio[t] == p
            case SetPriority(t, p) => t in k'.prio && k'.prio[t] == p && (IsReady(k', t) <==> IsReady(k, t))
            case SuspendIt(t) => t in k'.suspended && t !in k'.pendingReady
            case ResumeIt(t) => IsReady(k', t) && t !in k'.suspended
            case DeleteIt(t) => if t == k.current then t in k'.terminated else t !in k'.prio
            case FreeTerminated => k.terminated[0] !in k'.prio && k'.terminated == k.terminated[1..]
            case _ => true
  {
    hide Placed, Tells, ReadyOk, ReadyTasks, RemoveFromRing, RemoveSleeper, Without, AddDelayed, ResetNext, InsertEnd,
         PendingOk, SuspendTask, Reprioritise, ResumeAll, AddReady;
    match a
    case Unblock(t) => AddReadyTasks(RemoveState(k, t), t);
    case UnblockNow(t) => AddReadyTasks(RemoveState(k, t), t);
    case ResumeScheduler => ResumeEnds(k, clock, due);
    case CreateTask(t, p) => CreatedReady(k, t, p);
    case SetPriority(t, p) => RepriorKeepsReady(k, clock, due, t, p);
    case SuspendIt(t) => SuspendedThere(k, clock, due, t);
    case ResumeIt(t) => ResumedThere(k, clock, due, t);
    case _ =>
  }

  // Before the scheduler starts, suspending the current task makes one of the highest ready priority current, or nobody
  // when all are suspended.
  lemma SuspendChooses(k: Kernel, clock: int, due: map<Task, int>, t: Task)
    requires Inv(k, clock, due) && Enabled(k, SuspendIt(t)) && t == k.current && !k.running && k.depth == 0
    ensures var k' := SuspendTask(k, t);
            if |k'.suspended| == k.number then k'.current == NOBODY
            else k'.current in k'.prio && IsReady(k', k'.current) && Top(k')
  {
    hide Placed, Tells, Suspended, ReadyTasks, SomethingReady, HighestFrom;
    var s := Suspended(k, t);
    SuspendedKeeps(k, clock, due, t);
    SuspendedFrame(k, t);
    if |s.suspended| != k.number {
      SwitchPicksHighest(s, clock, due - {t});
      SwitchReady(s);
      SwitchServes(s, clock, due - {t});
    }
  }

  lemma SuspendedFrame(k: Kernel, t: Task)
    ensures Suspended(k, t).depth == k.depth && Suspended(k, t).number == k.number
  {
  }

  lemma SwitchServes(k: Kernel, clock: int, due: map<Task, int>)
    requires Inv(k, clock, due) && k.depth == 0 && SomethingReady(k)
    ensures IsReady(Switch(k), Switch(k).current) && Switch(k).suspended == k.suspended
  {
    hide Tells, HighestFrom, Placed;
    SwitchPicksHighest(k, clock, due);
    var k' := Switch(k);
    InReadyTasks(k'.ready, k'.top, k'.current);
  }

  // Working off the pending-ready list leaves a switch pending exactly when one was, or one of its tasks comes first.
  lemma {:induction false} DrainYields(k: Kernel, clock: int, due: map<Task, int>)
    requires Drainable(k, clock, due) && k.current in k.prio
    ensures Drain(k).yieldPending <==>
              k.yieldPending || exists t :: t in k.pendingReady && t in k.prio && k.prio[t] > k.prio[k.current]
    decreases |k.pendingReady|
  {
    hide Drainable, DrainOne;
    if k.pendingReady != [] {
      var t, k' := k.pendingReady[0], DrainOne(k);
      DrainOneKeeps(k, clock, due);
      DrainOneYields(k, clock, due);
      DrainYields(k', clock, due - {t});
      assert forall x :: x in k.pendingReady <==> x == t || x in k'.pendingReady;
    }
  }

  lemma DrainOneYields(k: Kernel, clock: int, due: map<Task, int>)
    requires Drainable(k, clock, due) && k.pendingReady != [] && k.current in k.prio
    ensures var t, k' := k.pendingReady[0], DrainOne(k);
            && t in k.prio && k'.prio == k.prio && k'.current == k.current && k'.pendingReady == k.pendingReady[1..]
            && (k'.yieldPending <==> k.yieldPending || k.prio[t] > k.prio[k.current])
  {
    hide Tells, StateLists, AddReady, RemoveState, Preempting;
    var t := k.pendingReady[0];
    AsleepLive(k, clock, due, t);
    PreemptsIff(k, t);
    MovedReady(k.(pendingReady := k.pendingReady[1..]), t);
  }

  // Resuming the scheduler with no tick to catch up asks for a switch exactly when one was pending or a task parked
  // meanwhile has a higher priority than the running one.
  lemma ResumeYields(k: Kernel, clock: int, due: map<Task, int>)
    requires Inv(k, clock, due) && Enabled(k, ResumeScheduler) && k.depth == 1 && k.pended == 0 && k.current in k.prio
    ensures ResumeAll(k).yieldPending <==>
              k.yieldPending || exists t :: t in k.pendingReady && t in k.prio && k.prio[t] > k.prio[k.current]
  {
    hide Placed, Tells, Drain, ResetNext, Different, Asleep;
    var k1 := k.(depth := 0);
    YieldPlacedAt(k, k1);
    assert Drainable(k1, clock, due) by { StillAsleep(k, k1, due); }
    DrainYields(k1, clock, due);
    DrainedIs(k1);
  }

  lemma CreatedReady(k: Kernel, t: Task, p: nat)
    ensures var r := Create(k, t, p); IsReady(r, t) && t in r.prio && r.prio[t] == p
  {
    hide AddReady, ReadyTasks;
    var chosen := k.current == NOBODY || (!k.running && Level(k, k.current) <= p);
    var k1 := k.(number := k.number + 1, prio := k.prio[t := p], current := if chosen then t else k.current);
    AddReadyTasks(k1, t);
    AddKeeps(k1, t);
  }

  lemma RepriorKeepsReady(k: Kernel, clock: int, due: map<Task, int>, t: Task, p: nat)
    requires Inv(k, clock, due) && Enabled(k, SetPriority(t, p))
    ensures var r := Reprioritise(k, t, p);
            t in r.prio && r.prio[t] == p && (IsReady(r, t) <==> IsReady(k, t))
  {
    hide Placed, Tells, Reprioritise, IsReady;
    RepriorReady(k, t, p);
  }

  lemma ResumeEnds(k: Kernel, clock: int, due: map<Task, int>)
    requires Inv(k, clock, due) && k.depth > 0 && k.number > 0
    ensures k.depth == 1 ==> ResumeAll(k).pendingReady == [] && ResumeAll(k).pended == 0
    ensures k.depth == 1 ==> forall x | x in k.pendingReady :: IsReady(ResumeAll(k), x)
  {
    hide Placed, Tells, ResumeAll, IsReady;
    if k.depth == 1 {
      ResumeReadies(k, clock, due);
    }
    ResumeKeeps(k, clock, due);
    ResumeEmptiesPending(k, clock, due);
  }

  lemma DrainOneReadies(k: Kernel, clock: int, due: map<Task, int>)
    requires Drainable(k, clock, due) && k.pendingReady != []
    ensures forall x | IsReady(k, x) || x == k.pendingReady[0] :: IsReady(DrainOne(k), x)
  {
    hide Tells, ReadyOk, StateLists, AddReady, RemoveState, Preempting, ReadyTasks;
    AsleepLive(k, clock, due, k.pendingReady[0]);
    MovedReady(k.(pendingReady := k.pendingReady[1..]), k.pendingReady[0]);
  }

  lemma {:induction false} DrainReadies(k: Kernel, clock: int, due: map<Task, int>)
    requires Drainable(k, clock, due)
    ensures forall x | IsReady(k, x) || x in k.pendingReady :: IsReady(Drain(k), x)
    decreases |k.pendingReady|
  {
    hide Drainable, DrainOne, IsReady;
    if k.pendingReady != [] {
      DrainOneKeeps(k, clock, due);
      DrainOneReadies(k, clock, due);
      DrainReadies(DrainOne(k), clock, due - {k.pendingReady[0]});
    }
  }

  lemma {:induction false} CatchUpReadies(k: Kernel, ticks: nat)
    ensures forall x | IsReady(k, x) :: IsReady(CatchUp(k, ticks), x)
    decreases ticks
  {
    hide Processed, SwitchRequired, IsReady, KernelTime.Woken;
    if ticks == 0 {
      SameReady(k, k.(pended := 0));
    } else {
      var k1 := Processed(k);
      var k2 := k1.(yieldPending := k.yieldPending || SwitchRequired(k1, Woken(k.time)));
      MoreReady(k, k1);
      SameReady(k1, k2);
      CatchUpReadies(k2, ticks - 1);
    }
  }

  lemma ResumeReadies(k: Kernel, clock: int, due: map<Task, int>)
    requires Inv(k, clock, due) && k.depth == 1 && k.number > 0
    ensures forall x | x in k.pendingReady :: IsReady(ResumeAll(k), x)
  {
    hide Placed, Tells, Drain, CatchUp, ResetNext, Different, IsReady, Asleep;
    var k1 := k.(depth := 0);
    YieldPlacedAt(k, k1);
    assert Drainable(k1, clock, due) by { StillAsleep(k, k1, due); }
    DrainReadies(k1, clock, due);
    DrainedIs(k1);
    SameReady(Drain(k1), Drained(k1));
    CatchUpReadies(Drained(k1), k.pended);
  }

  lemma SuspendedThere(k: Kernel, clock: int, due: map<Task, int>, t: Task)
    requires Inv(k, clock, due) && Enabled(k, SuspendIt(t))
    ensures t in SuspendTask(k, t).suspended && t !in SuspendTask(k, t).pendingReady
  {
    hide Placed, Tells, RemoveFromRing, RemoveSleeper, Without, ResetNext, SomethingReady, HighestFrom;
    WithoutDifferent(k.pendingReady, t);
  }

  lemma ResumedThere(k: Kernel, clock: int, due: map<Task, int>, t: Task)
    requires Inv(k, clock, due) && Enabled(k, ResumeIt(t))
    ensures IsReady(ResumeTask(k, t), t) && t !in ResumeTask(k, t).suspended
  {
    hide Tells, ReadyOk, ReadyTasks, RemoveFromRing, RemoveSleeper, Without, AddReady;
    Live(k, t);
    AddReadyTasks(RemoveState(k, t), t);
    WithoutItems(k.suspended, t);
    assert multiset(k.suspended)[t] <= 1;
    AddReadyFrame(RemoveState(k, t), t);
    assert multiset(ResumeTask(k, t).suspended)[t] == 0;
  }

  // Suspensions of the scheduler nest, and while it is suspended nobody else runs.
  lemma DepthCounts(k: Kernel, clock: int, due: map<Task, int>, a: Action)
    requires Inv(k, clock, due) && Enabled(k, a)
    ensures Next(k, a).depth == k.depth + (if a.SuspendScheduler? then 1 else 0) - (if a.ResumeScheduler? then 1 else 0)
    ensures k.depth > 0 && k.running && k.current != NOBODY ==> Next(k, a).current == k.current
  {
    hide Placed, Tells, ReadyOk, RemoveFromRing, RemoveSleeper, Without, AddDelayed, ResetNext, InsertEnd, PendingOk,
         ResumeAll, Processed, Suspended, SuspendTask, HighestFrom, SomethingReady;
    match a
    case TickInt => ProcessedPlaced(k);
    case ResumeScheduler => ResumeKeeps(k, clock, due);
    case SuspendIt(t) => SuspendDepth(k, t);
    case _ =>
  }

  lemma SuspendDepth(k: Kernel, t: Task)
    requires Enabled(k, SuspendIt(t))
    ensures SuspendTask(k, t).depth == k.depth && (k.running ==> SuspendTask(k, t).current == k.current)
  {
    hide RemoveFromRing, RemoveSleeper, Without, SomethingReady, ResetNext, HighestFrom;
  }
}
