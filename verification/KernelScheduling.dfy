/** Which task a context switch runs. */
module KernelScheduling {
  import opened Rings
  import opened KernelTime
  import opened KernelTypes
  import opened KernelState
  import opened KernelLists
  import opened KernelRuns

  // A context switch runs a ready task of the highest priority: the first in turn of its list.
  lemma SwitchPicksHighest(k: Kernel, clock: int, due: map<Task, int>)
    requires Inv(k, clock, due) && k.depth == 0 && SomethingReady(k)
    ensures var k' := Switch(k);
            var p := k'.top;
            && k'.current in k.ready[p].items && k'.current == Turns(k.ready[p])[0]
            && k'.current in k.prio && k.prio[k'.current] == p
            && (forall t | ReadyTasks(k.ready)[t] > 0 :: t in k.prio && k.prio[t] <= p)
  {
    hide Sleepers, HighestFrom;
    var p := HighestFrom(k.ready, k.top);
    AdvanceTurns(k.ready[p]);
    forall t | ReadyTasks(k.ready)[t] > 0
      ensures t in k.prio && k.prio[t] <= p
    {
      var q := ReadySomewhere(k.ready, t);
      assert k.ready[q].items != [];
    }
  }

  lemma {:induction false} ReadySomewhere(ready: seq<WalkedRing<Task>>, t: Task) returns (p: nat)
    requires ReadyTasks(ready)[t] > 0
    ensures p < |ready| && t in ready[p].items
  {
    if t in ready[0].items {
      p := 0;
    } else {
      p := ReadySomewhere(ready[1..], t);
      p := p + 1;
    }
  }

  function SwitchBy(k: Kernel, n: nat): (k': Kernel)
    requires k.depth == 0 && SomethingReady(k)
    ensures k'.depth == 0 && SomethingReady(k') && |k'.ready| == |k.ready|
    decreases n
  {
    if n == 0 then k
    else
      var k1 := Switch(k);
      assert k1.ready[k1.top].items != [];
      SwitchBy(k1, n - 1)
  }

  lemma {:induction false} SwitchByAdvances(k: Kernel, n: nat)
    requires k.depth == 0 && SomethingReady(k)
    ensures var p := HighestFrom(k.ready, k.top);
            var k' := SwitchBy(k, n);
            && k'.ready[p] == AdvanceBy(k.ready[p], n)
            && (n > 0 ==> k'.top == p && k'.current == Served(k'.ready[p]))
    decreases n
  {
    if n > 0 {
      var p, k1 := HighestFrom(k.ready, k.top), Switch(k);
      assert k1.ready[k1.top].items != [];
      assert HighestFrom(k1.ready, k1.top) == p;
      SwitchByAdvances(k1, n - 1);
    }
  }

  // Switches over an unchanged ready list of the highest priority run its tasks in turn, each once per round.
  lemma TasksShareTime(k: Kernel, n: nat)
    requires k.depth == 0 && SomethingReady(k)
    ensures var r := k.ready[HighestFrom(k.ready, k.top)];
            && (1 <= n <= |r.items| ==> SwitchBy(k, n).current == Turns(r)[n - 1])
            && multiset(Turns(r)) == multiset(r.items)
  {
    var r := k.ready[HighestFrom(k.ready, k.top)];
    EverybodyOnce(r);
    SwitchByAdvances(k, n);
    if 1 <= n <= |r.items| {
      StepsServeInTurn(r, n);
    }
  }

  // A task that becomes ready is served after every other task of its priority, but for the one served at the moment.
  lemma ReadiedServedLast(k: Kernel, t: Task)
    ensures var r, r' := k.ready[Level(k, t)], AddReady(k, t).ready[Level(k, t)];
            Turns(r') == if r.pos == 0 then Turns(r) + [t] else Turns(r)[..|Turns(r)| - 1] + [t, Served(r)]
  {
    InsertedLast(k.ready[Level(k, t)], t);
  }

  // ---- The idle task keeps the search for a ready task in bounds ----

  ghost predicate IdleReady(k: Kernel, idle: Task) {
    idle in k.prio && k.prio[idle] == 0 && ReadyTasks(k.ready)[idle] == 1
  }

  // As long as no operation blocks, suspends or deletes the idle task, the assertion of the search never fails.
  lemma SearchNeverFails(k: Kernel, clock: int, due: map<Task, int>, actions: seq<Action>, idle: Task)
    requires Inv(k, clock, due) && IdleReady(k, idle) && idle !in k.pendingReady && IsRun(k, actions, idle)
    ensures SomethingReady(Run(k, actions, idle))
  {
    hide Inv, Next, Enabled, ClockAfter, DueAfter, LeavesAlone, Run, IsRun;
    var d := clock;
    IdleAwake(k, clock, due, idle);
    var due' := RunWakesAt(k, clock, due, actions, idle, d);
    ClockGrows(k, clock, actions, idle);
    var k', now := Run(k, actions, idle), RunClock(k, clock, actions, idle);
    AsleepOrReady(k', now, due', idle, d);
    InvReadyOk(k', now, due');
    var p := ReadySomewhere(k'.ready, idle);
    assert k'.ready[p].items != [];
  }

  lemma InvReadyOk(k: Kernel, clock: int, due: map<Task, int>)
    requires Inv(k, clock, due)
    ensures ReadyOk(k.ready, k.top, k.prio)
  {
  }

  lemma IdleAwake(k: Kernel, clock: int, due: map<Task, int>, idle: Task)
    requires Inv(k, clock, due) && IdleReady(k, idle) && idle !in k.pendingReady
    ensures WakesAt(k, clock, due, idle, clock)
  {
    hide ReadyTasks;
    Live(k, idle);
    SleepersAre(k.time, clock, due, idle);
  }

  lemma {:induction false} ClockGrows(k: Kernel, clock: int, actions: seq<Action>, x: Task)
    requires IsRun(k, actions, x)
    ensures RunClock(k, clock, actions, x) >= clock
    decreases actions
  {
    hide Next, Enabled, LeavesAlone;
    if actions != [] {
      ClockGrows(Next(k, actions[0]), ClockAfter(k, clock, actions[0]), actions[1..], x);
    }
  }

  // ---- The task the scheduler starts with ----

  ghost predicate OnlyCreates(actions: seq<Action>) {
    forall i | 0 <= i < |actions| :: actions[i].CreateTask?
  }

  // The current task is one of the highest priority created.
  ghost predicate HighestCurrent(k: Kernel) {
    && !k.running && NOBODY !in k.prio && (k.current == NOBODY <==> k.prio.Keys == {})
    && (forall t | t in k.prio :: k.prio[t] < |k.ready|)
    && (k.current != NOBODY ==> k.current in k.prio && forall t | t in k.prio :: k.prio[t] <= k.prio[k.current])
  }

  // It is the last created of that priority.
  ghost predicate LastOfHighest(k: Kernel, created: seq<Action>) {
    && OnlyCreates(created) && (created == [] ==> k.current == NOBODY)
    && (created != [] ==>
          exists i | 0 <= i < |created| :: Chosen(k, created[i]) && forall j | i < j < |created| :: created[j].p < created[i].p)
  }

  ghost predicate Chosen(k: Kernel, a: Action) {
    a.CreateTask? && a.t == k.current && k.current in k.prio && a.p == k.prio[k.current]
  }

  lemma CreateFrame(k: Kernel, t: Task, p: nat)
    requires t !in k.prio
    ensures var k' := Create(k, t, p);
            && k'.prio == k.prio[t := p] && k'.running == k.running && |k'.ready| == |k.ready|
            && k'.current == if k.current == NOBODY || (!k.running && Level(k, k.current) <= p) then t else k.current
  {
  }

  lemma CreateChooses(k: Kernel, created: seq<Action>, a: Action)
    requires HighestCurrent(k) && LastOfHighest(k, created) && a.CreateTask? && Enabled(k, a)
    ensures HighestCurrent(Next(k, a)) && LastOfHighest(Next(k, a), created + [a])
  {
    hide AddReady;
    var k', all := Next(k, a), created + [a];
    CreateFrame(k, a.t, a.p);
    assert a.t in k'.prio;
    if k'.current == a.t {
      assert Chosen(k', all[|created|]);
    } else {
      var i :| 0 <= i < |created| && Chosen(k, created[i]) && forall j | i < j < |created| :: created[j].p < created[i].p;
      assert Chosen(k', all[i]);
      assert forall j | i < j < |all| :: all[j].p < all[i].p;
    }
  }

  lemma {:induction false} CreatesChoose(k: Kernel, created: seq<Action>, actions: seq<Action>)
    requires HighestCurrent(k) && LastOfHighest(k, created) && OnlyCreates(actions) && Possible(k, actions)
    ensures HighestCurrent(After(k, actions)) && LastOfHighest(After(k, actions), created + actions)
    decreases actions
  {
    hide HighestCurrent, LastOfHighest, Next, Enabled;
    if actions == [] {
      assert created + actions == created;
    } else {
      CreateChooses(k, created, actions[0]);
      CreatesChoose(Next(k, actions[0]), created + [actions[0]], actions[1..]);
      assert created + [actions[0]] + actions[1..] == created + actions;
    }
  }

  // After the creations and before anything else, the task the scheduler starts with is one of the highest priority:
  // the last created of that priority.
  lemma StartsWithHighest(priorities: nat, tick: nat, actions: seq<Action>)
    requires priorities > 0 && tick < M && actions != [] && OnlyCreates(actions)
    requires Possible(Fresh(priorities, tick), actions)
    ensures var k := After(Fresh(priorities, tick), actions);
            && k.current in k.prio && (forall t | t in k.prio :: k.prio[t] <= k.prio[k.current])
            && exists i | 0 <= i < |actions| :: Chosen(k, actions[i]) && forall j | i < j < |actions| :: actions[j].p < actions[i].p
  {
    hide Possible, After;
    CreatesChoose(Fresh(priorities, tick), [], actions);
    assert [] + actions == actions;
  }
}
