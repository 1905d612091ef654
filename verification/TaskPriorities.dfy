/**
 Mutexes and task priorities in place: the base priorities, event keys and
 held counts of the task control blocks, next to the scheduler whose ready
 lists follow every change of priority. Each call keeps the books.
 */
module TaskPriorities {
  import opened KernelTypes
  import opened Options
  import opened Mutexes
  import S = KernelState
  import R = KernelRuns
  import L = KernelLists
  import K = Kernel
  import opened OwnMutex

  // A ready task moves only when its priority changes.
  ghost function Moved(k: S.Kernel, t: Task, p: nat): S.Kernel {
    if t in k.prio && k.prio[t] == p then k else S.Reprioritise(k, t, p)
  }

  // The priority of a task control block is the one the scheduler goes by.
  class MutexTasks {
    const scheduler: K.Scheduler
    var tasks: map<Task, Tcb>
    var mutexes: map<Mutex, MutexState>

    ghost predicate Sane()
      reads this, scheduler
    {
      && scheduler.Valid() && tasks.Keys == scheduler.prio.Keys
      && forall t | t in tasks ::
           tasks[t].prio == scheduler.prio[t] && tasks[t].base < |scheduler.ready| && tasks[t].key < |scheduler.ready|
    }

    ghost function View(): Sys
      reads this
    {
      Sys(tasks, mutexes)
    }

    ghost predicate Valid()
      reads this, scheduler
    {
      Sane() && Books(View())
    }

    // Tasks already created, none of which holds a mutex, and free mutexes.
    constructor (scheduler: K.Scheduler, free: set<Mutex>)
      requires scheduler.Valid()
      ensures Valid() && this.scheduler == scheduler && Initial(View()) && View().mutexes.Keys == free
    {
      this.scheduler := scheduler;
      tasks := map t | t in scheduler.prio :: Tcb(scheduler.prio[t], scheduler.prio[t], scheduler.prio[t], 0, Outside);
      mutexes := map m | m in free :: MutexState(None, []);
      new;
      PrioritiesBelow(scheduler.View(), scheduler.clock, scheduler.due);
      InitialBooks(View());
    }

    lemma Bounded()
      requires Sane()
      ensures forall t | t in tasks :: tasks[t].prio < |scheduler.ready|
    {
      PrioritiesBelow(scheduler.View(), scheduler.clock, scheduler.due);
    }

    // The event key and the ready list follow the new priority.
    method SetEffective(t: Task, priority: nat)
      requires Sane() && t in tasks && priority < |scheduler.ready|
      modifies this`tasks, scheduler
      ensures Sane() && tasks == old(tasks)[t := old(tasks[t]).(prio := priority, key := priority)]
      ensures scheduler.View() == S.Reprioritise(old(scheduler.View()), t, priority)
      ensures scheduler.current == old(scheduler.current) && |scheduler.ready| == |old(scheduler.ready)|
    {
      hide R.Inv, R.DueAfter, R.ClockAfter, S.Reprioritise;
      PriorityChange(scheduler.View(), t, priority);
      scheduler.ChangePriority(t, priority);
      tasks := tasks[t := tasks[t].(prio := priority, key := priority)];
    }

    // The running task takes a mutex.
    method IncrementMutexHeldCount()
      requires Sane() && scheduler.current in tasks
      modifies this`tasks
      ensures var t := scheduler.current;
              Sane() && tasks == old(tasks)[t := old(tasks[t]).(held := old(tasks[t]).held + 1)]
    {
      hide K.Scheduler.Valid;
      var tcb := tasks[scheduler.current];
      tasks := tasks[scheduler.current := tcb.(held := tcb.held + 1)];
    }

    // A mutex taken from an interrupt has no holder.
    method PriorityInherit(holder: Option<Task>) returns (occurred: bool)
      requires Sane() && scheduler.current in tasks && (holder.Some? ==> holder.value in tasks)
      modifies this`tasks, scheduler
      ensures Sane() && scheduler.current == old(scheduler.current) && |scheduler.ready| == |old(scheduler.ready)|
      ensures holder.None? ==> !occurred && tasks == old(tasks) && scheduler.View() == old(scheduler.View())
      ensures holder.Some? ==>
                var h, tcb, p := holder.value, old(tasks[holder.value]), old(tasks[scheduler.current]).prio;
                && tasks == old(tasks)[h := Inherit(tcb, p)] && occurred == InheritanceOccurred(tcb, p)
                && scheduler.View() == Moved(old(scheduler.View()), h, Inherit(tcb, p).prio)
    {
      hide K.Scheduler.Valid, S.Reprioritise;
      occurred := false;
      if holder.Some? {
        var h, p := holder.value, tasks[scheduler.current].prio;
        assert tasks[h := tasks[h]] == tasks;
        if tasks[h].prio < p {
          Bounded();
          SetEffective(h, p);
          occurred := true;
        } else if tasks[h].base < p {
          occurred := true;
        }
      }
    }

    // The running task is in the ready list of its priority.
    ghost predicate RunningIsReady()
      requires Sane()
      reads this, scheduler
    {
      scheduler.current in scheduler.ready[scheduler.Level(scheduler.current)].items
    }

    // Called by the running task; tells whether a context switch is due.
    method PriorityDisinherit(holder: Option<Task>) returns (switchRequired: bool)
      requires Sane() && RunningIsReady()
      requires holder.Some? ==> holder.value == scheduler.current && holder.value in tasks && tasks[holder.value].held > 0
      modifies this`tasks, scheduler
      ensures Sane() && scheduler.current == old(scheduler.current) && |scheduler.ready| == |old(scheduler.ready)|
      ensures holder.None? ==> !switchRequired && tasks == old(tasks) && scheduler.View() == old(scheduler.View())
      ensures holder.Some? ==>
                var h, tcb := holder.value, old(tasks[holder.value]);
                && tasks == old(tasks)[h := Disinherit(tcb)] && switchRequired == (tasks[h].prio != tcb.prio)
                && scheduler.View() == Moved(old(scheduler.View()), h, Disinherit(tcb).prio)
    {
      hide K.Scheduler.Valid, S.Reprioritise;
      switchRequired := false;
      if holder.Some? {
        var h, tcb := holder.value, tasks[holder.value];
        tasks := tasks[h := tcb.(held := tcb.held - 1)];
        if tcb.prio != tcb.base && tasks[h].held == 0 {
          SetEffective(h, tcb.base);
          switchRequired := true;
        }
      }
    }

    // ok is false when the running task is about to lower itself, which the program asserts away.
    method PriorityDisinheritAfterTimeout(holder: Option<Task>, waiting: nat) returns (ok: bool)
      requires Sane() && waiting < |scheduler.ready|
      requires holder.Some? ==> holder.value in tasks && tasks[holder.value].held > 0
      modifies this`tasks, scheduler
      ensures Sane() && scheduler.current == old(scheduler.current) && |scheduler.ready| == |old(scheduler.ready)|
      ensures ok == !(holder == Some(scheduler.current)
                      && DisinheritAfterTimeout(old(tasks[holder.value]), waiting) != old(tasks[holder.value]))
      ensures !ok || holder.None? ==> tasks == old(tasks) && scheduler.View() == old(scheduler.View())
      ensures ok && holder.Some? ==>
                var h, tcb := holder.value, old(tasks[holder.value]);
                && tasks == old(tasks)[h := DisinheritAfterTimeout(tcb, waiting)]
                && scheduler.View() == Moved(old(scheduler.View()), h, DisinheritAfterTimeout(tcb, waiting).prio)
    {
      hide K.Scheduler.Valid, S.Reprioritise;
      ok := true;
      if holder.Some? {
        var h, tcb := holder.value, tasks[holder.value];
        assert tasks[h := tcb] == tasks;
        var priorityToUse := if tcb.base < waiting then waiting else tcb.base;
        if tcb.prio != priorityToUse && tcb.held == 1 {
          if h == scheduler.current { return false; }
          SetEffective(h, priorityToUse);
        }
      }
    }

    // A ready task moves to the end of its list even when an inherited priority stays in use.
    method SetBase(t: Task, newPriority: nat)
      requires Sane() && t in tasks && newPriority < |scheduler.ready| && tasks[t].base != newPriority
      modifies this`tasks, scheduler
      ensures Sane() && tasks == old(tasks)[t := SetPriority(old(tasks[t]), newPriority)]
      ensures scheduler.View() == S.Reprioritise(old(scheduler.View()), t, tasks[t].prio)
      ensures scheduler.current == old(scheduler.current)
    {
      hide K.Scheduler.Valid, S.Reprioritise;
      Bounded();
      var tcb := tasks[t];
      SetEffective(t, if tcb.base == tcb.prio || newPriority > tcb.prio then newPriority else tcb.prio);
      tasks := tasks[t := tasks[t].(base := newPriority, key := newPriority)];
    }

    method PrioritySet(t: Task, newPriority: nat) returns (yieldRequired: bool)
      requires Valid() && t in tasks && newPriority < |scheduler.ready|
      modifies this`tasks, scheduler
      ensures Valid() && View() == Next(old(View()), SetPrio(t, newPriority))
      ensures scheduler.View() == if old(tasks[t]).base == newPriority then old(scheduler.View())
                                  else S.Reprioritise(old(scheduler.View()), t, tasks[t].prio)
      ensures yieldRequired == if newPriority > old(tasks[t]).base
                               then t != scheduler.current && newPriority > old(scheduler.Level(scheduler.current))
                               else newPriority < old(tasks[t]).base && t == scheduler.current
    {
      hide R.Inv, S.Reprioritise, Books, Next;
      PrioIs(View(), t, newPriority);
      yieldRequired := false;
      if tasks[t].base != newPriority {
        if newPriority > tasks[t].base {
          yieldRequired := t != scheduler.current && newPriority > scheduler.Level(scheduler.current);
        } else {
          yieldRequired := t == scheduler.current;
        }
        SetBase(t, newPriority);
      }
    }

    // The call a task is in moves on.
    method MoveOn(t: Task, next: Pc)
      requires Sane() && t in tasks
      modifies this`tasks
      ensures Sane() && tasks == old(tasks)[t := old(tasks[t]).(pc := next)]
    {
      hide K.Scheduler.Valid;
      tasks := tasks[t := tasks[t].(pc := next)];
    }

    // ---- The mutex calls of queue.c, one atomic section each ----

    method TakeMutex()
      requires Valid() && Enabled(View(), Take(scheduler.current))
      modifies this`tasks, this`mutexes
      ensures Valid() && View() == Next(old(View()), Take(scheduler.current))
    {
      hide K.Scheduler.Valid, Books, Next;
      var t := scheduler.current;
      TakeIs(View(), t);
      var m := tasks[t].pc.m;
      IncrementMutexHeldCount();
      mutexes := mutexes[m := mutexes[m].(holder := Some(t))];
      MoveOn(t, Outside);
    }

    // With the scheduler suspended: the holder inherits, then the task joins the waiting list.
    method WaitForMutex()
      requires Valid() && Enabled(View(), Step.Block(scheduler.current))
      modifies this`tasks, this`mutexes, scheduler
      ensures Valid() && View() == Next(old(View()), Step.Block(old(scheduler.current)))
      ensures scheduler.current == old(scheduler.current)
    {
      hide K.Scheduler.Valid, Books, Next, Place, S.Reprioritise, Inherit, InheritanceOccurred;
      var t := scheduler.current;
      BlockIs(View(), t);
      var m := tasks[t].pc.m;
      var occurred := PriorityInherit(mutexes[m].holder);
      mutexes := mutexes[m := mutexes[m].(waiting := Place(tasks, mutexes[m].waiting, t))];
      MoveOn(t, Pc.Blocked(m, occurred));
    }

    // The waiting task that is woken tries again; its move to a ready list is the scheduler's.
    method WakeFirst(m: Mutex)
      requires Sane() && m in mutexes
      modifies this`tasks, this`mutexes
      ensures Sane() && View() == Woken(old(View()), m)
    {
      hide K.Scheduler.Valid;
      var w := mutexes[m].waiting;
      if w == [] || w[0] !in tasks {
        mutexes := mutexes[m := MutexState(None, w)];
      } else {
        mutexes := mutexes[m := MutexState(None, w[1..])];
        MoveOn(w[0], Resumed(tasks[w[0]].pc));
      }
    }

    method GiveMutex(m: Mutex) returns (switchRequired: bool)
      requires Valid() && RunningIsReady() && Enabled(View(), Give(scheduler.current, m))
      modifies this`tasks, this`mutexes, scheduler
      ensures Valid() && Asserted(old(View()), Give(old(scheduler.current), m))
      ensures View() == Next(old(View()), Give(old(scheduler.current), m))
      ensures scheduler.current == old(scheduler.current)
      ensures switchRequired == (tasks[scheduler.current].prio != old(tasks[scheduler.current]).prio)
    {
      hide K.Scheduler.Valid, Books, Next, Woken, Disinherit;
      var t := scheduler.current;
      GiveIs(View(), t, m);
      switchRequired := PriorityDisinherit(Some(t));
      WakeFirst(m);
    }

    // The wait has timed out: the mutex may have become free meanwhile.
    method RecheckMutex() returns (retry: bool)
      requires Valid() && Enabled(View(), Recheck(scheduler.current))
      modifies this`tasks
      ensures Valid() && View() == Next(old(View()), Recheck(scheduler.current))
      ensures retry == tasks[scheduler.current].pc.Trying?
    {
      hide K.Scheduler.Valid, Books, Next;
      var t := scheduler.current;
      RecheckIs(View(), t);
      var call := tasks[t].pc;
      retry := mutexes[call.m].holder.None?;
      MoveOn(t, if retry then Trying(call.m, call.inherited) else Leaving(call.m, call.inherited));
    }

    // ok is false, and nothing has changed, when the assertion about the running task fails.
    method FinishWait() returns (ok: bool)
      requires Valid() && Enabled(View(), FinishTimeOut(scheduler.current))
      modifies this`tasks, scheduler
      ensures Valid() && scheduler.current == old(scheduler.current)
      ensures ok == !LowersItself(old(View()), scheduler.current)
      ensures View() == if ok then Next(old(View()), FinishTimeOut(old(scheduler.current))) else old(View())
    {
      hide K.Scheduler.Valid, Books, Next, DisinheritAfterTimeout, HighestWaiting, LowersItself;
      var t := scheduler.current;
      FinishIs(View(), t);
      var call := tasks[t].pc;
      ok := true;
      if call.inherited {
        WaitingBelow(call.m);
        var waiting := HighestWaiting(Sys(tasks, mutexes), call.m);
        ok := PriorityDisinheritAfterTimeout(mutexes[call.m].holder, waiting);
      }
      if ok { MoveOn(t, Outside); }
    }

    lemma WaitingBelow(m: Mutex)
      requires Sane() && m in mutexes
      ensures HighestWaiting(View(), m) < |scheduler.ready|
    {
    }
  }

  // The mutex becomes free and its first waiting task tries again.
  function Woken(s: Sys, m: Mutex): Sys
    requires m in s.mutexes
  {
    var w := s.mutexes[m].waiting;
    if w == [] || w[0] !in s.tasks then s.(mutexes := s.mutexes[m := MutexState(None, w)])
    else Sys(s.tasks[w[0] := s.tasks[w[0]].(pc := Resumed(s.tasks[w[0]].pc))], s.mutexes[m := MutexState(None, w[1..])])
  }

  // ---- The steps, in the order in which the program makes its changes ----

  lemma PrioIs(s: Sys, t: Task, p: nat)
    requires Books(s) && t in s.tasks
    ensures Next(s, SetPrio(t, p)) == s.(tasks := s.tasks[t := SetPriority(s.tasks[t], p)])
    ensures Books(Next(s, SetPrio(t, p)))
    ensures s.tasks[t].base == p ==> Next(s, SetPrio(t, p)) == s
  {
    BooksStep(s, SetPrio(t, p));
    assert s.tasks[t := s.tasks[t]] == s.tasks;
  }

  lemma TakeIs(s: Sys, t: Task)
    requires Books(s) && Enabled(s, Take(t))
    ensures s.tasks[t].pc.Trying? && s.tasks[t].pc.m in s.mutexes && Books(Next(s, Take(t)))
    ensures var m, more := s.tasks[t].pc.m, s.tasks[t].(held := s.tasks[t].held + 1);
            Next(s, Take(t)) == Sys(s.tasks[t := more][t := more.(pc := Outside)], s.mutexes[m := s.mutexes[m].(holder := Some(t))])
  {
    BooksStep(s, Take(t));
  }

  lemma BlockIs(s: Sys, t: Task)
    requires Books(s) && Enabled(s, Step.Block(t))
    ensures s.tasks[t].pc.Trying? && s.tasks[t].pc.m in s.mutexes && Books(Next(s, Step.Block(t)))
    ensures var m := s.tasks[t].pc.m;
            && s.mutexes[m].holder.Some? && s.mutexes[m].holder.value in s.tasks
            && var h, p := s.mutexes[m].holder.value, s.tasks[t].prio;
               var raised := s.tasks[h := Inherit(s.tasks[h], p)];
               Next(s, Step.Block(t))
               == Sys(raised[t := raised[t].(pc := Pc.Blocked(m, InheritanceOccurred(s.tasks[h], p)))],
                      s.mutexes[m := s.mutexes[m].(waiting := Place(raised, s.mutexes[m].waiting, t))])
  {
    HolderHolds(s, s.tasks[t].pc.m, s.mutexes[s.tasks[t].pc.m].holder.value);
    BooksStep(s, Step.Block(t));
  }

  lemma GiveIs(s: Sys, t: Task, m: Mutex)
    requires Books(s) && Enabled(s, Give(t, m))
    ensures m in s.mutexes && Asserted(s, Give(t, m)) && s.tasks[t].held > 0 && Books(Next(s, Give(t, m)))
    ensures Next(s, Give(t, m)) == Woken(s.(tasks := s.tasks[t := Disinherit(s.tasks[t])]), m)
  {
    BooksStep(s, Give(t, m));
  }

  lemma RecheckIs(s: Sys, t: Task)
    requires Books(s) && Enabled(s, Recheck(t))
    ensures var call := s.tasks[t].pc;
            && call.Expired? && call.m in s.mutexes && Books(Next(s, Recheck(t)))
            && Next(s, Recheck(t)) == WithPc(s, t, if s.mutexes[call.m].holder.None? then Trying(call.m, call.inherited)
                                                   else Leaving(call.m, call.inherited))
  {
    BooksStep(s, Recheck(t));
  }

  lemma FinishIs(s: Sys, t: Task)
    requires Books(s) && Enabled(s, FinishTimeOut(t))
    ensures var call := s.tasks[t].pc;
            && call.Leaving? && call.m in s.mutexes && Books(Next(s, FinishTimeOut(t)))
            && var holder := s.mutexes[call.m].holder;
               match holder
               case None => !LowersItself(s, t) && Next(s, FinishTimeOut(t)) == WithPc(s, t, Outside)
               case Some(h) =>
                 && h in s.tasks && s.tasks[h].held > 0
                 && LowersItself(s, t) == (call.inherited && h == t
                      && DisinheritAfterTimeout(s.tasks[t], HighestWaiting(s, call.m)) != s.tasks[t])
                 && Next(s, FinishTimeOut(t))
                    == WithPc(if call.inherited
                              then s.(tasks := s.tasks[h := DisinheritAfterTimeout(s.tasks[h], HighestWaiting(s, call.m))])
                              else s, t, Outside)
  {
    var call := s.tasks[t].pc;
    BooksStep(s, FinishTimeOut(t));
    if s.mutexes[call.m].holder.Some? {
      var h := s.mutexes[call.m].holder.value;
      HolderHolds(s, call.m, h);
      var lowered := DisinheritAfterTimeout(s.tasks[h], HighestWaiting(s, call.m));
      var raised := s.tasks[h := lowered];
      assert call.inherited ==> Next(s, FinishTimeOut(t)).tasks == raised[t := raised[t].(pc := Outside)];
    }
  }

  lemma PrioritiesBelow(k: S.Kernel, clock: int, due: map<Task, int>)
    requires R.Inv(k, clock, due)
    ensures forall t | t in k.prio :: k.prio[t] < |k.ready|
  {
  }

  lemma PriorityChange(k: S.Kernel, t: Task, p: nat)
    requires t in k.prio && p < |k.ready|
    ensures R.Enabled(k, R.SetPriority(t, p)) && R.Next(k, R.SetPriority(t, p)) == S.Reprioritise(k, t, p)
    ensures var k' := S.Reprioritise(k, t, p);
            k'.prio == k.prio[t := p] && k'.current == k.current && |k'.ready| == |k.ready|
  {
  }

  lemma InitialBooks(s: Sys)
    requires Initial(s)
    ensures Books(s)
  {
    forall u | u in s.tasks
      ensures HeldBy(s.mutexes, u) == {}
    {
    }
  }
}
