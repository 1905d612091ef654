/**
 Mutexes with priority inheritance (queue.c and tasks.c): taking, blocking,
 giving, timing out and setting priorities as steps of a system of tasks. Two
 results: the bookkeeping of every run, and bounded priority inversion of the
 runs in which the highest priority ready task runs.
 */
module Mutexes {
  import opened KernelTypes
  import opened Options
  import opened Sequences
  import R = Rings

  type Mutex = nat

  // inherited is the local flag of a take: blocking raised, or had already raised, the holder.
  datatype Pc =
    | Outside
    | Trying(m: Mutex, inherited: bool)
    | Blocked(m: Mutex, inherited: bool)
    | Expired(m: Mutex, inherited: bool)
    | Leaving(m: Mutex, inherited: bool)
    | Sleeping

  // key is the priority the event list item stands for.
  datatype Tcb = Tcb(prio: nat, base: nat, key: nat, held: nat, pc: Pc)

  // ---- The kernel's changes to one task ----

  function Inherit(holder: Tcb, prio: nat): Tcb {
    if holder.prio < prio then holder.(prio := prio, key := prio) else holder
  }

  predicate InheritanceOccurred(holder: Tcb, prio: nat) {
    holder.prio < prio || holder.base < prio
  }

  function Disinherit(holder: Tcb): Tcb
    requires holder.held > 0
  {
    var h := holder.(held := holder.held - 1);
    if h.prio != h.base && h.held == 0 then h.(prio := h.base, key := h.base) else h
  }

  // Only as far down as the base priority and the highest priority still waiting, and only with one mutex held.
  function DisinheritAfterTimeout(holder: Tcb, waiting: nat): Tcb {
    var p := if holder.base < waiting then waiting else holder.base;
    if holder.prio != p && holder.held == 1 then holder.(prio := p, key := p) else holder
  }

  function SetPriority(t: Tcb, prio: nat): Tcb {
    if t.base == prio then t
    else t.(prio := if t.base == t.prio || prio > t.prio then prio else t.prio, base := prio, key := prio)
  }

  // ---- The system ----

  datatype MutexState = MutexState(holder: Option<Task>, waiting: seq<Task>)

  datatype Sys = Sys(tasks: map<Task, Tcb>, mutexes: map<Mutex, MutexState>)

  // Behind every waiting task whose key is not lower.
  function Place(tasks: map<Task, Tcb>, waiting: seq<Task>, t: Task): (r: seq<Task>)
    requires t in tasks
    ensures forall u :: u in r <==> u in waiting || u == t
  {
    if waiting == [] then [t]
    else if waiting[0] in tasks && tasks[waiting[0]].key < tasks[t].key then [t] + waiting
    else [waiting[0]] + Place(tasks, waiting[1..], t)
  }

  // The key of the first waiting task, or the idle priority.
  function HighestWaiting(s: Sys, m: Mutex): nat
    requires m in s.mutexes
  {
    var w := s.mutexes[m].waiting;
    if w != [] && w[0] in s.tasks then s.tasks[w[0]].key else 0
  }

  datatype Step =
    | Call(t: Task, m: Mutex)
    | Take(t: Task)
    | GiveUp(t: Task)
    | Block(t: Task)
    | Expire(t: Task)
    | Recheck(t: Task)
    | FinishTimeOut(t: Task)
    | TimeOut(t: Task)
    | Give(t: Task, m: Mutex)
    | Sleep(t: Task)
    | Wake(t: Task)
    | SetPrio(t: Task, prio: nat)

  predicate InCall(s: Sys, t: Task) {
    t in s.tasks && !s.tasks[t].pc.Outside? && !s.tasks[t].pc.Sleeping? && s.tasks[t].pc.m in s.mutexes
  }

  predicate Enabled(s: Sys, a: Step) {
    && a.t in s.tasks
    && match a
       case Call(t, m) => s.tasks[t].pc.Outside? && m in s.mutexes
       case Take(t) => InCall(s, t) && s.tasks[t].pc.Trying? && s.mutexes[s.tasks[t].pc.m].holder.None?
       case GiveUp(t) => InCall(s, t) && s.tasks[t].pc.Trying? && s.mutexes[s.tasks[t].pc.m].holder.Some?
       case Block(t) => InCall(s, t) && s.tasks[t].pc.Trying? && s.mutexes[s.tasks[t].pc.m].holder.Some?
       case Expire(t) => InCall(s, t) && s.tasks[t].pc.Trying? && s.mutexes[s.tasks[t].pc.m].holder.Some?
       case Recheck(t) => InCall(s, t) && s.tasks[t].pc.Expired?
       case FinishTimeOut(t) => InCall(s, t) && s.tasks[t].pc.Leaving?
       case TimeOut(t) => InCall(s, t) && s.tasks[t].pc.Blocked?
       case Give(t, m) => s.tasks[t].pc.Outside? && m in s.mutexes && s.mutexes[m].holder == Some(t)
       case Sleep(t) => s.tasks[t].pc.Outside?
       case Wake(t) => s.tasks[t].pc.Sleeping?
       case SetPrio(t, _) => true
  }

  function WithPc(s: Sys, t: Task, pc: Pc): Sys
    requires t in s.tasks
  {
    s.(tasks := s.tasks[t := s.tasks[t].(pc := pc)])
  }

  function DoTake(s: Sys, t: Task): Sys
    requires Enabled(s, Take(t))
  {
    var m, tcb := s.tasks[t].pc.m, s.tasks[t];
    s.(tasks := s.tasks[t := tcb.(held := tcb.held + 1, pc := Outside)],
       mutexes := s.mutexes[m := s.mutexes[m].(holder := Some(t))])
  }

  // With the scheduler suspended: the holder inherits, then the task joins the waiting list.
  function DoBlock(s: Sys, t: Task): Sys
    requires Enabled(s, Block(t))
  {
    var m := s.tasks[t].pc.m;
    var h := s.mutexes[m].holder.value;
    if h !in s.tasks then s
    else
      var p := s.tasks[t].prio;
      var raised := s.tasks[h := Inherit(s.tasks[h], p)];
      s.(tasks := raised[t := raised[t].(pc := Pc.Blocked(m, InheritanceOccurred(s.tasks[h], p)))],
         mutexes := s.mutexes[m := s.mutexes[m].(waiting := Place(raised, s.mutexes[m].waiting, t))])
  }

  // A task that timed out tries again if the mutex has become free, and is about to leave the call otherwise.
  function DoRecheck(s: Sys, t: Task): Sys
    requires Enabled(s, Recheck(t))
  {
    var pc := s.tasks[t].pc;
    WithPc(s, t, if s.mutexes[pc.m].holder.None? then Trying(pc.m, pc.inherited) else Leaving(pc.m, pc.inherited))
  }

  // By now the mutex may be free, or somebody else's.
  function DoFinishTimeOut(s: Sys, t: Task): Sys
    requires Enabled(s, FinishTimeOut(t))
  {
    var pc := s.tasks[t].pc;
    match s.mutexes[pc.m].holder
    case None => WithPc(s, t, Outside)
    case Some(h) =>
      var s' := WithPc(s, t, Outside);
      if pc.inherited && h in s'.tasks
      then s'.(tasks := s'.tasks[h := DisinheritAfterTimeout(s'.tasks[h], HighestWaiting(s, pc.m))])
      else s'
  }

  function Resumed(pc: Pc): Pc {
    if pc.Blocked? then Trying(pc.m, pc.inherited) else pc
  }

  function DoGive(s: Sys, t: Task, m: Mutex): Sys
    requires Enabled(s, Give(t, m)) && s.tasks[t].held > 0
  {
    var tasks := s.tasks[t := Disinherit(s.tasks[t])];
    var w := s.mutexes[m].waiting;
    if w == [] || w[0] !in tasks then Sys(tasks, s.mutexes[m := MutexState(None, w)])
    else Sys(tasks[w[0] := tasks[w[0]].(pc := Resumed(tasks[w[0]].pc))], s.mutexes[m := MutexState(None, w[1..])])
  }

  // The assertion that the giving task holds a mutex.
  predicate Asserted(s: Sys, a: Step) {
    a.Give? && a.t in s.tasks ==> s.tasks[a.t].held > 0
  }

  function Next(s: Sys, a: Step): Sys
    requires Enabled(s, a) && Asserted(s, a)
  {
    match a
    case Call(t, m) => WithPc(s, t, Trying(m, false))
    case Take(t) => DoTake(s, t)
    case GiveUp(t) => WithPc(s, t, Outside)
    case Block(t) => DoBlock(s, t)
    case Expire(t) => WithPc(s, t, Expired(s.tasks[t].pc.m, s.tasks[t].pc.inherited))
    case Recheck(t) => DoRecheck(s, t)
    case FinishTimeOut(t) => DoFinishTimeOut(s, t)
    case TimeOut(t) =>
      var m := s.tasks[t].pc.m;
      WithPc(s, t, Resumed(s.tasks[t].pc)).(mutexes := s.mutexes[m := s.mutexes[m].(waiting := Without(s.mutexes[m].waiting, t))])
    case Give(t, m) => DoGive(s, t, m)
    case Sleep(t) => WithPc(s, t, Sleeping)
    case Wake(t) => WithPc(s, t, Outside)
    case SetPrio(t, prio) => s.(tasks := s.tasks[t := SetPriority(s.tasks[t], prio)])
  }

  // ---- Bookkeeping: any scheduling, nested blocking and priority changes included ----

  ghost function HeldBy(mutexes: map<Mutex, MutexState>, t: Task): set<Mutex> {
    set m | m in mutexes && mutexes[m].holder == Some(t)
  }

  // A task's priority is at least its base priority, equal to it when no mutex is held.
  predicate Sound(t: Tcb) {
    t.prio >= t.base && (t.held == 0 ==> t.prio == t.base)
  }

  ghost predicate Counted(s: Sys) {
    && (forall m | m in s.mutexes && s.mutexes[m].holder.Some? :: s.mutexes[m].holder.value in s.tasks)
    && (forall t | t in s.tasks :: s.tasks[t].held == |HeldBy(s.mutexes, t)|)
  }

  ghost predicate Books(s: Sys) {
    Counted(s) && forall t | t in s.tasks :: Sound(s.tasks[t])
  }

  lemma HolderHolds(s: Sys, m: Mutex, t: Task)
    requires Counted(s) && m in s.mutexes && s.mutexes[m].holder == Some(t)
    ensures t in s.tasks && s.tasks[t].held > 0
  {
    assert m in HeldBy(s.mutexes, t);
  }

  lemma HeldChange(mutexes: map<Mutex, MutexState>, m: Mutex, x: MutexState, t: Task)
    requires m in mutexes
    ensures |HeldBy(mutexes[m := x], t)|
         == |HeldBy(mutexes, t)| - (if mutexes[m].holder == Some(t) then 1 else 0) + (if x.holder == Some(t) then 1 else 0)
  {
    var a, b := HeldBy(mutexes, t), HeldBy(mutexes[m := x], t);
    var rest := a - {m};
    assert b - {m} == rest;
    assert a == if mutexes[m].holder == Some(t) then rest + {m} else rest;
    assert b == if x.holder == Some(t) then rest + {m} else rest;
  }

  // Nobody takes or gives.
  lemma SameHolders(s: Sys, s': Sys)
    requires Counted(s) && s'.tasks.Keys == s.tasks.Keys && s'.mutexes.Keys == s.mutexes.Keys
    requires forall t | t in s.tasks :: s'.tasks[t].held == s.tasks[t].held
    requires forall m | m in s.mutexes :: s'.mutexes[m].holder == s.mutexes[m].holder
    ensures Counted(s')
  {
    forall t | t in s'.tasks
      ensures HeldBy(s'.mutexes, t) == HeldBy(s.mutexes, t)
    {
    }
  }

  lemma TakeBooks(s: Sys, t: Task)
    requires Books(s) && Enabled(s, Take(t))
    ensures Books(DoTake(s, t))
  {
    var m := s.tasks[t].pc.m;
    var x := s.mutexes[m].(holder := Some(t));
    forall u | u in s.tasks
      ensures DoTake(s, t).tasks[u].held == |HeldBy(s.mutexes[m := x], u)|
    {
      HeldChange(s.mutexes, m, x, u);
    }
  }

  lemma GiveCounted(s: Sys, t: Task, m: Mutex)
    requires Counted(s) && Enabled(s, Give(t, m)) && s.tasks[t].held > 0
    ensures Counted(DoGive(s, t, m))
  {
    hide HeldBy;
    var s' := DoGive(s, t, m);
    var x := s'.mutexes[m];
    assert s'.mutexes == s.mutexes[m := x];
    forall u | u in s.tasks
      ensures s'.tasks[u].held == |HeldBy(s'.mutexes, u)|
    {
      HeldChange(s.mutexes, m, x, u);
    }
  }

  lemma GiveBooks(s: Sys, t: Task, m: Mutex)
    requires Books(s) && Enabled(s, Give(t, m))
    ensures s.tasks[t].held > 0 && Books(DoGive(s, t, m))
  {
    hide Counted;
    HolderHolds(s, m, t);
    GiveCounted(s, t, m);
  }

  lemma BlockBooks(s: Sys, t: Task)
    requires Books(s) && Enabled(s, Block(t))
    ensures Books(DoBlock(s, t))
  {
    var m := s.tasks[t].pc.m;
    var h := s.mutexes[m].holder.value;
    HolderHolds(s, m, h);
    SameHolders(s, DoBlock(s, t));
  }

  lemma FinishTimeOutBooks(s: Sys, t: Task)
    requires Books(s) && Enabled(s, FinishTimeOut(t))
    ensures Books(DoFinishTimeOut(s, t))
  {
    SameHolders(s, DoFinishTimeOut(s, t));
  }

  lemma PlainBooks(s: Sys, a: Step)
    requires Books(s) && Enabled(s, a) && !a.Take? && !a.Give? && !a.Block? && !a.FinishTimeOut?
    ensures Asserted(s, a) && Books(Next(s, a))
  {
    SameHolders(s, Next(s, a));
  }

  // Every step of every task keeps the books, and the assertion at a give never fails.
  lemma BooksStep(s: Sys, a: Step)
    requires Books(s) && Enabled(s, a)
    ensures Asserted(s, a) && Books(Next(s, a))
  {
    hide Books, Enabled, DoTake, DoGive, DoBlock, DoFinishTimeOut;
    match a
    case Take(t) => TakeBooks(s, t);
    case Give(t, m) => GiveBooks(s, t, m);
    case Block(t) => BlockBooks(s, t);
    case FinishTimeOut(t) => FinishTimeOutBooks(s, t);
    case _ => PlainBooks(s, a);
  }

  // What each step does to the priority, the base priority and the held count of each task. Blocking raises the holder to
  // the blocking task's priority, and is remembered as a loan if that is above the holder's base; a give returns it to its base with the last mutex; setting a base priority moves a task
  // that has none inherited, and never takes away a higher inherited one.
  lemma StepChanges(s: Sys, a: Step, u: Task)
    requires Books(s) && Enabled(s, a) && u in s.tasks && !a.FinishTimeOut?
    ensures Asserted(s, a) && u in Next(s, a).tasks
    ensures var p, p' := s.tasks[u], Next(s, a).tasks[u];
            match a
            case Block(t) =>
              && p'.base == p.base && p'.held == p.held
              && p'.prio == (if s.mutexes[s.tasks[t].pc.m].holder == Some(u) && s.tasks[t].prio > p.prio then s.tasks[t].prio
                             else p.prio)
              && (u == t ==>
                    var h := s.mutexes[p.pc.m].holder.value;
                    h in s.tasks && p'.pc == Pc.Blocked(p.pc.m, p.prio > s.tasks[h].base))
            case Give(t, _) =>
              && p'.base == p.base && p'.held == (if u == t then p.held - 1 else p.held)
              && p'.prio == if u == t && p.held == 1 then p.base else p.prio
            case Take(t) => p'.base == p.base && p'.prio == p.prio && p'.held == if u == t then p.held + 1 else p.held
            case SetPrio(t, n) =>
              && p'.held == p.held && p'.base == (if u == t then n else p.base)
              && p'.prio == if u != t || n == p.base then p.prio
                            else if p.prio == p.base || n > p.prio then n else p.prio
            case _ => p'.base == p.base && p'.prio == p.prio && p'.held == p.held
  {
    hide Books;
    BooksStep(s, a);
    if a.Give? {
      SoundTask(s, a.t);
    }
    if a.Block? {
      var h := s.mutexes[s.tasks[a.t].pc.m].holder.value;
      HolderIn(s, s.tasks[a.t].pc.m, h);
      SoundTask(s, h);
    }
  }

  lemma HolderIn(s: Sys, m: Mutex, h: Task)
    requires Books(s) && m in s.mutexes && s.mutexes[m].holder == Some(h)
    ensures h in s.tasks
  {
  }

  lemma SoundTask(s: Sys, t: Task)
    requires Books(s) && t in s.tasks
    ensures Sound(s.tasks[t])
  {
  }

  // ---- The order of waiting ----

  // A waiting list as items whose values grow as the keys fall.
  ghost function Ranks(tasks: map<Task, Tcb>, w: seq<Task>, top: nat): (r: seq<R.Item<Task>>)
    requires forall u | u in w :: u in tasks && tasks[u].key <= top
    ensures |r| == |w|
  {
    seq(|w|, i requires 0 <= i < |w| => R.Item(w[i], top - tasks[w[i]].key))
  }

  lemma RanksCons(tasks: map<Task, Tcb>, t: Task, w: seq<Task>, top: nat)
    requires t in tasks && tasks[t].key <= top && forall u | u in w :: u in tasks && tasks[u].key <= top
    ensures Ranks(tasks, [t] + w, top) == [R.Item(t, top - tasks[t].key)] + Ranks(tasks, w, top)
  {
  }

  lemma InsertFirst<T>(list: seq<R.Item<T>>, x: R.Item<T>)
    requires list != [] && list[0].value > x.value
    ensures R.Insert(list, x) == [x] + list
  {
  }

  lemma InsertLater<T>(list: seq<R.Item<T>>, x: R.Item<T>)
    requires list != [] && list[0].value <= x.value
    ensures R.Insert(list, x) == [list[0]] + R.Insert(list[1..], x)
  {
    var i := R.Slot(list[1..], x.value);
    assert R.Slot(list, x.value) == i + 1;
    assert list[..i + 1] == [list[0]] + list[1..][..i] && list[i + 1..] == list[1..][i..];
  }

  // A task joins a waiting list by sorted insertion, so among equal keys the first to come is the first to be served.
  lemma {:induction false} PlacedInOrder(tasks: map<Task, Tcb>, w: seq<Task>, t: Task, top: nat)
    requires t in tasks && tasks[t].key <= top && forall u | u in w :: u in tasks && tasks[u].key <= top
    ensures Ranks(tasks, Place(tasks, w, t), top) == R.Insert(Ranks(tasks, w, top), R.Item(t, top - tasks[t].key))
  {
    var list, x := Ranks(tasks, w, top), R.Item(t, top - tasks[t].key);
    if w != [] && tasks[w[0]].key >= tasks[t].key {
      var rest := Place(tasks, w[1..], t);
      PlacedInOrder(tasks, w[1..], t, top);
      assert list[1..] == Ranks(tasks, w[1..], top);
      InsertLater(list, x);
      RanksCons(tasks, w[0], rest, top);
    } else if w != [] {
      InsertFirst(list, x);
      RanksCons(tasks, t, w, top);
    }
  }

  ghost predicate IsRun(s: Sys, steps: seq<Step>)
    decreases |steps|
  {
    steps != [] ==> Enabled(s, steps[0]) && Asserted(s, steps[0]) && IsRun(Next(s, steps[0]), steps[1..])
  }

  ghost function Run(s: Sys, steps: seq<Step>): Sys
    requires IsRun(s, steps)
    decreases |steps|
  {
    if steps == [] then s else Run(Next(s, steps[0]), steps[1..])
  }

  // No mutex held, nobody waiting, nobody in a call.
  ghost predicate Initial(s: Sys) {
    && (forall m | m in s.mutexes :: s.mutexes[m] == MutexState(None, []))
    && (forall t | t in s.tasks :: s.tasks[t].held == 0 && s.tasks[t].pc.Outside?
                                   && s.tasks[t].prio == s.tasks[t].base == s.tasks[t].key)
  }

  lemma {:induction false} RunBooks(s: Sys, steps: seq<Step>)
    requires Books(s) && IsRun(s, steps)
    ensures Books(Run(s, steps))
    decreases |steps|
  {
    hide Books, Enabled, Next, Asserted;
    if steps != [] {
      BooksStep(s, steps[0]);
      RunBooks(Next(s, steps[0]), steps[1..]);
    }
  }

  // In every run of take, block, give, time-out and priority-set steps: priorities never below base, equal to it when no
  // mutex is held, and the held count is the number of mutexes naming the task as holder.
  lemma PriorityBookkeeping(s: Sys, steps: seq<Step>, t: Task)
    requires Initial(s) && IsRun(s, steps) && t in Run(s, steps).tasks
    ensures var s' := Run(s, steps);
            var tcb := s'.tasks[t];
            && tcb.prio >= tcb.base && (tcb.held == 0 ==> tcb.prio == tcb.base)
            && tcb.held == |set m | m in s'.mutexes && s'.mutexes[m].holder == Some(t)|
  {
    assert Books(s) by {
      forall u | u in s.tasks
        ensures HeldBy(s.mutexes, u) == {}
      {
      }
    }
    RunBooks(s, steps);
    assert (set m | m in Run(s, steps).mutexes && Run(s, steps).mutexes[m].holder == Some(t)) == HeldBy(Run(s, steps).mutexes, t);
  }
}
