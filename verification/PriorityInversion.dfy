/**
 Bounded priority inversion: as long as a task that takes a mutex is one of the
 highest priority ready tasks, no task blocks on a mutex while it holds one and
 priorities are not set, a mutex holder's priority is at least that of every
 task blocked on the mutex.
 */
module PriorityInversion {
  import opened KernelTypes
  import opened Options
  import opened Sequences
  import opened Mutexes

  predicate Ready(t: Tcb) {
    !t.pc.Blocked? && !t.pc.Sleeping?
  }

  // The running task: ready, and no ready task has a higher priority.
  ghost predicate Runs(s: Sys, t: Task) {
    t in s.tasks && Ready(s.tasks[t]) && forall u | u in s.tasks && Ready(s.tasks[u]) :: s.tasks[u].prio <= s.tasks[t].prio
  }

  // Only the taking of a mutex is tied to the running task: any other step may also be that of a task that goes on with
  // the scheduler suspended, or before the switch to a task just readied.
  ghost predicate Disciplined(s: Sys, a: Step) {
    && Enabled(s, a) && !a.SetPrio?
    && (a.Take? ==> Runs(s, a.t))
    && (a.Block? ==> s.tasks[a.t].held == 0)
  }

  // ---- The invariant ----

  ghost predicate BlockedOn(s: Sys, m: Mutex, t: Task) {
    t in s.tasks && s.tasks[t].pc.Blocked? && s.tasks[t].pc.m == m
  }

  // The waiting list of a mutex holds the tasks blocked on it, highest priority first; they hold no mutex.
  ghost predicate Waits(s: Sys, m: Mutex, w: seq<Task>) {
    && (forall t :: t in w <==> BlockedOn(s, m, t))
    && (forall t | t in w :: s.tasks[t].held == 0)
    && Ranked(s, w)
  }

  ghost predicate Ranked(s: Sys, w: seq<Task>) {
    && (forall t | t in w :: t in s.tasks)
    && forall i, j | 0 <= i < j < |w| :: w[i] != w[j] && s.tasks[w[j]].prio <= s.tasks[w[i]].prio
  }

  ghost predicate Above(s: Sys, w: seq<Task>, p: int) {
    forall t | t in w :: t in s.tasks && s.tasks[t].prio <= p
  }

  // A woken task on its way to a free mutex, of at least the priority of those still waiting.
  ghost predicate Champion(s: Sys, m: Mutex, w: seq<Task>, c: Task) {
    && c in s.tasks && s.tasks[c].pc.Trying? && s.tasks[c].pc.m == m && s.tasks[c].held == 0
    && Above(s, w, s.tasks[c].prio)
  }

  ghost predicate Covered(s: Sys, m: Mutex, x: MutexState) {
    match x.holder
    case Some(h) => h in s.tasks && Above(s, x.waiting, s.tasks[h].prio)
    case None => x.waiting == [] || exists c :: Champion(s, m, x.waiting, c)
  }

  ghost predicate Orderly(s: Sys, m: Mutex) {
    m in s.mutexes ==> Waits(s, m, s.mutexes[m].waiting) && Covered(s, m, s.mutexes[m])
  }

  ghost predicate Keyed(s: Sys) {
    forall t | t in s.tasks :: s.tasks[t].key == s.tasks[t].prio
  }

  ghost predicate Homed(s: Sys) {
    forall t | t in s.tasks && s.tasks[t].pc.Blocked? :: s.tasks[t].pc.m in s.mutexes
  }

  ghost predicate AllOrderly(s: Sys) {
    forall m | m in s.mutexes :: Orderly(s, m)
  }

  ghost predicate Inv(s: Sys) {
    Books(s) && Keyed(s) && Homed(s) && AllOrderly(s)
  }

  // A task in a call on m that holds no mutex.
  ghost predicate Concerned(t: Tcb, m: Mutex) {
    (t.pc.Blocked? || (t.pc.Trying? && t.held == 0)) && t.pc.m == m
  }

  // A mutex is left in order when its own state, its holder's standing and the tasks in calls on it are left alone.
  lemma StaysOrderly(s: Sys, s': Sys, m: Mutex)
    requires Orderly(s, m) && m in s.mutexes && m in s'.mutexes && s'.mutexes[m] == s.mutexes[m]
    requires s'.tasks.Keys == s.tasks.Keys
    requires forall t | t in s.tasks && Concerned(s.tasks[t], m) :: s'.tasks[t] == s.tasks[t]
    requires forall t | t in s.tasks && BlockedOn(s', m, t) :: BlockedOn(s, m, t)
    requires s.mutexes[m].holder.Some? && s.mutexes[m].holder.value in s.tasks ==>
               s'.tasks[s.mutexes[m].holder.value].prio >= s.tasks[s.mutexes[m].holder.value].prio
    ensures Orderly(s', m)
  {
    var x := s.mutexes[m];
    forall t
      ensures t in x.waiting <==> BlockedOn(s', m, t)
    {
    }
    if x.holder.None? && x.waiting != [] {
      var c :| Champion(s, m, x.waiting, c);
      assert Champion(s', m, x.waiting, c);
    }
  }

  // A task that is not blocked moves on in its call, on no account away from a free mutex.
  lemma PcKeeps(s: Sys, t: Task, pc: Pc)
    requires Inv(s) && t in s.tasks && !s.tasks[t].pc.Blocked? && !pc.Blocked?
    requires var m := s.tasks[t].pc; m.Trying? && m.m in s.mutexes ==> s.mutexes[m.m].holder.Some?
    ensures Inv(WithPc(s, t, pc))
  {
    hide Books, Orderly;
    var s' := WithPc(s, t, pc);
    PcBooks(s, t, pc);
    forall m | m in s.mutexes
      ensures Orderly(s', m)
    {
      if s.tasks[t].pc.Trying? && s.tasks[t].pc.m == m {
        HeldStaysOrderly(s, s', m, t);
      } else {
        StaysOrderly(s, s', m);
      }
    }
  }

  lemma PcBooks(s: Sys, t: Task, pc: Pc)
    requires Books(s) && t in s.tasks
    ensures Books(WithPc(s, t, pc))
  {
    SameHolders(s, WithPc(s, t, pc));
  }

  lemma PlainKeeps(s: Sys, a: Step)
    requires Inv(s) && Disciplined(s, a) && (a.Call? || a.Sleep? || a.Wake? || a.GiveUp? || a.Expire? || a.Recheck?)
    ensures Inv(Next(s, a))
  {
    hide Inv, Runs;
    PcKeeps(s, a.t, Next(s, a).tasks[a.t].pc);
  }

  // Leaving the top of a call on a held mutex.
  lemma HeldStaysOrderly(s: Sys, s': Sys, m: Mutex, t: Task)
    requires Orderly(s, m) && m in s.mutexes && s'.mutexes == s.mutexes && s.mutexes[m].holder.Some?
    requires t in s.tasks && s.tasks[t].pc.Trying? && t in s'.tasks && !s'.tasks[t].pc.Blocked?
    requires s'.tasks == s.tasks[t := s.tasks[t].(pc := s'.tasks[t].pc)]
    ensures Orderly(s', m)
  {
    forall u
      ensures u in s.mutexes[m].waiting <==> BlockedOn(s', m, u)
    {
    }
  }

  lemma TakeKeeps(s: Sys, t: Task)
    requires Inv(s) && Disciplined(s, Take(t))
    ensures Inv(DoTake(s, t))
  {
    hide Books, Orderly, Runs;
    var s', m := DoTake(s, t), s.tasks[t].pc.m;
    TakeBooks(s, t);
    TakenOrderly(s, t);
    forall m2 | m2 in s.mutexes && m2 != m
      ensures Orderly(s', m2)
    {
      StaysOrderly(s, s', m2);
    }
  }

  // The taker runs, so it is not below the woken task on its way to the mutex.
  lemma TakenOrderly(s: Sys, t: Task)
    requires Disciplined(s, Take(t)) && Orderly(s, s.tasks[t].pc.m)
    ensures Orderly(DoTake(s, t), s.tasks[t].pc.m)
  {
    var s', m := DoTake(s, t), s.tasks[t].pc.m;
    var w := s.mutexes[m].waiting;
    if w != [] {
      var c :| Champion(s, m, w, c);
      assert s.tasks[c].prio <= s.tasks[t].prio;
    }
    forall u
      ensures u in w <==> BlockedOn(s', m, u)
    {
    }
  }

  lemma {:induction false} WithoutSorted(s: Sys, w: seq<Task>, t: Task)
    requires Ranked(s, w)
    ensures var r := Without(w, t); (forall u :: u in r <==> u in w && u != t) && Ranked(s, r)
  {
    if w != [] {
      FirstApart(s, w);
      RestRanked(s, s, w);
      WithoutSorted(s, w[1..], t);
      if w[0] != t {
        PrefixRanked(s, w[0], Without(w[1..], t));
      }
    }
  }

  lemma PrefixRanked(s: Sys, t: Task, r: seq<Task>)
    requires Ranked(s, r) && t in s.tasks && t !in r && forall u | u in r :: s.tasks[u].prio <= s.tasks[t].prio
    ensures Ranked(s, [t] + r)
  {
  }

  lemma TimeOutOrderly(s: Sys, t: Task)
    requires Enabled(s, TimeOut(t)) && Orderly(s, s.tasks[t].pc.m)
    ensures Orderly(Next(s, TimeOut(t)), s.tasks[t].pc.m)
  {
    hide Without, Ranked;
    var s', m := Next(s, TimeOut(t)), s.tasks[t].pc.m;
    var w := s.mutexes[m].waiting;
    var r := Without(w, t);
    WithoutSorted(s, w, t);
    SameRanks(s, s', r);
    forall u
      ensures u in r <==> BlockedOn(s', m, u)
    {
      assert u in w <==> BlockedOn(s, m, u);
    }
    if s.mutexes[m].holder.None? && r != [] {
      assert r[0] in w;
      var c :| Champion(s, m, w, c);
      assert Champion(s', m, r, c);
    }
  }

  lemma SameRanks(s: Sys, s': Sys, w: seq<Task>)
    requires Ranked(s, w) && forall u | u in w :: u in s'.tasks && s'.tasks[u].prio == s.tasks[u].prio
    ensures Ranked(s', w)
  {
  }

  lemma TimeOutKeeps(s: Sys, t: Task)
    requires Inv(s) && Enabled(s, TimeOut(t))
    ensures Inv(Next(s, TimeOut(t)))
  {
    hide Books, Orderly, Without;
    var s', m := Next(s, TimeOut(t)), s.tasks[t].pc.m;
    PlainBooks(s, TimeOut(t));
    TimeOutOrderly(s, t);
    forall m2 | m2 in s.mutexes && m2 != m
      ensures Orderly(s', m2)
    {
      StaysOrderly(s, s', m2);
    }
  }

  // ---- Blocking ----

  lemma {:induction false} PlaceRanked(s: Sys, w: seq<Task>, t: Task)
    requires Ranked(s, w) && t in s.tasks && t !in w
    requires forall u | u in s.tasks :: s.tasks[u].key == s.tasks[u].prio
    ensures Ranked(s, Place(s.tasks, w, t))
  {
    if w != [] && s.tasks[w[0]].key >= s.tasks[t].key {
      var rest := Place(s.tasks, w[1..], t);
      PlaceRanked(s, w[1..], t);
      forall j | 0 <= j < |rest|
        ensures w[0] != rest[j] && s.tasks[rest[j]].prio <= s.tasks[w[0]].prio
      {
        assert rest[j] in w[1..] || rest[j] == t;
        if rest[j] in w[1..] {
          var i :| 0 <= i < |w[1..]| && w[1..][i] == rest[j];
          assert w[i + 1] == rest[j];
        }
      }
    }
  }

  // The holder of a mutex is in no call on one.
  lemma HolderApart(s: Sys, h: Task, m: Mutex)
    requires Orderly(s, m) && h in s.tasks && s.tasks[h].held > 0 && m in s.mutexes
    ensures !Concerned(s.tasks[h], m) && !BlockedOn(s, m, h)
  {
    assert BlockedOn(s, m, h) <==> h in s.mutexes[m].waiting;
  }

  lemma Holding(s: Sys, m: Mutex, h: Task)
    requires Books(s) && m in s.mutexes && s.mutexes[m].holder == Some(h)
    ensures h in s.tasks && s.tasks[h].held > 0
  {
    HolderHolds(s, m, h);
  }

  // The holder as raised by a task about to block.
  ghost function Raised(s: Sys, h: Task, p: nat): Sys
    requires h in s.tasks
  {
    s.(tasks := s.tasks[h := Inherit(s.tasks[h], p)])
  }

  lemma BlockedOrderly(s: Sys, t: Task, h: Task)
    requires Enabled(s, Block(t)) && s.tasks[t].held == 0 && Keyed(s)
    requires Orderly(s, s.tasks[t].pc.m) && s.mutexes[s.tasks[t].pc.m].holder == Some(h) && h in s.tasks && s.tasks[h].held > 0
    ensures Orderly(DoBlock(s, t), s.tasks[t].pc.m)
  {
    var s', m := DoBlock(s, t), s.tasks[t].pc.m;
    var w, s1 := s.mutexes[m].waiting, Raised(s, h, s.tasks[t].prio);
    HolderApart(s, h, m);
    var r := Place(s1.tasks, w, t);
    assert s'.mutexes[m].waiting == r;
    assert t !in w && h !in w;
    SameRanks(s, s1, w);
    PlaceRanked(s1, w, t);
    SameRanks(s1, s', r);
    forall u
      ensures u in r <==> BlockedOn(s', m, u)
    {
      assert u in w <==> BlockedOn(s, m, u);
    }
  }

  lemma BlockKeeps(s: Sys, t: Task)
    requires Inv(s) && Enabled(s, Block(t)) && s.tasks[t].held == 0
    ensures Inv(DoBlock(s, t))
  {
    hide Books, Orderly, Place;
    var s', m := DoBlock(s, t), s.tasks[t].pc.m;
    var h := s.mutexes[m].holder.value;
    BlockBooks(s, t);
    Holding(s, m, h);
    BlockedOrderly(s, t, h);
    forall m2 | m2 in s.mutexes && m2 != m
      ensures Orderly(s', m2)
    {
      HolderApart(s, h, m2);
      StaysOrderly(s, s', m2);
    }
  }

  // ---- Giving ----

  lemma TwoHeld(s: Sys, t: Task, m: Mutex, m2: Mutex)
    requires Books(s) && m in s.mutexes && m2 in s.mutexes && m != m2
    requires s.mutexes[m].holder == Some(t) && s.mutexes[m2].holder == Some(t)
    ensures t in s.tasks && s.tasks[t].held >= 2
  {
    HolderHolds(s, m, t);
    Subset({m, m2}, HeldBy(s.mutexes, t));
  }

  lemma Subset<T>(a: set<T>, b: set<T>)
    requires a <= b
    ensures |a| <= |b|
  {
    assert b == a + (b - a);
  }

  lemma GivenOrderly(s: Sys, t: Task, m: Mutex)
    requires Orderly(s, m) && Enabled(s, Give(t, m)) && s.tasks[t].held > 0
    ensures Orderly(DoGive(s, t, m), m)
  {
    var s', w := DoGive(s, t, m), s.mutexes[m].waiting;
    HolderApart(s, t, m);
    assert t !in w;
    if w == [] {
      forall u
        ensures !BlockedOn(s', m, u)
      {
        assert !BlockedOn(s, m, u);
      }
    } else {
      assert w[0] in w;
      FirstApart(s, w);
      RestRanked(s, s', w);
      forall u
        ensures u in w[1..] <==> BlockedOn(s', m, u)
      {
        assert u in w <==> BlockedOn(s, m, u);
      }
      assert Champion(s', m, w[1..], w[0]);
    }
  }

  lemma FirstApart(s: Sys, w: seq<Task>)
    requires Ranked(s, w) && w != []
    ensures w[0] !in w[1..] && (forall u | u in w :: u == w[0] || u in w[1..])
    ensures forall u | u in w[1..] :: u in w && s.tasks[u].prio <= s.tasks[w[0]].prio
  {
    forall u | u in w[1..]
      ensures u in w && u != w[0] && s.tasks[u].prio <= s.tasks[w[0]].prio
    {
      var i :| 0 <= i < |w[1..]| && w[1..][i] == u;
      assert w[i + 1] == u;
    }
  }

  lemma RestRanked(s: Sys, s': Sys, w: seq<Task>)
    requires Ranked(s, w) && w != []
    requires forall u | u in w[1..] :: u in s'.tasks && s'.tasks[u].prio == s.tasks[u].prio
    ensures Ranked(s', w[1..])
  {
    var r := w[1..];
    forall i, j | 0 <= i < j < |r|
      ensures r[i] != r[j] && s'.tasks[r[j]].prio <= s'.tasks[r[i]].prio
    {
      assert r[i] == w[i + 1] && r[j] == w[j + 1];
    }
  }

  lemma HeadBlocked(s: Sys, m: Mutex)
    requires Orderly(s, m) && m in s.mutexes && s.mutexes[m].waiting != []
    ensures BlockedOn(s, m, s.mutexes[m].waiting[0]) && s.tasks[s.mutexes[m].waiting[0]].held == 0
  {
    assert s.mutexes[m].waiting[0] in s.mutexes[m].waiting;
  }

  lemma GivenElsewhere(s: Sys, t: Task, m: Mutex, m2: Mutex)
    requires Books(s) && Orderly(s, m) && Orderly(s, m2) && m2 in s.mutexes && m2 != m
    requires Enabled(s, Give(t, m)) && s.tasks[t].held > 0
    ensures Orderly(DoGive(s, t, m), m2)
  {
    hide Books, Orderly;
    HolderApart(s, t, m2);
    if s.mutexes[m].waiting != [] {
      HeadBlocked(s, m);
    }
    if s.mutexes[m2].holder == Some(t) {
      TwoHeld(s, t, m, m2);
    }
    StaysOrderly(s, DoGive(s, t, m), m2);
  }

  lemma GiveKeeps(s: Sys, t: Task, m: Mutex)
    requires Inv(s) && Enabled(s, Give(t, m))
    ensures s.tasks[t].held > 0 && Inv(DoGive(s, t, m))
  {
    hide Books, Orderly;
    GiveBooks(s, t, m);
    GivenOrderly(s, t, m);
    forall m2 | m2 in s.mutexes && m2 != m
      ensures Orderly(DoGive(s, t, m), m2)
    {
      GivenElsewhere(s, t, m, m2);
    }
  }

  // ---- Finishing after a time-out ----

  ghost function Lowered(s: Sys, h: Task, p: nat): Sys
    requires h in s.tasks
  {
    s.(tasks := s.tasks[h := DisinheritAfterTimeout(s.tasks[h], p)])
  }

  lemma OnlyHeld(s: Sys, h: Task, m: Mutex, m2: Mutex)
    requires Books(s) && m in s.mutexes && m2 in s.mutexes && m != m2 && s.mutexes[m].holder == Some(h)
    requires h in s.tasks && s.tasks[h].held == 1
    ensures s.mutexes[m2].holder != Some(h)
  {
    if s.mutexes[m2].holder == Some(h) {
      TwoHeld(s, h, m, m2);
    }
  }

  lemma LoweredOrderly(s: Sys, h: Task, m: Mutex)
    requires Orderly(s, m) && Keyed(s) && m in s.mutexes && s.mutexes[m].holder == Some(h)
    requires h in s.tasks && s.tasks[h].held > 0
    ensures Orderly(Lowered(s, h, HighestWaiting(s, m)), m)
  {
    var s', w := Lowered(s, h, HighestWaiting(s, m)), s.mutexes[m].waiting;
    HolderApart(s, h, m);
    SameRanks(s, s', w);
    forall u
      ensures u in w <==> BlockedOn(s', m, u)
    {
      assert u in w <==> BlockedOn(s, m, u);
    }
    if w != [] {
      assert w[0] in w;
      FirstApart(s, w);
    }
  }

  lemma LoweredKeeps(s: Sys, h: Task, m: Mutex)
    requires Inv(s) && m in s.mutexes && s.mutexes[m].holder == Some(h)
    ensures h in s.tasks && Inv(Lowered(s, h, HighestWaiting(s, m)))
  {
    hide Books, Orderly;
    Holding(s, m, h);
    var s' := Lowered(s, h, HighestWaiting(s, m));
    LoweredBooks(s, h, HighestWaiting(s, m));
    LoweredOrderly(s, h, m);
    forall m2 | m2 in s.mutexes && m2 != m
      ensures Orderly(s', m2)
    {
      HolderApart(s, h, m2);
      if s.tasks[h].held == 1 {
        OnlyHeld(s, h, m, m2);
      }
      StaysOrderly(s, s', m2);
    }
  }

  lemma LoweredBooks(s: Sys, h: Task, p: nat)
    requires Books(s) && h in s.tasks && s.tasks[h].held > 0
    ensures Books(Lowered(s, h, p))
  {
    SameHolders(s, Lowered(s, h, p));
  }

  lemma FinishKeeps(s: Sys, t: Task)
    requires Inv(s) && Enabled(s, FinishTimeOut(t))
    ensures Inv(DoFinishTimeOut(s, t))
  {
    hide Inv;
    var pc := s.tasks[t].pc;
    match s.mutexes[pc.m].holder
    case None => PcKeeps(s, t, Outside);
    case Some(h) =>
      var s' := WithPc(s, t, Outside);
      PcKeeps(s, t, Outside);
      if pc.inherited {
        LoweredKeeps(s', h, pc.m);
        assert HighestWaiting(s', pc.m) == HighestWaiting(s, pc.m);
      }
  }

  // ---- Runs ----

  lemma StepKeeps(s: Sys, a: Step)
    requires Inv(s) && Disciplined(s, a)
    ensures Asserted(s, a) && Inv(Next(s, a))
  {
    hide Inv, Runs, DoTake, DoGive, DoBlock, DoFinishTimeOut, Books;
    InvBooks(s);
    BooksStep(s, a);
    match a
    case Take(t) => TakeKeeps(s, t);
    case Give(t, m) => GiveKeeps(s, t, m);
    case Block(t) => BlockKeeps(s, t);
    case FinishTimeOut(t) => FinishKeeps(s, t);
    case TimeOut(t) => TimeOutKeeps(s, t);
    case _ => PlainKeeps(s, a);
  }

  lemma InvBooks(s: Sys)
    requires Inv(s)
    ensures Books(s)
  {
  }

  ghost predicate IsDisciplinedRun(s: Sys, steps: seq<Step>)
    decreases |steps|
  {
    steps != [] ==>
      Disciplined(s, steps[0]) && Asserted(s, steps[0]) && IsDisciplinedRun(Next(s, steps[0]), steps[1..])
  }

  ghost function Outcome(s: Sys, steps: seq<Step>): Sys
    requires IsDisciplinedRun(s, steps)
    decreases |steps|
  {
    if steps == [] then s else Outcome(Next(s, steps[0]), steps[1..])
  }

  lemma {:induction false} RunKeeps(s: Sys, steps: seq<Step>)
    requires Inv(s) && IsDisciplinedRun(s, steps)
    ensures Inv(Outcome(s, steps))
    decreases |steps|
  {
    hide Inv, Disciplined, Next;
    if steps != [] {
      StepKeeps(s, steps[0]);
      Enabling(s, steps[0]);
      RunKeeps(Next(s, steps[0]), steps[1..]);
    }
  }

  lemma Enabling(s: Sys, a: Step)
    requires Disciplined(s, a)
    ensures Enabled(s, a)
  {
  }

  // Bounded priority inversion, after gives, steals and time-outs alike; and a free mutex somebody is blocked on has a
  // ready task of at least their priority on its way to it.
  lemma BoundedInversion(s: Sys, steps: seq<Step>, m: Mutex, t: Task)
    requires Initial(s) && IsDisciplinedRun(s, steps)
    requires BlockedOn(Outcome(s, steps), m, t)
    ensures var s' := Outcome(s, steps);
            && m in s'.mutexes
            && match s'.mutexes[m].holder
               case Some(h) => h in s'.tasks && s'.tasks[t].prio <= s'.tasks[h].prio
               case None => exists c :: c in s'.tasks && Ready(s'.tasks[c]) && s'.tasks[c].pc.Trying? && s'.tasks[c].pc.m == m
                                        && s'.tasks[t].prio <= s'.tasks[c].prio
  {
    hide IsDisciplinedRun, Outcome;
    InitialInv(s);
    RunKeeps(s, steps);
    var s' := Outcome(s, steps);
    assert Orderly(s', m);
    if s'.mutexes[m].holder.None? {
      var c :| Champion(s', m, s'.mutexes[m].waiting, c);
      assert Ready(s'.tasks[c]);
    }
  }

  lemma InitialInv(s: Sys)
    requires Initial(s)
    ensures Inv(s)
  {
    forall u | u in s.tasks
      ensures HeldBy(s.mutexes, u) == {}
    {
    }
  }

  // ---- How far a time-out lowers the holder ----

  // The timed-out wait of t is over: a holder of that mutex alone that it had lent its priority has its base priority or
  // that of a task still blocked on the mutex, whichever is highest; nobody else changes priority.
  ghost predicate Settled(s: Sys, s': Sys, t: Task)
    requires Enabled(s, FinishTimeOut(t))
  {
    var m := s.tasks[t].pc.m;
    && s'.tasks.Keys == s.tasks.Keys && s'.tasks[t].pc == Outside
    && (forall u | u in s.tasks && s.mutexes[m].holder != Some(u) :: s'.tasks[u].prio == s.tasks[u].prio)
    && match s.mutexes[m].holder
       case None => true
       case Some(h) =>
         && h in s.tasks
         && if s.tasks[t].pc.inherited && s.tasks[h].held == 1 then
              && s'.tasks[h].prio >= s.tasks[h].base
              && (forall u | BlockedOn(s', m, u) :: s'.tasks[u].prio <= s'.tasks[h].prio)
              && (s'.tasks[h].prio == s.tasks[h].base
                  || exists u :: BlockedOn(s', m, u) && s'.tasks[u].prio == s'.tasks[h].prio)
            else s'.tasks[h].prio == s.tasks[h].prio
  }

  // After any disciplined run: when a timed-out wait ends that had lent its priority, a holder of that mutex alone has
  // exactly the highest priority among its base and those of the tasks still blocked on the mutex. A holder of more, or
  // one that was lent nothing, and everybody else, stay as they were.
  lemma TimeOutLowers(s0: Sys, steps: seq<Step>, t: Task)
    requires Initial(s0) && IsDisciplinedRun(s0, steps) && Enabled(Outcome(s0, steps), FinishTimeOut(t))
    ensures var s := Outcome(s0, steps); Settled(s, Next(s, FinishTimeOut(t)), t)
  {
    hide IsDisciplinedRun, Outcome, Inv, Settled;
    InitialInv(s0);
    RunKeeps(s0, steps);
    LoweredExactly(Outcome(s0, steps), t);
  }

  lemma LoweredExactly(s: Sys, t: Task)
    requires Inv(s) && Enabled(s, FinishTimeOut(t))
    ensures Settled(s, Next(s, FinishTimeOut(t)), t)
  {
    hide Inv, HighestWaiting, BlockedOn;
    var s', m := Next(s, FinishTimeOut(t)), s.tasks[t].pc.m;
    StillBlocked(s, t);
    HeadIsHighest(s, m);
    if s.mutexes[m].holder.Some? {
      HolderNotBlocked(s, m, s.mutexes[m].holder.value);
    }
  }

  // Nobody but the holder changes priority, and the same tasks are blocked.
  lemma StillBlocked(s: Sys, t: Task)
    requires Enabled(s, FinishTimeOut(t))
    ensures var s', m := Next(s, FinishTimeOut(t)), s.tasks[t].pc.m;
            && (forall u :: BlockedOn(s', m, u) <==> BlockedOn(s, m, u))
            && (forall u | u in s.tasks && s.mutexes[m].holder != Some(u) :: s'.tasks[u].prio == s.tasks[u].prio)
  {
    hide HighestWaiting;
  }

  lemma HeadIsHighest(s: Sys, m: Mutex)
    requires Inv(s) && m in s.mutexes
    ensures forall u | BlockedOn(s, m, u) :: u in s.tasks && s.tasks[u].prio <= HighestWaiting(s, m)
    ensures HighestWaiting(s, m) > 0 ==> exists u :: BlockedOn(s, m, u) && u in s.tasks && s.tasks[u].prio == HighestWaiting(s, m)
  {
    hide Books;
    var w := s.mutexes[m].waiting;
    assert Orderly(s, m);
    if w != [] {
      assert w[0] in w && BlockedOn(s, m, w[0]);
      forall u | u in w
        ensures s.tasks[u].prio <= s.tasks[w[0]].prio
      {
        var i :| 0 <= i < |w| && w[i] == u;
      }
    }
  }

  lemma HolderNotBlocked(s: Sys, m: Mutex, h: Task)
    requires Inv(s) && m in s.mutexes && s.mutexes[m].holder == Some(h)
    ensures h in s.tasks && !BlockedOn(s, m, h)
  {
    HolderHolds(s, m, h);
    assert Orderly(s, m);
  }
}
