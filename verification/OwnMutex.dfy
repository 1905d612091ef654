/**
 The assertion in tasks.c that a task whose wait for a mutex timed out does
 not lower its own priority. It fails for nobody as long as no task waits for
 a mutex it holds while that is the only one it holds and its priority is
 above its base; and every such wait can end in the failure.
 */
module OwnMutex {
  import opened KernelTypes
  import opened Options
  import opened Mutexes
  import opened Sequences

  // A task that timed out on a mutex it holds is about to lower its own priority, which the program asserts away.
  predicate LowersItself(s: Sys, t: Task) {
    && Enabled(s, FinishTimeOut(t)) && s.tasks[t].pc.inherited && s.mutexes[s.tasks[t].pc.m].holder == Some(t)
    && DisinheritAfterTimeout(s.tasks[t], HighestWaiting(s, s.tasks[t].pc.m)) != s.tasks[t]
  }

  // The task holds the mutex it is about to block on.
  predicate BlocksOnOwn(s: Sys, a: Step) {
    a.Block? && Enabled(s, a) && s.mutexes[s.tasks[a.t].pc.m].holder == Some(a.t)
  }

  // It holds no other, and has been lent a priority.
  predicate Dangerous(s: Sys, a: Step) {
    BlocksOnOwn(s, a) && s.tasks[a.t].held == 1 && s.tasks[a.t].base < s.tasks[a.t].prio
  }

  ghost predicate Careful(s: Sys, steps: seq<Step>)
    requires IsRun(s, steps)
    decreases |steps|
  {
    steps != [] ==> !Dangerous(s, steps[0]) && Careful(Next(s, steps[0]), steps[1..])
  }

  // ---- Without a dangerous step it never fails ----

  // Who is flagged as having raised itself holds another mutex as well.
  ghost predicate Harmless(s: Sys) {
    forall t | t in s.tasks && InCall(s, t) && s.tasks[t].pc.inherited ::
      s.mutexes[s.tasks[t].pc.m].holder == Some(t) ==> s.tasks[t].held != 1
  }

  lemma HarmlessStep(s: Sys, a: Step)
    requires Harmless(s) && Enabled(s, a) && Asserted(s, a) && !Dangerous(s, a)
    ensures Harmless(Next(s, a))
  {
    hide Place, HighestWaiting, Without;
  }

  lemma {:induction false} RunHarmless(s: Sys, steps: seq<Step>)
    requires Harmless(s) && IsRun(s, steps) && Careful(s, steps)
    ensures Harmless(Run(s, steps))
    decreases |steps|
  {
    hide Harmless, Enabled, Next, Asserted, Dangerous;
    if steps != [] {
      HarmlessStep(s, steps[0]);
      RunHarmless(Next(s, steps[0]), steps[1..]);
    }
  }

  lemma AssertionHolds(s: Sys, steps: seq<Step>, t: Task)
    requires Initial(s) && IsRun(s, steps) && Careful(s, steps)
    ensures !LowersItself(Run(s, steps), t)
  {
    RunHarmless(s, steps);
  }

  // ---- A dangerous step can be followed by the failure ----

  ghost predicate Once(w: seq<Task>) {
    forall i, j | 0 <= i < j < |w| :: w[i] != w[j]
  }

  // Every waiting task is listed once, and is blocked on the mutex.
  ghost predicate Queued(tasks: map<Task, Tcb>, m: Mutex, w: seq<Task>) {
    Once(w) && forall u | u in w :: u in tasks && tasks[u].pc.Blocked? && tasks[u].pc.m == m
  }

  ghost predicate Listed(s: Sys) {
    forall m | m in s.mutexes :: Queued(s.tasks, m, s.mutexes[m].waiting)
  }

  lemma OnceMore(t: Task, w: seq<Task>)
    requires Once(w) && t !in w
    ensures Once([t] + w)
  {
  }

  lemma OnceRest(w: seq<Task>)
    requires Once(w) && w != []
    ensures Once(w[1..]) && w[0] !in w[1..]
  {
  }

  lemma {:induction false} PlaceOnce(tasks: map<Task, Tcb>, w: seq<Task>, t: Task)
    requires t in tasks && t !in w && Once(w)
    ensures Once(Place(tasks, w, t))
  {
    if w == [] {
    } else if w[0] in tasks && tasks[w[0]].key < tasks[t].key {
      OnceMore(t, w);
    } else {
      OnceRest(w);
      PlaceOnce(tasks, w[1..], t);
      OnceMore(w[0], Place(tasks, w[1..], t));
    }
  }

  lemma {:induction false} WithoutOnce(w: seq<Task>, t: Task)
    requires Once(w)
    ensures Once(Without(w, t)) && forall u :: u in Without(w, t) <==> u in w && u != t
  {
    if w != [] {
      OnceRest(w);
      assert w == [w[0]] + w[1..];
      if w[0] != t {
        WithoutOnce(w[1..], t);
        OnceMore(w[0], Without(w[1..], t));
      }
    }
  }

  lemma BlockListed(s: Sys, t: Task)
    requires Listed(s) && Enabled(s, Step.Block(t))
    ensures Listed(DoBlock(s, t))
  {
    hide Place, Once;
    var m := s.tasks[t].pc.m;
    var h := s.mutexes[m].holder.value;
    assert t !in s.mutexes[m].waiting;
    if h in s.tasks {
      PlaceOnce(s.tasks[h := Inherit(s.tasks[h], s.tasks[t].prio)], s.mutexes[m].waiting, t);
    }
  }

  lemma ListedStep(s: Sys, a: Step)
    requires Listed(s) && Enabled(s, a) && Asserted(s, a)
    ensures Listed(Next(s, a))
  {
    hide DoBlock, HighestWaiting, Without, Once;
    match a
    case Block(t) => BlockListed(s, t);
    case TimeOut(t) => WithoutOnce(s.mutexes[s.tasks[t].pc.m].waiting, t);
    case Give(t, m) =>
      if s.mutexes[m].waiting != [] {
        OnceRest(s.mutexes[m].waiting);
      }
    case _ =>
  }

  lemma {:induction false} RunListed(s: Sys, steps: seq<Step>)
    requires Listed(s) && IsRun(s, steps)
    ensures Listed(Run(s, steps))
    decreases |steps|
  {
    hide Listed, Enabled, Next, Asserted;
    if steps != [] {
      ListedStep(s, steps[0]);
      RunListed(Next(s, steps[0]), steps[1..]);
    }
  }

  // A task waiting for its only mutex, or about to, with the flag raised and a priority lent to it.
  ghost predicate Trapped(s: Sys, t: Task, m: Mutex) {
    && t in s.tasks && s.tasks[t].held == 1 && s.tasks[t].base < s.tasks[t].prio
    && m in s.mutexes && s.mutexes[m].holder == Some(t) && Queued(s.tasks, m, s.mutexes[m].waiting)
    && (s.tasks[t].pc == Trying(m, true) || (s.tasks[t].pc == Pc.Blocked(m, true) && t in s.mutexes[m].waiting))
  }

  // The run ends in the failure of the assertion for the task, and nobody else blocks meanwhile.
  ghost predicate Fails(s: Sys, rest: seq<Step>, t: Task) {
    IsRun(s, rest) && LowersItself(Run(s, rest), t) && forall i | 0 <= i < |rest| :: !rest[i].Block?
  }

  // All who wait time out, one after the other.
  lemma FirstLeaves(s: Sys, t: Task, m: Mutex)
    requires Trapped(s, t, m) && s.mutexes[m].waiting != []
    ensures var u := s.mutexes[m].waiting[0];
            && Enabled(s, TimeOut(u)) && Trapped(Next(s, TimeOut(u)), t, m)
            && Next(s, TimeOut(u)).mutexes[m].waiting == s.mutexes[m].waiting[1..]
  {
    var w := s.mutexes[m].waiting;
    assert w[0] in w && Without(w, w[0]) == w[1..];
    if t in w && t != w[0] {
      assert t in w[1..];
    }
  }

  lemma AloneFails(s: Sys, t: Task, m: Mutex)
    requires Trapped(s, t, m) && s.mutexes[m].waiting == []
    ensures Fails(s, [Step.Expire(t), Recheck(t)], t)
  {
    var s1 := Next(s, Step.Expire(t));
    var s2 := Next(s1, Recheck(t));
    assert Fails(s2, [], t);
    FailsLater(s1, Recheck(t), [], t);
    FailsLater(s, Step.Expire(t), [Recheck(t)] + [], t);
    assert [Step.Expire(t)] + ([Recheck(t)] + []) == [Step.Expire(t), Recheck(t)];
  }

  lemma FailsLater(s: Sys, a: Step, rest: seq<Step>, t: Task)
    requires Enabled(s, a) && Asserted(s, a) && !a.Block? && Fails(Next(s, a), rest, t)
    ensures Fails(s, [a] + rest, t)
  {
    hide Enabled, Asserted, Next, LowersItself;
    assert ([a] + rest)[1..] == rest;
  }

  lemma {:induction false} TrappedFails(s: Sys, t: Task, m: Mutex) returns (rest: seq<Step>)
    requires Trapped(s, t, m)
    ensures Fails(s, rest, t)
    decreases |s.mutexes[m].waiting|
  {
    hide Enabled, Next, Fails;
    if s.mutexes[m].waiting == [] {
      AloneFails(s, t, m);
      rest := [Step.Expire(t), Recheck(t)];
    } else {
      var u := s.mutexes[m].waiting[0];
      FirstLeaves(s, t, m);
      rest := TrappedFails(Next(s, TimeOut(u)), t, m);
      FailsLater(s, TimeOut(u), rest, t);
      rest := [TimeOut(u)] + rest;
    }
  }

  lemma DangerTraps(s: Sys, t: Task)
    requires Listed(s) && Dangerous(s, Step.Block(t))
    ensures Asserted(s, Step.Block(t)) && Trapped(Next(s, Step.Block(t)), t, s.tasks[t].pc.m)
  {
    hide Place;
    BlockListed(s, t);
    var m := s.tasks[t].pc.m;
    assert s.tasks[t := Inherit(s.tasks[t], s.tasks[t].prio)] == s.tasks;
    assert t in Place(s.tasks, s.mutexes[m].waiting, t);
  }

  // In whatever run the dangerous step is taken, it can end in the failure.
  lemma DangerFails(s: Sys, steps: seq<Step>, t: Task) returns (rest: seq<Step>)
    requires Initial(s) && IsRun(s, steps) && Dangerous(Run(s, steps), Step.Block(t))
    ensures Fails(Next(Run(s, steps), Step.Block(t)), rest, t)
  {
    hide IsRun, Run, Next, Dangerous, Fails, Trapped;
    assert Listed(s);
    hide Listed;
    RunListed(s, steps);
    var s' := Run(s, steps);
    assert Enabled(s', Step.Block(t)) by { DangerEnabled(s', t); }
    DangerTraps(s', t);
    rest := TrappedFails(Next(s', Step.Block(t)), t, s'.tasks[t].pc.m);
  }

  lemma DangerEnabled(s: Sys, t: Task)
    requires Dangerous(s, Step.Block(t))
    ensures Enabled(s, Step.Block(t)) && Asserted(s, Step.Block(t))
  {
  }

  // ---- The exact condition ----

  lemma {:induction false} NoBlockIsCareful(s: Sys, rest: seq<Step>)
    requires IsRun(s, rest) && forall i | 0 <= i < |rest| :: !rest[i].Block?
    ensures Careful(s, rest)
    decreases |rest|
  {
    hide Enabled, Asserted, Next;
    if rest != [] {
      NoBlockIsCareful(Next(s, rest[0]), rest[1..]);
    }
  }

  // The assertion can fail for someone, without a dangerous step from here on.
  ghost predicate CanFail(s: Sys) {
    exists rest: seq<Step>, t: Task :: IsRun(s, rest) && Careful(s, rest) && LowersItself(Run(s, rest), t)
  }

  // After a run without dangerous steps, a task blocks on a mutex it holds. The assertion can then fail, for it or for
  // anyone, in a continuation without further dangerous steps, if and only if the task holds no other mutex and runs
  // above its base priority.
  lemma AssertionExact(s: Sys, steps: seq<Step>, t: Task)
    requires Initial(s) && IsRun(s, steps) && Careful(s, steps) && BlocksOnOwn(Run(s, steps), Step.Block(t))
    ensures var s' := Run(s, steps);
            var after := Next(s', Step.Block(t));
            s'.tasks[t].held == 1 && s'.tasks[t].base < s'.tasks[t].prio <==> CanFail(after)
  {
    hide IsRun, Run, Next, Careful, LowersItself;
    var s' := Run(s, steps);
    var after := Next(s', Step.Block(t));
    if Dangerous(s', Step.Block(t)) {
      var rest := DangerFails(s, steps, t);
      NoBlockIsCareful(after, rest);
      assert CanFail(after);
    } else {
      assert Harmless(s);
      RunHarmless(s, steps);
      HarmlessStep(s', Step.Block(t));
      forall rest: seq<Step>, u: Task | IsRun(after, rest) && Careful(after, rest)
        ensures !LowersItself(Run(after, rest), u)
      {
        RunHarmless(after, rest);
        HarmlessNever(Run(after, rest), u);
      }
    }
  }

  lemma HarmlessNever(s: Sys, t: Task)
    requires Harmless(s)
    ensures !LowersItself(s, t)
  {
  }

  // ---- The condition is met in a short run ----

  // Task 1 of base priority 1, task 2 of priority 5, and one mutex.
  function Pair(prio: nat, held: nat, first: Pc, second: Pc, holder: Option<Task>, waiting: seq<Task>): Sys {
    Sys(map[1 := Tcb(prio, 1, prio, held, first), 2 := Tcb(5, 5, 5, 0, second)], map[0 := MutexState(holder, waiting)])
  }

  ghost predicate Leads(s: Sys, steps: seq<Step>, s': Sys) {
    IsRun(s, steps) && Run(s, steps) == s'
  }

  ghost predicate Goes(s: Sys, a: Step, s': Sys) {
    Enabled(s, a) && Asserted(s, a) && Next(s, a) == s'
  }

  lemma Then(s: Sys, a: Step, s1: Sys, rest: seq<Step>, s': Sys)
    requires Goes(s, a, s1) && Leads(s1, rest, s')
    ensures Leads(s, [a] + rest, s')
  {
    hide Enabled, Asserted, Next;
    assert ([a] + rest)[1..] == rest;
  }

  lemma FirstAt(prio: nat, held: nat, first: Pc, second: Pc, holder: Option<Task>, waiting: seq<Task>, tcb: Tcb)
    ensures Pair(prio, held, first, second, holder, waiting).tasks[1 := tcb] == map[1 := tcb, 2 := Tcb(5, 5, 5, 0, second)]
  {
  }

  lemma SecondAt(prio: nat, held: nat, first: Pc, second: Pc, holder: Option<Task>, waiting: seq<Task>, tcb: Tcb)
    ensures Pair(prio, held, first, second, holder, waiting).tasks[2 := tcb] == map[1 := Tcb(prio, 1, prio, held, first), 2 := tcb]
  {
  }

  lemma OneMutex(a: MutexState, b: MutexState)
    ensures map[0 := a][0 := b] == map[0 := b]
  {
  }

  lemma FirstCalls(prio: nat, held: nat, second: Pc, holder: Option<Task>, waiting: seq<Task>)
    ensures Goes(Pair(prio, held, Outside, second, holder, waiting), Call(1, 0),
                 Pair(prio, held, Trying(0, false), second, holder, waiting))
  {
    FirstAt(prio, held, Outside, second, holder, waiting, Tcb(prio, 1, prio, held, Trying(0, false)));
  }

  lemma FirstTakes()
    ensures Goes(Pair(1, 0, Trying(0, false), Outside, None, []), Take(1), Pair(1, 1, Outside, Outside, Some(1), []))
  {
    FirstAt(1, 0, Trying(0, false), Outside, None, [], Tcb(1, 1, 1, 1, Outside));
    OneMutex(MutexState(None, []), MutexState(Some(1), []));
  }

  lemma SecondCalls()
    ensures Goes(Pair(1, 1, Outside, Outside, Some(1), []), Call(2, 0), Pair(1, 1, Outside, Trying(0, false), Some(1), []))
  {
    SecondAt(1, 1, Outside, Outside, Some(1), [], Tcb(5, 5, 5, 0, Trying(0, false)));
  }

  lemma SecondBlocks()
    ensures Goes(Pair(1, 1, Outside, Trying(0, false), Some(1), []), Step.Block(2),
                 Pair(5, 1, Outside, Pc.Blocked(0, true), Some(1), [2]))
  {
    FirstAt(1, 1, Outside, Trying(0, false), Some(1), [], Tcb(5, 1, 5, 1, Outside));
    SecondAt(5, 1, Outside, Trying(0, false), Some(1), [], Tcb(5, 5, 5, 0, Pc.Blocked(0, true)));
    OneMutex(MutexState(Some(1), []), MutexState(Some(1), [2]));
  }

  // Task 1 takes the mutex, task 2 waits for it and lends its priority, and task 1 tries to take it again.
  lemma DangerArises()
    ensures var start := Pair(1, 0, Outside, Outside, None, []);
            var steps := [Call(1, 0), Take(1), Call(2, 0), Step.Block(2), Call(1, 0)];
            Initial(start) && IsRun(start, steps) && Dangerous(Run(start, steps), Step.Block(1))
  {
    hide IsRun, Run, Goes;
    var own, waits := Some(1), Pc.Blocked(0, true);
    var end := Pair(5, 1, Trying(0, false), waits, own, [2]);
    var r4 := [Call(1, 0)] + [];
    var r3 := [Step.Block(2)] + r4;
    var r2 := [Call(2, 0)] + r3;
    var r1 := [Take(1)] + r2;
    assert [Call(1, 0)] + r1 == [Call(1, 0), Take(1), Call(2, 0), Step.Block(2), Call(1, 0)];
    assert Initial(Pair(1, 0, Outside, Outside, None, [])) && Dangerous(end, Step.Block(1));
    hide Pair, Dangerous, Initial;
    NoSteps(end);
    FirstCalls(5, 1, waits, own, [2]);
    Then(Pair(5, 1, Outside, waits, own, [2]), Call(1, 0), end, [], end);
    SecondBlocks();
    Then(Pair(1, 1, Outside, Trying(0, false), own, []), Step.Block(2), Pair(5, 1, Outside, waits, own, [2]), r4, end);
    SecondCalls();
    Then(Pair(1, 1, Outside, Outside, own, []), Call(2, 0), Pair(1, 1, Outside, Trying(0, false), own, []), r3, end);
    FirstTakes();
    Then(Pair(1, 0, Trying(0, false), Outside, None, []), Take(1), Pair(1, 1, Outside, Outside, own, []), r2, end);
    FirstCalls(1, 0, Outside, None, []);
    Then(Pair(1, 0, Outside, Outside, None, []), Call(1, 0), Pair(1, 0, Trying(0, false), Outside, None, []), r1, end);
  }

  lemma NoSteps(s: Sys)
    ensures Leads(s, [], s)
  {
  }
}
