/**
 xEventGroupSync as a barrier: n tasks with a bit each synchronise on all the
 bits, over and over, and no task gets through a round that another has not
 entered.
 */
module RendezvousRuns {
  import opened EventBits
  import opened KernelTypes

  // The tasks taking part and their bits, a different one each.
  datatype Party = Party(bit: map<Task, nat>)

  ghost predicate OneBitEach(p: Party) {
    |p.bit| > 0 && forall t, u | t in p.bit && u in p.bit && t != u :: p.bit[t] != p.bit[u]
  }

  function AllBits(p: Party): set<nat> {
    set t | t in p.bit :: p.bit[t]
  }

  datatype Status = Outside | Waiting | Leaving

  // entered and left count the calls each task has made and those that have returned.
  datatype State = State(group: Group, status: map<Task, Status>, entered: map<Task, nat>, left: map<Task, nat>)

  datatype Step = Enter(t: Task) | Return(t: Task)

  ghost predicate Enabled(p: Party, s: State, a: Step) {
    && a.t in p.bit && a.t in s.status && a.t in s.entered && a.t in s.left
    && s.status[a.t] == if a.Enter? then Outside else Leaving
  }

  // A call that completes the round returns at once and makes every waiting task ready to leave; otherwise it blocks.
  ghost function Next(p: Party, s: State, a: Step): State
    requires Enabled(p, s, a)
  {
    match a
    case Enter(t) =>
      var (g, out) := Sync(s.group, t, {p.bit[t]}, AllBits(p), true);
      var entered := s.entered[t := s.entered[t] + 1];
      var freed := map u | u in s.status ::
                     if u == t then (if out.Blocks? then Waiting else Outside)
                     else if s.status[u] == Waiting && !(exists w :: w in g.waiters && w.task == u) then Leaving
                     else s.status[u];
      State(g, freed, entered, if out.Blocks? then s.left else s.left[t := s.left[t] + 1])
    case Return(t) => s.(status := s.status[t := Outside], left := s.left[t := s.left[t] + 1])
  }

  // ---- The invariant: round tasks wait for the rest of their round ----

  ghost function Arrived(p: Party, s: State): set<nat> {
    set t | t in p.bit && t in s.status && s.status[t] == Waiting :: p.bit[t]
  }

  // Everybody who waits does so for all the bits, once, and is recorded as waiting.
  ghost predicate Waiters(p: Party, s: State)
    requires Domains(p, s)
  {
    && (forall i | 0 <= i < |s.group.waiters| ::
         var w := s.group.waiters[i];
         w == Waiter(w.task, AllBits(p), true, true) && w.task in p.bit && s.status[w.task] == Waiting)
    && (forall t | t in p.bit && s.status[t] == Waiting :: exists w :: w in s.group.waiters && w.task == t)
  }

  // In round r: tasks that wait have entered it, tasks outside have left the one before, tasks leaving have not yet.
  ghost predicate InRound(p: Party, s: State, r: nat)
    requires Domains(p, s)
  {
    forall t | t in p.bit ::
      match s.status[t]
      case Waiting => s.entered[t] == r + 1 && s.left[t] == r
      case Outside => s.entered[t] == r && s.left[t] == r
      case Leaving => s.entered[t] == r && s.left[t] + 1 == r
  }

  ghost predicate Domains(p: Party, s: State) {
    s.status.Keys == p.bit.Keys && s.entered.Keys == p.bit.Keys && s.left.Keys == p.bit.Keys
  }

  // Other bits of the group are nobody's business here.
  ghost predicate Inv(p: Party, s: State, r: nat) {
    && OneBitEach(p) && Domains(p, s) && Waiters(p, s) && InRound(p, s, r)
    && s.group.bits * AllBits(p) == Arrived(p, s)
    && exists t :: t in p.bit && s.status[t] != Waiting
  }

  // Whoever has returned from a round, everybody has entered it.
  ghost predicate Barrier(p: Party, s: State) {
    forall t, u | t in p.bit && u in p.bit && t in s.left && u in s.entered :: s.left[t] <= s.entered[u]
  }

  lemma InvBarrier(p: Party, s: State, r: nat)
    requires Inv(p, s, r)
    ensures Barrier(p, s)
  {
    forall t, u | t in p.bit && u in p.bit
      ensures s.left[t] <= s.entered[u]
    {
    }
  }

  lemma ReturnKeeps(p: Party, s: State, t: Task, r: nat)
    requires Inv(p, s, r) && Enabled(p, s, Return(t))
    ensures Inv(p, Next(p, s, Return(t)), r)
  {
    hide AllBits, OneBitEach;
    var s' := Next(p, s, Return(t));
    assert Arrived(p, s') == Arrived(p, s);
    ReturnWaiters(p, s, t);
    assert s'.status[t] != Waiting;
  }

  lemma ReturnWaiters(p: Party, s: State, t: Task)
    requires Domains(p, s) && Waiters(p, s) && Enabled(p, s, Return(t))
    ensures Domains(p, Next(p, s, Return(t))) && Waiters(p, Next(p, s, Return(t)))
  {
    hide AllBits;
    var s' := Next(p, s, Return(t));
    forall u | u in p.bit && s'.status[u] == Waiting
      ensures exists w :: w in s'.group.waiters && w.task == u
    {
      assert s.status[u] == Waiting;
    }
  }

  // The round is complete exactly when the entering task is the only one not waiting.
  lemma Complete(p: Party, s: State, t: Task, r: nat)
    requires Inv(p, s, r) && t in p.bit && s.status[t] != Waiting
    ensures AllBits(p) <= s.group.bits + {p.bit[t]} <==> forall u | u in p.bit && u != t :: s.status[u] == Waiting
  {
    if AllBits(p) <= s.group.bits + {p.bit[t]} {
      forall u | u in p.bit && u != t
        ensures s.status[u] == Waiting
      {
        assert p.bit[u] in AllBits(p) && p.bit[u] != p.bit[t];
        assert p.bit[u] in s.group.bits * AllBits(p);
        var v :| v in p.bit && s.status[v] == Waiting && p.bit[v] == p.bit[u];
      }
    }
    if forall u | u in p.bit && u != t :: s.status[u] == Waiting {
      forall b | b in AllBits(p)
        ensures b in s.group.bits + {p.bit[t]}
      {
        var u :| u in p.bit && p.bit[u] == b;
        if u != t {
          assert b in Arrived(p, s);
        }
      }
    }
  }

  lemma {:induction false} AllReleased(waiters: seq<Waiter>, now: set<nat>, bits: set<nat>)
    requires bits <= now && forall i | 0 <= i < |waiters| :: waiters[i].bits == bits && waiters[i].all && waiters[i].clear
    ensures Select(waiters, now, false) == [] && ToClear(waiters, now) <= bits
  {
    if waiters != [] {
      AllReleased(waiters[1..], now, bits);
    }
  }

  lemma {:induction false} NoneReleased(waiters: seq<Waiter>, now: set<nat>, bits: set<nat>)
    requires !(bits <= now) && forall i | 0 <= i < |waiters| :: waiters[i].bits == bits && waiters[i].all
    ensures Select(waiters, now, false) == waiters && ToClear(waiters, now) == {}
  {
    if waiters != [] {
      NoneReleased(waiters[1..], now, bits);
    }
  }

  lemma SyncCompletes(p: Party, s: State, t: Task, r: nat)
    requires Inv(p, s, r) && t in p.bit && AllBits(p) <= s.group.bits + {p.bit[t]}
    ensures var (g, out) := Sync(s.group, t, {p.bit[t]}, AllBits(p), true);
            out.Returns? && g.waiters == [] && g.bits == s.group.bits + {p.bit[t]} - AllBits(p)
  {
    AllReleased(s.group.waiters, s.group.bits + {p.bit[t]}, AllBits(p));
  }

  lemma SyncBlocks(p: Party, s: State, t: Task, r: nat)
    requires Inv(p, s, r) && t in p.bit && !(AllBits(p) <= s.group.bits + {p.bit[t]})
    ensures var (g, out) := Sync(s.group, t, {p.bit[t]}, AllBits(p), true);
            && out.Blocks? && g.bits == s.group.bits + {p.bit[t]}
            && g.waiters == s.group.waiters + [Waiter(t, AllBits(p), true, true)]
  {
    NoneReleased(s.group.waiters, s.group.bits + {p.bit[t]}, AllBits(p));
  }

  lemma CompletedState(p: Party, s: State, t: Task, r: nat)
    requires Inv(p, s, r) && Enabled(p, s, Enter(t)) && AllBits(p) <= s.group.bits + {p.bit[t]}
    requires forall u | u in p.bit && u != t :: s.status[u] == Waiting
    ensures var s' := Next(p, s, Enter(t));
            && Domains(p, s') && s'.group == Group(s.group.bits + {p.bit[t]} - AllBits(p), [])
            && (forall u | u in p.bit :: s'.status[u] == if u == t then Outside else Leaving)
            && s'.entered == s.entered[t := s.entered[t] + 1] && s'.left == s.left[t := s.left[t] + 1]
  {
    hide AllBits, OneBitEach, Sync, Waiters, InRound, Arrived;
    SyncCompletes(p, s, t, r);
  }

  // The last task to arrive goes straight through and releases all the others.
  lemma LastArrivalReleasesAll(p: Party, s: State, t: Task, r: nat)
    requires Inv(p, s, r) && Enabled(p, s, Enter(t)) && forall u | u in p.bit && u != t :: s.status[u] == Waiting
    ensures var s' := Next(p, s, Enter(t));
            && Inv(p, s', r + 1) && s'.status[t] == Outside && s'.left[t] == s.left[t] + 1
            && forall u | u in p.bit && u != t :: s'.status[u] == Leaving
  {
    hide AllBits, OneBitEach, Sync, Next, Waiters, InRound, Arrived;
    var s' := Next(p, s, Enter(t));
    Complete(p, s, t, r);
    CompletedState(p, s, t, r);
    NextRound(p, s, s', t, r);
    NobodyWaits(p, s');
    assert s'.status[t] != Waiting;
  }

  lemma NextRound(p: Party, s: State, s': State, t: Task, r: nat)
    requires Domains(p, s) && Domains(p, s') && InRound(p, s, r) && t in p.bit && s.status[t] == Outside
    requires forall u | u in p.bit && u != t :: s.status[u] == Waiting
    requires forall u | u in p.bit :: s'.status[u] == if u == t then Outside else Leaving
    requires s'.entered == s.entered[t := s.entered[t] + 1] && s'.left == s.left[t := s.left[t] + 1]
    ensures InRound(p, s', r + 1)
  {
  }

  lemma NobodyWaits(p: Party, s: State)
    requires Domains(p, s) && s.group.waiters == [] && forall u | u in p.bit :: s.status[u] != Waiting
    ensures Waiters(p, s) && Arrived(p, s) == {}
  {
  }

  lemma OtherArrival(p: Party, s: State, t: Task, r: nat)
    requires Inv(p, s, r) && Enabled(p, s, Enter(t)) && !(forall u | u in p.bit && u != t :: s.status[u] == Waiting)
    ensures Inv(p, Next(p, s, Enter(t)), r)
  {
    hide AllBits, OneBitEach, Sync;
    var s' := Next(p, s, Enter(t));
    Complete(p, s, t, r);
    SyncBlocks(p, s, t, r);
    BlockedWaiters(p, s, t, r);
    ArrivedOneMore(p, s, s', t);
    var u :| u in p.bit && u != t && s.status[u] != Waiting;
    assert s'.status[u] != Waiting;
  }

  lemma ArrivedOneMore(p: Party, s: State, s': State, t: Task)
    requires Domains(p, s) && Domains(p, s') && t in p.bit
    requires s'.status == s.status[t := Waiting] && s'.group.bits == s.group.bits + {p.bit[t]}
    requires s.group.bits * AllBits(p) == Arrived(p, s)
    ensures s'.group.bits * AllBits(p) == Arrived(p, s')
  {
    assert p.bit[t] in AllBits(p);
    assert Arrived(p, s') == Arrived(p, s) + {p.bit[t]};
  }

  lemma StillInRound(p: Party, s: State, s': State, t: Task, r: nat)
    requires Domains(p, s) && InRound(p, s, r) && t in p.bit && s.status[t] == Outside
    requires Domains(p, s') && s'.status == s.status[t := Waiting]
    requires s'.entered == s.entered[t := s.entered[t] + 1] && s'.left == s.left
    ensures InRound(p, s', r)
  {
  }

  lemma OneMoreWaits(p: Party, s: State, s': State, t: Task)
    requires Domains(p, s) && Waiters(p, s) && Domains(p, s') && t in p.bit && s'.status == s.status[t := Waiting]
    requires s'.group.waiters == s.group.waiters + [Waiter(t, AllBits(p), true, true)]
    ensures Waiters(p, s')
  {
    hide AllBits;
    var w, x := s.group.waiters, Waiter(t, AllBits(p), true, true);
    assert (w + [x])[|w|] == x;
    forall u | u in p.bit && s'.status[u] == Waiting
      ensures exists v :: v in w + [x] && v.task == u
    {
      if u == t {
        assert x in w + [x];
      } else {
        var v :| v in w && v.task == u;
        assert v in w + [x];
      }
    }
  }

  lemma Listed(p: Party, s: State, u: Task) returns (w: Waiter)
    requires Domains(p, s) && Waiters(p, s) && u in p.bit && s.status[u] == Waiting
    ensures w in s.group.waiters && w.task == u
  {
    w :| w in s.group.waiters && w.task == u;
  }

  lemma BlockedState(p: Party, s: State, t: Task, r: nat)
    requires Inv(p, s, r) && Enabled(p, s, Enter(t)) && !(AllBits(p) <= s.group.bits + {p.bit[t]})
    ensures var s' := Next(p, s, Enter(t));
            && Domains(p, s') && s'.status == s.status[t := Waiting]
            && s'.group == Group(s.group.bits + {p.bit[t]}, s.group.waiters + [Waiter(t, AllBits(p), true, true)])
            && s'.entered == s.entered[t := s.entered[t] + 1] && s'.left == s.left
  {
    hide AllBits, OneBitEach, Sync, Arrived, InRound, Waiters;
    SyncBlocks(p, s, t, r);
    var s' := Next(p, s, Enter(t));
    forall u | u in p.bit && u != t
      ensures s'.status[u] == s.status[u]
    {
      if s.status[u] == Waiting {
        var v := Listed(p, s, u);
        assert v in s'.group.waiters;
      }
    }
    assert s'.status == s.status[t := Waiting];
  }

  lemma BlockedWaiters(p: Party, s: State, t: Task, r: nat)
    requires Inv(p, s, r) && Enabled(p, s, Enter(t)) && !(AllBits(p) <= s.group.bits + {p.bit[t]})
    ensures var s' := Next(p, s, Enter(t));
            && Domains(p, s') && Waiters(p, s') && s'.status == s.status[t := Waiting] && InRound(p, s', r)
            && s'.group.bits == s.group.bits + {p.bit[t]}
  {
    hide AllBits, OneBitEach, Arrived, InRound, Next, Waiters;
    BlockedState(p, s, t, r);
    OneMoreWaits(p, s, Next(p, s, Enter(t)), t);
    StillInRound(p, s, Next(p, s, Enter(t)), t, r);
  }

  ghost predicate IsRun(p: Party, s: State, steps: seq<Step>)
    decreases |steps|
  {
    steps != [] ==> Enabled(p, s, steps[0]) && IsRun(p, Next(p, s, steps[0]), steps[1..])
  }

  ghost function Run(p: Party, s: State, steps: seq<Step>): State
    requires IsRun(p, s, steps)
    decreases |steps|
  {
    if steps == [] then s else Run(p, Next(p, s, steps[0]), steps[1..])
  }

  lemma StepKeeps(p: Party, s: State, a: Step, r: nat) returns (r': nat)
    requires Inv(p, s, r) && Enabled(p, s, a)
    ensures Inv(p, Next(p, s, a), r')
  {
    hide Inv, Next;
    match a
    case Return(t) =>
      ReturnKeeps(p, s, t, r);
      r' := r;
    case Enter(t) =>
      assert s.status.Keys == p.bit.Keys by { InvDomains(p, s, r); }
      if forall u | u in p.bit && u != t :: s.status[u] == Waiting {
        LastArrivalReleasesAll(p, s, t, r);
        r' := r + 1;
      } else {
        OtherArrival(p, s, t, r);
        r' := r;
      }
  }

  lemma InvDomains(p: Party, s: State, r: nat)
    requires Inv(p, s, r)
    ensures Domains(p, s)
  {
  }

  lemma {:induction false} RunKeeps(p: Party, s: State, steps: seq<Step>, r: nat) returns (r': nat)
    requires Inv(p, s, r) && IsRun(p, s, steps)
    ensures Inv(p, Run(p, s, steps), r')
    decreases |steps|
  {
    hide Inv, Next, Enabled;
    if steps == [] {
      r' := r;
    } else {
      var r1 := StepKeeps(p, s, steps[0], r);
      r' := RunKeeps(p, Next(p, s, steps[0]), steps[1..], r1);
    }
  }

  // The barrier: in every interleaving, for any number of rounds, no task has returned from its k-th call before every
  // task has made its k-th call.
  lemma NobodyLeavesEarly(p: Party, group: Group, steps: seq<Step>)
    requires OneBitEach(p) && group.waiters == [] && group.bits * AllBits(p) == {}
    requires var s := State(group, map t | t in p.bit :: Outside, map t | t in p.bit :: 0, map t | t in p.bit :: 0);
             IsRun(p, s, steps)
    ensures var s := State(group, map t | t in p.bit :: Outside, map t | t in p.bit :: 0, map t | t in p.bit :: 0);
            var s' := Run(p, s, steps);
            forall t, u | t in p.bit && u in p.bit :: t in s'.left && u in s'.entered && s'.left[t] <= s'.entered[u]
  {
    hide Next, Enabled, Run, IsRun;
    var s := State(group, map t | t in p.bit :: Outside, map t | t in p.bit :: 0, map t | t in p.bit :: 0);
    assert p.bit.Keys != {};
    var t :| t in p.bit;
    assert s.status[t] != Waiting;
    assert Arrived(p, s) == {};
    var r := RunKeeps(p, s, steps, 0);
    InvBarrier(p, Run(p, s, steps), r);
    InvDomains(p, Run(p, s, steps), r);
  }
}
