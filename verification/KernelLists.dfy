/**
 Conservation and scheduling: every live task's state list item is in exactly
 one list after every operation, the task count is the sum of the list
 lengths, the ready hint is never too low, and a context switch serves the
 highest priority in turn.
 */
module KernelLists {
  import opened Rings
  import opened KernelTime
  import opened KernelTypes
  import opened Sequences
  import opened KernelState

  ghost function ReadyTasks(ready: seq<WalkedRing<Task>>): multiset<Task> {
    if ready == [] then multiset{} else multiset(ready[0].items) + ReadyTasks(ready[1..])
  }

  // All state lists together.
  ghost function StateLists(k: Kernel): multiset<Task> {
    ReadyTasks(k.ready) + multiset(Sleepers(k.time)) + multiset(k.suspended) + multiset(k.terminated)
  }

  function ReadyCount(ready: seq<WalkedRing<Task>>): nat {
    if ready == [] then 0 else |ready[0].items| + ReadyCount(ready[1..])
  }

  // Every ready task is in the list of its priority, and none above the hint.
  ghost predicate ReadyOk(ready: seq<WalkedRing<Task>>, top: nat, prio: map<Task, nat>) {
    && (forall p, t {:trigger t in ready[p].items} | 0 <= p < |ready| && t in ready[p].items ::
          t in prio && prio[t] == p && p <= top)
    && (forall t | t in prio :: prio[t] < |ready|)
  }

  // Every live task is in exactly one list, but for those between lists.
  ghost predicate Placed(k: Kernel, between: multiset<Task>) {
    ReadyOk(k.ready, k.top, k.prio) && StateLists(k) + between == multiset(k.prio.Keys)
  }

  // ---- Single moves ----

  lemma {:induction false} ReadyUpdate(ready: seq<WalkedRing<Task>>, p: nat, r: WalkedRing<Task>, x: Task)
    requires p < |ready|
    ensures ReadyTasks(ready[p := r])[x] + multiset(ready[p].items)[x] == ReadyTasks(ready)[x] + multiset(r.items)[x]
  {
    if p > 0 {
      ReadyUpdate(ready[1..], p - 1, r, x);
      assert ready[p := r][1..] == ready[1..][p - 1 := r];
    } else {
      assert ready[0 := r][1..] == ready[1..];
    }
  }

  lemma InsertEndItems<T>(r: Ring<T>, x: T)
    requires ValidRing(r)
    ensures multiset(InsertEnd(r, x).items) == multiset(r.items) + multiset{x}
  {
    if r.pos > 0 {
      assert r.items == r.items[..r.pos - 1] + r.items[r.pos - 1..];
    }
  }

  lemma RingWithout(r: WalkedRing<Task>, t: Task)
    ensures RemoveFromRing(r, t).items == Without(r.items, t)
  {
    if t in r.items {
      WithoutAt(r.items, t, IndexOf(r.items, t));
    } else {
      WithoutAbsent(r.items, t);
    }
  }

  lemma {:induction false} AtLevel(ready: seq<WalkedRing<Task>>, p: nat, t: Task)
    requires p < |ready| && forall q | 0 <= q < |ready| && q != p :: t !in ready[q].items
    ensures ReadyTasks(ready)[t] == multiset(ready[p].items)[t]
  {
    if p > 0 {
      AtLevel(ready[1..], p - 1, t);
    } else {
      Nowhere(ready[1..], t);
    }
  }

  lemma {:induction false} Nowhere(ready: seq<WalkedRing<Task>>, t: Task)
    requires forall q | 0 <= q < |ready| :: t !in ready[q].items
    ensures ReadyTasks(ready)[t] == 0
  {
    if ready != [] {
      Nowhere(ready[1..], t);
    }
  }

  lemma AddReadyOk(k: Kernel, t: Task)
    requires ReadyOk(k.ready, k.top, k.prio) && t in k.prio
    ensures ReadyOk(AddReady(k, t).ready, AddReady(k, t).top, k.prio)
  {
    var p, k' := Level(k, t), AddReady(k, t);
    InsertEndItems(k.ready[p], t);
    forall q, x | 0 <= q < |k'.ready| && x in k'.ready[q].items
      ensures x in k.prio && k.prio[x] == q && q <= k'.top
    {
      if q == p {
        assert x in multiset(k'.ready[p].items);
        assert x in k.ready[p].items || x == t;
      } else {
        assert x in k.ready[q].items;
      }
    }
  }

  lemma AddReadyLists(k: Kernel, t: Task)
    ensures StateLists(AddReady(k, t)) == StateLists(k) + multiset{t}
  {
    hide ReadyTasks, Sleepers;
    var p := Level(k, t);
    var r: WalkedRing<Task> := InsertEnd(k.ready[p], t);
    InsertEndItems(k.ready[p], t);
    forall x: Task
      ensures StateLists(AddReady(k, t))[x] == (StateLists(k) + multiset{t})[x]
    {
      ReadyUpdate(k.ready, p, r, x);
      assert multiset(r.items)[x] == (multiset(k.ready[p].items) + multiset{t})[x];
    }
  }

  lemma AddReadyPlaced(k: Kernel, t: Task, between: multiset<Task>)
    requires Placed(k, between) && t in k.prio && t in between
    ensures Placed(AddReady(k, t), between - multiset{t})
  {
    hide ReadyOk, StateLists;
    AddReadyOk(k, t);
    AddReadyLists(k, t);
  }

  lemma RemoveStateOk(k: Kernel, t: Task)
    requires ReadyOk(k.ready, k.top, k.prio)
    ensures ReadyOk(RemoveState(k, t).ready, k.top, k.prio)
  {
    hide RemoveFromRing;
    var p := Level(k, t);
    RingWithout(k.ready[p], t);
    WithoutItems(k.ready[p].items, t);
    forall x | x in RemoveFromRing(k.ready[p], t).items
      ensures x in k.ready[p].items
    {
      assert x in multiset(RemoveFromRing(k.ready[p], t).items);
    }
  }

  lemma RemoveReadyLists(k: Kernel, t: Task)
    requires ReadyOk(k.ready, k.top, k.prio) && t in k.prio
    ensures ReadyTasks(RemoveState(k, t).ready) == ReadyTasks(k.ready) - multiset{t}
  {
    hide RemoveFromRing, Without, RemoveSleeper, ReadyTasks;
    var p := Level(k, t);
    var r := RemoveFromRing(k.ready[p], t);
    RingWithout(k.ready[p], t);
    WithoutItems(k.ready[p].items, t);
    forall x: Task
      ensures ReadyTasks(RemoveState(k, t).ready)[x] == (ReadyTasks(k.ready) - multiset{t})[x]
    {
      ReadyUpdate(k.ready, p, r, x);
      AtLevel(k.ready, p, t);
      assert multiset(r.items)[x] == (multiset(k.ready[p].items) - multiset{t})[x];
    }
  }

  lemma RemoveStatePlaced(k: Kernel, t: Task)
    requires Placed(k, multiset{}) && t in k.prio && t !in k.terminated
    ensures Placed(RemoveState(k, t), multiset{t})
  {
    hide ReadyOk, ReadyTasks, WithoutOwner, Owners, Without, RemoveFromRing;
    var k' := RemoveState(k, t);
    RemoveStateOk(k, t);
    RemoveReadyLists(k, t);
    WithoutItems(k.suspended, t);
    WithoutOwners(k.time.delayed, t);
    WithoutOwners(k.time.overflow, t);
    forall x: Task
      ensures (StateLists(k') + multiset{t})[x] == multiset(k.prio.Keys)[x]
    {
      assert StateLists(k)[x] == multiset(k.prio.Keys)[x];
    }
  }
}
