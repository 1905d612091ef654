/**
 The time keeping of tasks.c as functions: the tick count, the two delayed
 lists that swap when it wraps, and the cached next unblock time. The meaning
 is an unbounded clock and an absolute wake time for every sleeping task.
 */
module KernelTime {
  import opened KernelTypes
  import opened Rings

  datatype Time = Time(tick: nat, delayed: seq<Item<Task>>, overflow: seq<Item<Task>>, next: nat, overflows: nat)

  function Owners(list: seq<Item<Task>>): (r: seq<Task>)
    ensures |r| == |list| && forall i | 0 <= i < |list| :: r[i] == list[i].owner
  {
    seq(|list|, i requires 0 <= i < |list| => list[i].owner)
  }

  function HeadValue(list: seq<Item<Task>>): nat {
    if list == [] then MAX_DELAY else list[0].value
  }

  function ResetNext(t: Time): Time {
    t.(next := HeadValue(t.delayed))
  }

  // The current task goes to sleep; its wake time may lie beyond the wrap.
  function AddDelayed(t: Time, task: Task, ticks: nat): Time {
    var wake := (t.tick + ticks) % M;
    if wake < t.tick then t.(overflow := Insert(t.overflow, Item(task, wake)))
    else t.(delayed := Insert(t.delayed, Item(task, wake)), next := if wake < t.next then wake else t.next)
  }

  function WithoutOwner(list: seq<Item<Task>>, task: Task): seq<Item<Task>> {
    if list == [] then [] else if list[0].owner == task then list[1..] else [list[0]] + WithoutOwner(list[1..], task)
  }

  // Taken out of whichever list it sleeps in; the cached unblock time may become stale.
  function RemoveSleeper(t: Time, task: Task): Time {
    t.(delayed := WithoutOwner(t.delayed, task), overflow := WithoutOwner(t.overflow, task))
  }

  // The tick count moves on, and the lists swap when it wraps.
  function Count(t: Time): Time {
    var tick := (t.tick + 1) % M;
    if tick == 0 then ResetNext(Time(0, t.overflow, t.delayed, t.next, t.overflows + 1)) else t.(tick := tick)
  }

  // What an expired head of the current list amounts to: everything up to the tick leaves it.
  function Expire(t: Time): Time {
    if t.tick >= t.next then ResetNext(t.(delayed := t.delayed[Slot(t.delayed, t.tick)..])) else t
  }

  function Expired(t: Time): seq<Task> {
    if t.tick >= t.next then Owners(t.delayed[..Slot(t.delayed, t.tick)]) else []
  }

  // One processed tick, and the tasks it makes ready, in order.
  function Tick(t: Time): Time {
    Expire(Count(t))
  }

  function Woken(t: Time): seq<Task> {
    Expired(Count(t))
  }

  // ---- Meaning ----

  // Every entry of a list stands for the wake time base + value.
  ghost predicate Filed(list: seq<Item<Task>>, base: int, due: map<Task, int>) {
    forall i | 0 <= i < |list| :: list[i].value < M && list[i].owner in due && due[list[i].owner] == base + list[i].value
  }

  ghost function Sleepers(t: Time): seq<Task> {
    Owners(t.delayed) + Owners(t.overflow)
  }

  // In order, and the cached next unblock time is not late.
  ghost predicate Ordered(t: Time) {
    && t.next < M && Sorted(t.delayed) && Sorted(t.overflow)
    && forall i | 0 <= i < |t.delayed| :: t.next <= t.delayed[i].value
  }

  // The current list is this epoch, the overflow list the next one.
  ghost predicate Epochs(t: Time, clock: int, due: map<Task, int>) {
    t.tick < M && Filed(t.delayed, clock - t.tick, due) && Filed(t.overflow, clock - t.tick + M, due)
  }

  // And every sleeper is in one of them once. Nobody due by the absolute time `since` is asleep.
  ghost predicate Tells(t: Time, clock: int, due: map<Task, int>, since: int) {
    && clock - 1 <= since <= clock && Ordered(t) && Epochs(t, clock, due)
    && (forall x | x in due :: since < due[x] < clock + M)
    && multiset(Sleepers(t)) == multiset(due.Keys)
  }

  // ---- The abstract clock ----

  function Later(due: map<Task, int>, clock: int): map<Task, int> {
    map x | x in due && due[x] > clock :: due[x]
  }

  // The tick count as a remainder, and the epoch it belongs to.
  lemma NextTick(t: Time)
    requires t.tick < M
    ensures (t.tick + 1) % M == if t.tick + 1 == M then 0 else t.tick + 1
  {
  }

  lemma WakeTick(tick: nat, ticks: nat)
    requires tick < M && 1 <= ticks < M
    ensures var wake := (tick + ticks) % M;
            wake < M && if wake < tick then wake == tick + ticks - M else wake == tick + ticks
  {
  }

  lemma HeadFiled(list: seq<Item<Task>>, base: int, due: map<Task, int>)
    requires Filed(list, base, due) && list != []
    ensures list[0].owner in due && due[list[0].owner] == base + list[0].value < base + M
  {
  }

  // When the count wraps, nobody is left in the current list: the assertion made at the swap holds.
  lemma EmptyAtSwap(t: Time, clock: int, due: map<Task, int>)
    requires Tells(t, clock, due, clock) && t.tick + 1 == M
    ensures t.delayed == []
  {
    if t.delayed != [] {
      HeadFiled(t.delayed, clock - t.tick, due);
      assert false;
    }
  }

  lemma CountOrdered(t: Time)
    requires t.tick < M && Ordered(t) && (t.tick + 1 == M ==> t.delayed == [])
    requires forall i | 0 <= i < |t.overflow| :: t.overflow[i].value < M
    ensures Ordered(Count(t))
  {
    NextTick(t);
  }

  lemma CountEpochs(t: Time, clock: int, due: map<Task, int>)
    requires Epochs(t, clock, due) && (t.tick + 1 == M ==> t.delayed == [])
    ensures Epochs(Count(t), clock + 1, due)
    ensures multiset(Sleepers(Count(t))) == multiset(Sleepers(t))
  {
    hide HeadValue;
    NextTick(t);
  }

  lemma CountTells(t: Time, clock: int, due: map<Task, int>)
    requires Tells(t, clock, due, clock)
    ensures Tells(Count(t), clock + 1, due, clock)
  {
    hide Ordered, Filed, Sleepers, Count;
    if t.tick + 1 == M {
      EmptyAtSwap(t, clock, due);
    }
    ValuesBelow(t.overflow, clock - t.tick + M, due);
    CountOrdered(t);
    CountEpochs(t, clock, due);
  }

  lemma ValuesBelow(list: seq<Item<Task>>, base: int, due: map<Task, int>)
    requires Filed(list, base, due)
    ensures forall i | 0 <= i < |list| :: list[i].value < M
  {
  }

  lemma SplitOwners(list: seq<Item<Task>>, k: nat)
    requires k <= |list|
    ensures Owners(list) == Owners(list[..k]) + Owners(list[k..])
  {
  }

  lemma OwnerAt(list: seq<Item<Task>>, x: Task) returns (i: nat)
    requires x in Owners(list)
    ensures i < |list| && list[i].owner == x
  {
    i :| 0 <= i < |list| && Owners(list)[i] == x;
  }

  // Before the tick at which entries fall due is served, the cache has not passed it.
  lemma NoneDue(t: Time, clock: int, due: map<Task, int>)
    requires Tells(t, clock, due, clock - 1) && t.tick < t.next
    ensures Later(due, clock) == due
  {
    forall x | x in due
      ensures due[x] > clock
    {
      assert x in multiset(Sleepers(t));
      if x in Owners(t.delayed) {
        var i := OwnerAt(t.delayed, x);
      } else {
        var i := OwnerAt(t.overflow, x);
      }
    }
  }

  // The part of the current list up to the tick is exactly what has fallen due.
  lemma DueSplit(t: Time, clock: int, due: map<Task, int>, x: Task)
    requires Tells(t, clock, due, clock - 1)
    ensures var k := Slot(t.delayed, t.tick);
            && (x in Owners(t.delayed[..k]) ==> x in due && due[x] == clock)
            && (x in Owners(t.delayed[k..]) || x in Owners(t.overflow) ==> x in due && due[x] > clock)
            && (x in due ==> x in Owners(t.delayed[..k]) || x in Owners(t.delayed[k..]) || x in Owners(t.overflow))
  {
    hide Slot, Owners;
    var k := Slot(t.delayed, t.tick);
    SplitOwners(t.delayed, k);
    if x in Owners(t.delayed[..k]) {
      var i := OwnerAt(t.delayed[..k], x);
      assert t.delayed[i].owner == x;
    }
    if x in Owners(t.delayed[k..]) {
      var i := OwnerAt(t.delayed[k..], x);
      assert t.delayed[k + i].owner == x && t.delayed[k].value <= t.delayed[k + i].value;
    }
    if x in Owners(t.overflow) {
      var i := OwnerAt(t.overflow, x);
    }
    if x in due {
      assert x in multiset(Sleepers(t));
    }
  }

  lemma RestOfSleepers(t: Time, clock: int, due: map<Task, int>)
    requires Tells(t, clock, due, clock - 1)
    ensures var k := Slot(t.delayed, t.tick);
            multiset(Owners(t.delayed[k..]) + Owners(t.overflow)) == multiset(Later(due, clock).Keys)
  {
    var k := Slot(t.delayed, t.tick);
    var early, rest := Owners(t.delayed[..k]), Owners(t.delayed[k..]) + Owners(t.overflow);
    AllSleepers(t, clock, due, k);
    hide Slot, Owners, Later, Tells;
    forall x: Task
      ensures x in early ==> x !in Later(due, clock).Keys
      ensures x in rest ==> x in Later(due, clock).Keys
      ensures x in Later(due, clock).Keys ==> x in due
    {
      DueSplit(t, clock, due, x);
      LaterAt(due, clock, x);
    }
    SplitBySet(early, rest, due.Keys, Later(due, clock).Keys);
  }

  lemma AllSleepers(t: Time, clock: int, due: map<Task, int>, k: nat)
    requires Tells(t, clock, due, clock - 1) && k <= |t.delayed|
    ensures multiset(Owners(t.delayed[..k]) + (Owners(t.delayed[k..]) + Owners(t.overflow))) == multiset(due.Keys)
  {
    hide Owners, Ordered, Epochs;
    SplitOwners(t.delayed, k);
  }

  lemma SplitBySet(early: seq<Task>, rest: seq<Task>, all: set<Task>, later: set<Task>)
    requires multiset(early + rest) == multiset(all) && later <= all
    requires (forall x | x in early :: x !in later) && forall x | x in rest :: x in later
    ensures multiset(rest) == multiset(later)
  {
    forall x: Task
      ensures multiset(rest)[x] == multiset(later)[x]
    {
      assert multiset(early + rest)[x] == multiset(all)[x];
    }
  }

  lemma LaterAt(due: map<Task, int>, clock: int, x: Task)
    ensures x in Later(due, clock) <==> x in due && due[x] > clock
  {
  }

  lemma ExpireEpochs(t: Time, clock: int, due: map<Task, int>)
    requires Tells(t, clock, due, clock - 1) && t.tick >= t.next
    ensures Epochs(Expire(t), clock, Later(due, clock))
  {
    hide Slot, Filed, Ordered, Owners, HeadValue, Sleepers, Sorted, Later;
    LaterFiled(t, clock, due);
  }

  lemma ExpireTells(t: Time, clock: int, due: map<Task, int>)
    requires Tells(t, clock, due, clock - 1)
    ensures Tells(Expire(t), clock, Later(due, clock), clock)
  {
    if t.tick < t.next {
      hide Slot, Filed, Ordered, Owners, HeadValue, Sleepers;
      NoneDue(t, clock, due);
      LaterBounds(due, clock);
    } else {
      hide Slot, Ordered, Owners, HeadValue, Sleepers, Epochs, Expire, Later;
      RestOfSleepers(t, clock, due);
      LaterBounds(due, clock);
      ExpireEpochs(t, clock, due);
      DelayedBelow(t, clock, due);
      ExpireOrdered(t);
      ExpireSleepers(t);
    }
  }

  lemma LaterBounds(due: map<Task, int>, clock: int)
    ensures forall x | x in Later(due, clock) :: x in due && Later(due, clock)[x] == due[x] > clock
  {
  }

  lemma DelayedBelow(t: Time, clock: int, due: map<Task, int>)
    requires Epochs(t, clock, due)
    ensures forall i | 0 <= i < |t.delayed| :: t.delayed[i].value < M
  {
    ValuesBelow(t.delayed, clock - t.tick, due);
  }

  lemma ExpireSleepers(t: Time)
    requires t.tick >= t.next
    ensures Sleepers(Expire(t)) == Owners(t.delayed[Slot(t.delayed, t.tick)..]) + Owners(t.overflow)
  {
  }

  lemma ExpiredAreDue(t: Time, clock: int, due: map<Task, int>, x: Task)
    requires Tells(t, clock, due, clock - 1)
    ensures x in Expired(t) <==> x in due && due[x] == clock
  {
    hide Slot, Filed, Ordered, Owners, HeadValue, Sleepers;
    if t.tick < t.next {
      NoneDue(t, clock, due);
      assert x in due ==> x in Later(due, clock);
    } else {
      DueSplit(t, clock, due, x);
    }
  }

  lemma ExpireOrdered(t: Time)
    requires Ordered(t) && forall i | 0 <= i < |t.delayed| :: t.delayed[i].value < M
    ensures Ordered(Expire(t))
  {
    hide Slot;
  }

  lemma LaterFiled(t: Time, clock: int, due: map<Task, int>)
    requires Tells(t, clock, due, clock - 1)
    ensures var k := Slot(t.delayed, t.tick);
            && Filed(t.delayed[k..], clock - t.tick, Later(due, clock))
            && Filed(t.overflow, clock - t.tick + M, Later(due, clock)) && Sorted(t.delayed[k..])
  {
    var k := Slot(t.delayed, t.tick);
    forall i | 0 <= i < |t.delayed[k..]|
      ensures t.delayed[k..][i].value > t.tick
    {
      assert t.delayed[k].value <= t.delayed[k + i].value;
    }
  }

  // One processed tick: the clock advances by one, and the tasks due then, no others, become ready.
  lemma TickTells(t: Time, clock: int, due: map<Task, int>)
    requires Tells(t, clock, due, clock)
    ensures Tells(Tick(t), clock + 1, Later(due, clock + 1), clock + 1)
    ensures forall x :: x in Woken(t) <==> x in due && due[x] == clock + 1
  {
    hide Tells, Count, Expire, Expired;
    CountTells(t, clock, due);
    ExpireTells(Count(t), clock + 1, due);
    forall x: Task
      ensures x in Woken(t) <==> x in due && due[x] == clock + 1
    {
      ExpiredAreDue(Count(t), clock + 1, due, x);
    }
  }

  lemma OwnersConcat(a: seq<Item<Task>>, b: seq<Item<Task>>)
    ensures Owners(a + b) == Owners(a) + Owners(b)
  {
  }

  lemma OwnersInsert(list: seq<Item<Task>>, x: Item<Task>)
    ensures multiset(Owners(Insert(list, x))) == multiset(Owners(list)) + multiset{x.owner}
  {
    hide Owners, Slot;
    var i := Slot(list, x.value);
    SplitOwners(list, i);
    OwnersConcat(list[..i] + [x], list[i..]);
    OwnersConcat(list[..i], [x]);
    OneOwner(x);
  }

  lemma OneOwner(x: Item<Task>)
    ensures Owners([x]) == [x.owner]
  {
  }

  lemma InsertFiled(list: seq<Item<Task>>, base: int, due: map<Task, int>, x: Item<Task>)
    requires Filed(list, base, due) && x.owner !in due && x.value < M
    ensures Filed(Insert(list, x), base, due[x.owner := base + x.value])
    ensures forall e | e in Insert(list, x) :: e == x || e in list
  {
    hide Slot;
  }

  lemma StillFiled(list: seq<Item<Task>>, base: int, due: map<Task, int>, task: Task, at: int)
    requires Filed(list, base, due) && task !in due
    ensures Filed(list, base, due[task := at])
  {
  }

  lemma InsertNext(list: seq<Item<Task>>, next: nat, x: Item<Task>)
    requires forall i | 0 <= i < |list| :: next <= list[i].value
    ensures forall i | 0 <= i < |Insert(list, x)| :: (if x.value < next then x.value else next) <= Insert(list, x)[i].value
  {
    hide Slot;
  }

  lemma AddOrdered(t: Time, task: Task, ticks: nat)
    requires t.tick < M && 1 <= ticks < M && Ordered(t)
    ensures Ordered(AddDelayed(t, task, ticks))
  {
    hide Slot, Insert, Sorted;
    var x := Item(task, (t.tick + ticks) % M);
    WakeTick(t.tick, ticks);
    InsertSorted(t.overflow, x);
    InsertSorted(t.delayed, x);
    InsertNext(t.delayed, t.next, x);
  }

  lemma AddEpochs(t: Time, clock: int, due: map<Task, int>, task: Task, ticks: nat)
    requires Epochs(t, clock, due) && task !in due && 1 <= ticks < M
    ensures Epochs(AddDelayed(t, task, ticks), clock, due[task := clock + ticks])
  {
    hide Slot, Insert, Filed;
    var x := Item(task, (t.tick + ticks) % M);
    WakeTick(t.tick, ticks);
    if x.value < t.tick {
      InsertFiled(t.overflow, clock - t.tick + M, due, x);
      StillFiled(t.delayed, clock - t.tick, due, task, clock + ticks);
    } else {
      InsertFiled(t.delayed, clock - t.tick, due, x);
      StillFiled(t.overflow, clock - t.tick + M, due, task, clock + ticks);
    }
  }

  lemma AddSleepers(t: Time, task: Task, ticks: nat)
    ensures multiset(Sleepers(AddDelayed(t, task, ticks))) == multiset(Sleepers(t)) + multiset{task}
  {
    hide Slot, Insert, Owners;
    var x := Item(task, (t.tick + ticks) % M);
    OwnersInsert(t.overflow, x);
    OwnersInsert(t.delayed, x);
  }

  // A task that goes to sleep for a number of ticks is due exactly that much later.
  lemma AddTells(t: Time, clock: int, due: map<Task, int>, task: Task, ticks: nat)
    requires Tells(t, clock, due, clock) && task !in due && 1 <= ticks < M
    ensures Tells(AddDelayed(t, task, ticks), clock, due[task := clock + ticks], clock)
  {
    hide AddDelayed, Sleepers, Ordered, Epochs;
    assert t.tick < M by { EpochTick(t, clock, due); }
    AddOrdered(t, task, ticks);
    AddEpochs(t, clock, due, task, ticks);
    AddSleepers(t, task, ticks);
    assert due[task := clock + ticks].Keys == due.Keys + {task};
  }

  lemma EpochTick(t: Time, clock: int, due: map<Task, int>)
    requires Epochs(t, clock, due)
    ensures t.tick < M
  {
  }

  lemma {:induction false} WithoutOwners(list: seq<Item<Task>>, task: Task)
    ensures multiset(Owners(WithoutOwner(list, task))) == multiset(Owners(list)) - multiset{task}
  {
    if list != [] {
      WithoutOwners(list[1..], task);
      assert Owners(list) == [list[0].owner] + Owners(list[1..]);
      if list[0].owner != task {
        var r := WithoutOwner(list[1..], task);
        assert Owners([list[0]] + r) == [list[0].owner] + Owners(r);
      }
    }
  }

  // What is left is part of the list, in the same order.
  lemma {:induction false} WithoutSub(list: seq<Item<Task>>, task: Task, low: nat)
    requires Sorted(list) && forall i | 0 <= i < |list| :: low <= list[i].value
    ensures var r := WithoutOwner(list, task);
            && Sorted(r) && (forall i | 0 <= i < |r| :: low <= r[i].value) && (forall e | e in r :: e in list)
  {
    if list != [] && list[0].owner != task {
      WithoutSub(list[1..], task, list[0].value);
    }
  }

  lemma WithoutFiled(list: seq<Item<Task>>, task: Task, base: int, due: map<Task, int>)
    requires Filed(list, base, due) && task !in Owners(WithoutOwner(list, task)) && Sorted(list)
    ensures Filed(WithoutOwner(list, task), base, due - {task})
  {
    WithoutSub(list, task, 0);
    var r := WithoutOwner(list, task);
    forall i | 0 <= i < |r|
      ensures r[i] in list && r[i].owner != task
    {
      assert Owners(r)[i] in Owners(r);
    }
  }

  lemma RemoveSleepers(t: Time, due: map<Task, int>, task: Task)
    requires multiset(Sleepers(t)) == multiset(due.Keys)
    ensures multiset(Sleepers(RemoveSleeper(t, task))) == multiset((due - {task}).Keys)
    ensures task !in Owners(WithoutOwner(t.delayed, task)) && task !in Owners(WithoutOwner(t.overflow, task))
  {
    hide Owners, WithoutOwner;
    WithoutOwners(t.delayed, task);
    WithoutOwners(t.overflow, task);
    AtMostOnce(t, due, task);
    assert (due - {task}).Keys == due.Keys - {task};
    TakenOut(Owners(t.delayed), Owners(t.overflow), Owners(WithoutOwner(t.delayed, task)),
             Owners(WithoutOwner(t.overflow, task)), due.Keys, task);
  }

  lemma TakenOut(a: seq<Task>, b: seq<Task>, a': seq<Task>, b': seq<Task>, all: set<Task>, task: Task)
    requires multiset(a + b) == multiset(all)
    requires multiset(a') == multiset(a) - multiset{task} && multiset(b') == multiset(b) - multiset{task}
    requires multiset(a)[task] + multiset(b)[task] <= 1
    ensures multiset(a' + b') == multiset(all - {task}) && task !in a' && task !in b'
  {
    assert multiset(a')[task] == 0 && multiset(b')[task] == 0;
    forall x: Task
      ensures multiset(a' + b')[x] == multiset(all - {task})[x]
    {
      assert multiset(a + b)[x] == multiset(all)[x];
    }
  }

  lemma RemoveEpochs(t: Time, clock: int, due: map<Task, int>, task: Task)
    requires Epochs(t, clock, due) && Sorted(t.delayed) && Sorted(t.overflow)
    requires task !in Owners(WithoutOwner(t.delayed, task)) && task !in Owners(WithoutOwner(t.overflow, task))
    ensures Epochs(RemoveSleeper(t, task), clock, due - {task})
  {
    hide Owners, WithoutOwner, Filed, Sorted;
    WithoutFiled(t.delayed, task, clock - t.tick, due);
    WithoutFiled(t.overflow, task, clock - t.tick + M, due);
  }

  lemma RemoveOrdered(t: Time, task: Task)
    requires Ordered(t)
    ensures Ordered(RemoveSleeper(t, task)) && Sorted(t.delayed) && Sorted(t.overflow)
  {
    hide WithoutOwner, Sorted;
    WithoutSub(t.delayed, task, t.next);
    WithoutSub(t.overflow, task, 0);
  }

  // A sleeper woken by an event, suspended or deleted leaves the lists; nobody else's wake time changes.
  lemma RemoveTells(t: Time, clock: int, due: map<Task, int>, task: Task)
    requires Tells(t, clock, due, clock)
    ensures Tells(RemoveSleeper(t, task), clock, due - {task}, clock)
  {
    hide RemoveSleeper, Sleepers, Epochs, Ordered, Sorted;
    RemoveSleepers(t, due, task);
    RemoveOrdered(t, task);
    RemoveEpochs(t, clock, due, task);
  }

  lemma AtMostOnce(t: Time, due: map<Task, int>, task: Task)
    requires multiset(Sleepers(t)) == multiset(due.Keys)
    ensures multiset(Owners(t.delayed))[task] + multiset(Owners(t.overflow))[task] == if task in due then 1 else 0
  {
    assert multiset(Sleepers(t))[task] == multiset(due.Keys)[task];
  }
}
