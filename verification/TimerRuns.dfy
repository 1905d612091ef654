/**
 No expiry lost or invented: over any run of the daemon that samples the time
 at least once per wrap, an undisturbed auto-reload timer is called back once
 per period, a one-shot timer once and not early, and a timer is in a list
 exactly while it is active.
 */
module TimerRuns {
  import opened KernelTypes
  import opened Rings
  import T = KernelTime
  import opened TimerService
  import opened Division

  // ---- The fate of one timer, and how fates chain ----

  // From (t, due) to (t', due') with processing up to the absolute time now: an auto-reload timer is called back once
  // per period its expiry moves, none of them early; a one-shot timer at most once, not early, and then is no longer due.
  ghost predicate Fate(t: Timer, due: int, t': Timer, listed: bool, due': int, now: int) {
    var k := t'.calls - t.calls;
    && t'.period == t.period && t'.autoReload == t.autoReload && k >= 0
    && if t.autoReload then listed && due' == due + k * t.period && (k > 0 ==> due' - t.period <= now)
       else if listed then k == 0 && due' == due
       else k == 1 && due <= now
  }

  lemma FateTransitive(t0: Timer, e0: int, t1: Timer, e1: int, n1: int, t2: Timer, listed: bool, e2: int, n2: int)
    requires Fate(t0, e0, t1, true, e1, n1) && Fate(t1, e1, t2, listed, e2, n2) && n1 <= n2
    ensures Fate(t0, e0, t2, listed, e2, n2)
  {
    Distribute(t1.calls - t0.calls, t2.calls - t1.calls, t0.period);
  }

  // ---- The invariant ----

  // The lists hold each due timer once, filed by epoch; base is the start of the current list's epoch.
  ghost predicate Lists(current: seq<Item<Id>>, overflow: seq<Item<Id>>, base: int, due: map<Id, int>) {
    && Sorted(current) && Sorted(overflow)
    && T.Filed(current, base, due) && T.Filed(overflow, base + M, due)
    && multiset(T.Owners(current) + T.Owners(overflow)) == multiset(due.Keys)
  }

  // A timer is active exactly when it is due, but for those being handled.
  ghost predicate Status(timers: map<Id, Timer>, due: map<Id, int>, handled: set<Id>) {
    && (forall id | id in handled :: id !in due)
    && (forall id | id in due :: id in timers)
    && (forall id | id in timers && id !in handled :: timers[id].active <==> id in due)
  }

  ghost predicate Files(d: Daemon, base: int, due: map<Id, int>, handled: set<Id>) {
    Lists(d.current, d.overflow, base, due) && Status(d.timers, due, handled)
  }

  lemma FilesKnown(d: Daemon, base: int, due: map<Id, int>, handled: set<Id>)
    requires Files(d, base, due, handled)
    ensures Known(d)
  {
  }

  // Every timer not handled met its fate.
  ghost predicate Fates(d: Daemon, due: map<Id, int>, d': Daemon, due': map<Id, int>, handled: set<Id>, now: int) {
    && d'.timers.Keys == d.timers.Keys
    && (forall id | id in handled && id in d.timers :: d'.timers[id] == d.timers[id])
    && (forall id | id in d.timers && id !in handled ::
         if id in due then Fate(d.timers[id], due[id], d'.timers[id], id in due', if id in due' then due'[id] else 0, now)
         else d'.timers[id] == d.timers[id] && id !in due')
  }

  lemma FatesChain(d0: Daemon, due0: map<Id, int>, d1: Daemon, due1: map<Id, int>, n1: int, d2: Daemon,
                   due2: map<Id, int>, n2: int, handled: set<Id>)
    requires Fates(d0, due0, d1, due1, handled, n1) && Fates(d1, due1, d2, due2, handled, n2) && n1 <= n2
    ensures Fates(d0, due0, d2, due2, handled, n2)
  {
    forall id | id in d0.timers && id !in handled
      ensures if id in due0
              then Fate(d0.timers[id], due0[id], d2.timers[id], id in due2, if id in due2 then due2[id] else 0, n2)
              else d2.timers[id] == d0.timers[id] && id !in due2
    {
      if id in due0 && id in due1 {
        FateTransitive(d0.timers[id], due0[id], d1.timers[id], due1[id], n1, d2.timers[id], id in due2,
                       if id in due2 then due2[id] else 0, n2);
      }
    }
  }

  lemma FatesStay(d: Daemon, due: map<Id, int>, handled: set<Id>, now: int)
    requires Status(d.timers, due, handled)
    ensures Fates(d, due, d, due, handled, now)
  {
  }

  // ---- Filing a timer ----

  lemma InsertLists(list: seq<Item<Id>>, base: int, due: map<Id, int>, x: Item<Id>)
    requires Sorted(list) && T.Filed(list, base, due) && x.owner !in due && x.value < M
    ensures Sorted(Insert(list, x)) && T.Filed(Insert(list, x), base, due[x.owner := base + x.value])
    ensures multiset(T.Owners(Insert(list, x))) == multiset(T.Owners(list)) + multiset{x.owner}
  {
    hide T.Filed, T.Owners, Sorted, Slot, Insert;
    T.OwnersInsert(list, x);
    T.InsertFiled(list, base, due, x);
    InsertSorted(list, x);
  }

  lemma NewKey(due: map<Id, int>, id: Id, at: int)
    requires id !in due
    ensures multiset(due[id := at].Keys) == multiset(due.Keys) + multiset{id}
  {
    assert due[id := at].Keys == due.Keys + {id};
  }

  lemma OneLonger(a: seq<Id>, b: seq<Id>, a': seq<Id>, b': seq<Id>, x: Id)
    requires multiset(a') + multiset(b') == multiset(a) + multiset(b) + multiset{x}
    ensures multiset(a' + b') == multiset(a + b) + multiset{x}
  {
  }

  lemma FileLists(d: Daemon, base: int, due: map<Id, int>, id: Id, next: Tick, where: Where, at: int)
    requires Lists(d.current, d.overflow, base, due) && id !in due && where != ProcessNow
    requires at == next + if where == InCurrent then base else base + M
    ensures var r := File(d, id, next, where); Lists(r.current, r.overflow, base, due[id := at])
  {
    hide T.Filed, T.Owners, Sorted, Insert;
    var x := Item(id, next);
    NewKey(due, id, at);
    if where == InCurrent {
      InsertLists(d.current, base, due, x);
      T.StillFiled(d.overflow, base + M, due, id, at);
      OneLonger(T.Owners(d.current), T.Owners(d.overflow), T.Owners(Insert(d.current, x)), T.Owners(d.overflow), id);
    } else {
      InsertLists(d.overflow, base + M, due, x);
      T.StillFiled(d.current, base, due, id, at);
      OneLonger(T.Owners(d.current), T.Owners(d.overflow), T.Owners(d.current), T.Owners(Insert(d.overflow, x)), id);
    }
  }

  lemma FileStatus(timers: map<Id, Timer>, due: map<Id, int>, handled: set<Id>, id: Id, at: int)
    requires Status(timers, due, handled) && id in handled && id in timers && timers[id].active
    ensures Status(timers, due[id := at], handled - {id})
  {
  }

  lemma FileKeeps(d: Daemon, base: int, due: map<Id, int>, handled: set<Id>, id: Id, next: Tick, where: Where, at: int)
    requires Files(d, base, due, handled) && id in handled && id in d.timers && d.timers[id].active && where != ProcessNow
    requires at == next + if where == InCurrent then base else base + M
    ensures Files(File(d, id, next, where), base, due[id := at], handled - {id})
  {
    hide Lists;
    FileLists(d, base, due, id, next, where, at);
    FileStatus(d.timers, due, handled, id, at);
  }

  // The callback count does not matter to the lists.
  lemma CallsStatus(timers: map<Id, Timer>, due: map<Id, int>, handled: set<Id>, id: Id, t: Timer)
    requires Status(timers, due, handled) && id in timers && (id in handled || t.active == timers[id].active)
    ensures Status(timers[id := t], due, handled)
  {
  }

  // k periods have been called back since the expiry, and the next expiry after now is filed.
  ghost predicate Replayed(d: Daemon, r: Daemon, base: int, due: map<Id, int>, handled: set<Id>, id: Id, expired: int, now: int, k: int)
    requires id in d.timers
  {
    var t := d.timers[id];
    && k >= 0 && expired + k * t.period <= now < expired + (k + 1) * t.period
    && r.timers == d.timers[id := t.(calls := t.calls + k)]
    && Files(r, base, due[id := expired + (k + 1) * t.period], handled - {id})
  }

  lemma ReplayedMore(d: Daemon, r: Daemon, base: int, due: map<Id, int>, handled: set<Id>, id: Id, expired: int, now: int, k: int)
    requires id in d.timers && Replayed(Called(d, id), r, base, due, handled, id, expired + d.timers[id].period, now, k)
    ensures Replayed(d, r, base, due, handled, id, expired, now, k + 1)
  {
    hide Files;
    OnePeriodMore(expired, k, d.timers[id].period);
  }

  lemma ReplayedOnce(d: Daemon, r: Daemon, base: int, due: map<Id, int>, handled: set<Id>, id: Id, expired: int, now: int)
    requires id in d.timers && expired <= now < expired + d.timers[id].period && r.timers == d.timers
    requires Files(r, base, due[id := expired + d.timers[id].period], handled - {id})
    ensures Replayed(d, r, base, due, handled, id, expired, now, 0)
  {
    hide Files;
    assert d.timers == d.timers[id := d.timers[id].(calls := d.timers[id].calls + 0)];
  }

  lemma {:induction false} ReloadReplays(d: Daemon, base: int, due: map<Id, int>, handled: set<Id>, id: Id, expired: int, now: int)
    returns (k: int)
    requires Files(d, base, due, handled) && id in handled && id in d.timers && d.timers[id].active
    requires base % M == 0 && base <= now < base + M && 0 <= expired <= now < expired + M
    ensures Replayed(d, Reload(d, id, expired % M, now % M), base, due, handled, id, expired, now, k)
    decreases now - expired
  {
    hide Files, File, Decide, Plus, Reload, Called, Replayed;
    var t := d.timers[id];
    ReloadIs(d, id, expired % M, now % M);
    CalledOnce(d, id);
    var next := Plus(expired % M, t.period);
    var where := Decide(next, now % M, expired % M, t.period);
    var at := expired + t.period;
    DecideExact(expired, now, t.period);
    NextTick(expired, t.period);
    if where == ProcessNow {
      CalledFiles(d, base, due, handled, id);
      k := ReloadReplays(Called(d, id), base, due, handled, id, at, now);
      ReplayedMore(d, Reload(d, id, expired % M, now % M), base, due, handled, id, expired, now, k);
      k := k + 1;
    } else {
      WhereAbsolute(base, expired, now, t.period);
      FileKeeps(d, base, due, handled, id, next, where, at);
      FileTimers(d, id, next, where);
      ReplayedOnce(d, File(d, id, next, where), base, due, handled, id, expired, now);
      k := 0;
    }
  }

  // Replaying the backlog of a timer whose expiry (absolute) has passed: k callbacks and an expiry after now.
  lemma ReloadKeeps(d: Daemon, base: int, due: map<Id, int>, handled: set<Id>, id: Id, expired: int, now: int)
    requires Files(d, base, due, handled) && id in handled && id in d.timers && d.timers[id].active
    requires base % M == 0 && base <= now < base + M && 0 <= expired <= now < expired + M
    ensures var t, r := d.timers[id], Reload(d, id, expired % M, now % M);
            var k := r.timers[id].calls - t.calls;
            && k >= 0 && expired + k * t.period <= now < expired + (k + 1) * t.period
            && r.timers == d.timers[id := t.(calls := t.calls + k)]
            && Files(r, base, due[id := expired + (k + 1) * t.period], handled - {id})
  {
    hide Files, Reload;
    var k := ReloadReplays(d, base, due, handled, id, expired, now);
    assert k == Reload(d, id, expired % M, now % M).timers[id].calls - d.timers[id].calls;
  }

  lemma ReloadIs(d: Daemon, id: Id, expired: Tick, now: Tick)
    requires id in d.timers
    ensures var p := d.timers[id].period;
            var where := Decide(Plus(expired, p), now, expired, p);
            Reload(d, id, expired, now) == if where == ProcessNow then Reload(Called(d, id), id, Plus(expired, p), now)
                                           else File(d, id, Plus(expired, p), where)
  {
    hide Decide, File, Plus, Called;
  }

  lemma CalledOnce(d: Daemon, id: Id)
    requires id in d.timers
    ensures Called(d, id).timers == d.timers[id := d.timers[id].(calls := d.timers[id].calls + 1)]
  {
  }

  lemma FileTimers(d: Daemon, id: Id, next: Tick, where: Where)
    ensures File(d, id, next, where).timers == d.timers && File(d, id, next, where).last == d.last
  {
  }

  lemma NextTick(expired: nat, period: Period)
    ensures Plus(expired % M, period) == (expired + period) % M
  {
  }

  // The list a timer is filed in gives its absolute expiry back.
  lemma WhereAbsolute(base: int, command: nat, now: nat, period: Period)
    requires base % M == 0 && base <= now < base + M && command <= now < command + M
    ensures var next := Plus(command % M, period);
            var where := Decide(next, now % M, command % M, period);
            where != ProcessNow ==> command + period == next + (if where == InCurrent then base else base + M)
  {
    hide Decide;
    DecideExact(command, now, period);
    BaseIs(base, now);
    Euclid(command + period, M);
    NextTick(command, period);
  }

  lemma OnePeriodMore(expired: int, k: int, p: int)
    ensures (expired + p) + k * p == expired + (k + 1) * p && (expired + p) + (k + 1) * p == expired + (k + 2) * p
  {
  }

  lemma BaseIs(base: int, now: nat)
    requires base % M == 0 && base <= now < base + M
    ensures base == Epoch(now) * M
  {
  }

  lemma CalledFiles(d: Daemon, base: int, due: map<Id, int>, handled: set<Id>, id: Id)
    requires Files(d, base, due, handled) && id in d.timers
    ensures Files(Called(d, id), base, due, handled)
  {
    CallsStatus(d.timers, due, handled, id, Called(d, id).timers[id]);
  }

  // ---- Expired timers ----

  lemma PopLists(current: seq<Item<Id>>, overflow: seq<Item<Id>>, base: int, due: map<Id, int>)
    requires Lists(current, overflow, base, due) && current != []
    ensures var id := current[0].owner;
            && id in due && due[id] == base + current[0].value && current[0].value < M
            && Lists(current[1..], overflow, base, due - {id})
  {
    var id, rest := current[0].owner, current[1..];
    T.SplitOwners(current, 1);
    assert T.Owners(current[..1]) == [id];
    assert multiset(T.Owners(current) + T.Owners(overflow)) == multiset{id} + multiset(T.Owners(rest) + T.Owners(overflow));
    assert (due - {id}).Keys == due.Keys - {id};
    OnlyOnce(rest, overflow, due, id);
    StillFiledWithout(rest, base, due, id);
    StillFiledWithout(overflow, base + M, due, id);
  }

  lemma OnlyOnce(rest: seq<Item<Id>>, overflow: seq<Item<Id>>, due: map<Id, int>, id: Id)
    requires multiset{id} + multiset(T.Owners(rest) + T.Owners(overflow)) == multiset(due.Keys)
    ensures multiset(T.Owners(rest) + T.Owners(overflow)) == multiset(due.Keys - {id})
    ensures id !in T.Owners(rest) && id !in T.Owners(overflow)
  {
    hide T.Owners;
    var m := multiset(T.Owners(rest) + T.Owners(overflow));
    assert (multiset{id} + m)[id] == multiset(due.Keys)[id] <= 1;
    forall x: Id
      ensures m[x] == multiset(due.Keys - {id})[x]
    {
      assert (multiset{id} + m)[x] == multiset(due.Keys)[x];
    }
    assert m[id] == 0;
  }

  lemma StillFiledWithout(list: seq<Item<Id>>, base: int, due: map<Id, int>, id: Id)
    requires T.Filed(list, base, due) && id !in T.Owners(list)
    ensures T.Filed(list, base, due - {id})
  {
    forall i | 0 <= i < |list|
      ensures list[i].owner != id
    {
      assert T.Owners(list)[i] != id;
    }
  }

  lemma PopStatus(timers: map<Id, Timer>, due: map<Id, int>, handled: set<Id>, id: Id)
    requires Status(timers, due, handled) && id in due
    ensures id !in handled && id in timers && timers[id].active
    ensures Status(timers, due - {id}, handled + {id})
    ensures handled + {id} - {id} == handled
  {
  }

  lemma StopStatus(timers: map<Id, Timer>, due: map<Id, int>, handled: set<Id>, id: Id, t: Timer)
    requires Status(timers, due, handled) && id in handled && id in timers && !t.active
    ensures Status(timers[id := t], due, handled - {id})
  {
  }

  lemma RemainderOf(base: int, v: nat)
    requires base >= 0 && base % M == 0 && v < M
    ensures (base + v) % M == v
  {
  }

  lemma ExpireKeeps(d: Daemon, base: int, due: map<Id, int>, handled: set<Id>, now: int) returns (due': map<Id, int>)
    requires Files(d, base, due, handled) && d.current != [] && Known(d)
    requires 0 <= base <= now < base + M && base % M == 0 && base + d.current[0].value <= now
    ensures Files(Expire(d, now % M), base, due', handled)
    ensures Fates(d, due, Expire(d, now % M), due', handled, now)
  {
    hide Lists, Status, Reload;
    var id := d.current[0].owner;
    var d1 := d.(current := d.current[1..]);
    var t, e := d.timers[id], base + d.current[0].value;
    PopLists(d.current, d.overflow, base, due);
    PopStatus(d.timers, due, handled, id);
    if t.autoReload {
      RemainderOf(base, d.current[0].value);
      ReloadKeeps(d1, base, due - {id}, handled + {id}, id, e, now);
      var r := Reload(d1, id, e % M, now % M);
      var k := r.timers[id].calls - t.calls;
      due' := (due - {id})[id := e + (k + 1) * t.period];
      CalledFiles(r, base, due', handled, id);
      Distribute(k, 1, t.period);
    } else {
      due' := due - {id};
      StopStatus(d.timers, due', handled + {id}, id, t.(active := false, calls := t.calls + 1));
    }
    OneFate(d, due, Expire(d, now % M), due', handled, id, now);
  }

  // Only the expired timer changes.
  lemma OneFate(d: Daemon, due: map<Id, int>, d': Daemon, due': map<Id, int>, handled: set<Id>, id: Id, now: int)
    requires Status(d.timers, due, handled) && id in due && id !in handled && id in d.timers && id in d'.timers
    requires d'.timers == d.timers[id := d'.timers[id]]
    requires forall j | j != id :: (j in due' <==> j in due) && (j in due ==> due'[j] == due[j])
    requires Fate(d.timers[id], due[id], d'.timers[id], id in due', if id in due' then due'[id] else 0, now)
    ensures Fates(d, due, d', due', handled, now)
  {
  }

  // ---- The lists switch ----

  lemma SwapKeeps(d: Daemon, base: int, due: map<Id, int>, handled: set<Id>)
    requires Files(d, base, due, handled) && d.current == []
    ensures var d' := d.(current := d.overflow, overflow := []);
            Files(d', base + M, due, handled) && Fates(d, due, d', due, handled, base + M - 1)
  {
    SwapLists(d.overflow, base, due);
  }

  lemma {:induction false} SwitchKeeps(d: Daemon, base: int, due: map<Id, int>, handled: set<Id>) returns (due': map<Id, int>)
    requires Files(d, base, due, handled) && Known(d) && 0 <= base && base % M == 0
    ensures Files(SwitchLists(d), base + M, due', handled)
    ensures Fates(d, due, SwitchLists(d), due', handled, base + M - 1)
    decreases |d.current|
  {
    hide Expire, Files, Fates, Known;
    if d.current == [] {
      due' := due;
      SwapKeeps(d, base, due, handled);
    } else {
      HeadBelow(d, base, due, handled);
      LastTick(base);
      var due1 := ExpireKeeps(d, base, due, handled, base + M - 1);
      var d1 := Expire(d, MAX_TIME);
      due' := SwitchKeeps(d1, base, due1, handled);
      FatesChain(d, due, d1, due1, base + M - 1, SwitchLists(d1), due', base + M - 1, handled);
    }
  }

  lemma LastTick(base: int)
    requires base >= 0 && base % M == 0
    ensures (base + M - 1) % M == MAX_TIME
  {
  }

  lemma HeadBelow(d: Daemon, base: int, due: map<Id, int>, handled: set<Id>)
    requires Files(d, base, due, handled) && d.current != []
    ensures d.current[0].value < M
  {
  }

  lemma SwapLists(overflow: seq<Item<Id>>, base: int, due: map<Id, int>)
    requires Lists([], overflow, base, due)
    ensures Lists(overflow, [], base + M, due)
  {
    assert T.Owners([]) + T.Owners(overflow) == T.Owners(overflow) + T.Owners([]);
  }

  // ---- The absolute time of the last sample ----

  function Base(at: nat): nat {
    at - at % M
  }

  lemma SampleKeeps(d: Daemon, last: nat, due: map<Id, int>, handled: set<Id>, now: nat) returns (due': map<Id, int>)
    requires Files(d, Base(last), due, handled) && Known(d) && d.last == last % M && last <= now < last + M
    ensures Files(Sample(d, now % M), Base(now), due', handled)
    ensures Fates(d, due, Sample(d, now % M), due', handled, now)
  {
    hide Lists, Status, SwitchLists;
    BaseMoves(last, now);
    if now % M < d.last {
      due' := SwitchKeeps(d, Base(last), due, handled);
      FatesLater(d, due, SwitchLists(d), due', handled, Base(last) + M - 1, now);
    } else {
      due' := due;
      FatesStay(d, due, handled, now);
    }
  }

  lemma BaseMoves(last: nat, now: nat)
    requires last <= now < last + M
    ensures Base(last) % M == 0 && Base(now) % M == 0 && Base(now) <= now < Base(now) + M
    ensures Base(now) == if now % M < last % M then Base(last) + M else Base(last)
  {
  }

  lemma FatesLater(d: Daemon, due: map<Id, int>, d': Daemon, due': map<Id, int>, handled: set<Id>, n: int, n': int)
    requires Fates(d, due, d', due', handled, n) && n <= n'
    ensures Fates(d, due, d', due', handled, n')
  {
  }

  // One round of the daemon loop.
  lemma ProcessKeeps(d: Daemon, last: nat, due: map<Id, int>, now: nat) returns (due': map<Id, int>)
    requires Files(d, Base(last), due, {}) && Known(d) && d.last == last % M && last <= now < last + M
    ensures Files(ProcessTimer(d, now % M), Base(now), due', {}) && Known(ProcessTimer(d, now % M))
    ensures Fates(d, due, ProcessTimer(d, now % M), due', {}, now)
  {
    hide Files, Expire, SwitchLists;
    due' := SampleKeeps(d, last, due, {}, now);
    var s := Sample(d, now % M);
    if now % M >= d.last && d.current != [] && d.current[0].value <= now % M {
      BaseMoves(last, now);
      var due1 := due';
      due' := ExpireKeeps(s, Base(now), due1, {}, now);
      FatesChain(d, due, s, due1, now, Expire(s, now % M), due', now, {});
    }
  }

  // ---- Commands ----

  lemma RemoveLists(d: Daemon, base: int, due: map<Id, int>, id: Id)
    requires Lists(d.current, d.overflow, base, due)
    ensures var r := Remove(d, id); Lists(r.current, r.overflow, base, due - {id})
  {
    hide T.Filed, Sorted, T.Owners, T.WithoutOwner;
    T.RemoveSleepers(T.Time(0, d.current, d.overflow, 0, 0), due, id);
    T.WithoutSub(d.current, id, 0);
    T.WithoutSub(d.overflow, id, 0);
    T.WithoutFiled(d.current, id, base, due);
    T.WithoutFiled(d.overflow, id, base + M, due);
  }

  lemma RemoveKeeps(d: Daemon, base: int, due: map<Id, int>, id: Id)
    requires Files(d, base, due, {}) && id in d.timers
    ensures Files(Remove(d, id), base, due - {id}, {id}) && Known(Remove(d, id))
  {
    hide Lists;
    RemoveLists(d, base, due, id);
    FilesKnown(Remove(d, id), base, due - {id}, {id});
  }

  // All timers but one met their fate.
  ghost predicate Others(d: Daemon, due: map<Id, int>, d': Daemon, due': map<Id, int>, id: Id, now: int) {
    forall j | j in d.timers && j != id ::
      && j in d'.timers
      && if j in due then Fate(d.timers[j], due[j], d'.timers[j], j in due', if j in due' then due'[j] else 0, now)
         else d'.timers[j] == d.timers[j] && j !in due'
  }

  lemma OthersOf(d: Daemon, due: map<Id, int>, s: Daemon, due1: map<Id, int>, d': Daemon, due': map<Id, int>, id: Id, now: int)
    requires Fates(Remove(d, id), due - {id}, s, due1, {id}, now)
    requires forall j | j in s.timers && j != id :: j in d'.timers && d'.timers[j] == s.timers[j]
    requires forall j | j != id :: (j in due' <==> j in due1) && (j in due1 ==> due'[j] == due1[j])
    ensures Others(d, due, d', due', id, now)
  {
  }

  lemma StartTimerKeeps(s: Daemon, due: map<Id, int>, id: Id, command: nat, now: nat) returns (due': map<Id, int>)
    requires Files(s, Base(now), due, {id}) && id in s.timers && s.timers[id].active && command <= now < command + M
    ensures var r, t := StartTimer(s, id, command % M, now % M), s.timers[id];
            && Files(r, Base(now), due', {}) && r.last == s.last && r.timers.Keys == s.timers.Keys
            && r.timers == s.timers[id := r.timers[id]]
            && (forall j | j != id :: (j in due' <==> j in due) && (j in due ==> due'[j] == due[j]))
            && Fate(t, command + t.period, r.timers[id], id in due', if id in due' then due'[id] else 0, now)
  {
    hide Lists, Status, Decide, Reload, File;
    var t := s.timers[id];
    var at := command + t.period;
    var where := Decide(Plus(command % M, t.period), now % M, command % M, t.period);
    BaseMoves(now, now);
    DecideExact(command, now, t.period);
    NextTick(command, t.period);
    assert {id} - {id} == {};
    if where != ProcessNow {
      WhereAbsolute(Base(now), command, now, t.period);
      FileKeeps(s, Base(now), due, {id}, id, Plus(command % M, t.period), where, at);
      FileTimers(s, id, Plus(command % M, t.period), where);
      due' := due[id := at];
    } else if t.autoReload {
      StartInPast(s, due, id, at, now);
      var r := Reload(s, id, at % M, now % M);
      var k := r.timers[id].calls - t.calls;
      due' := due[id := at + (k + 1) * t.period];
      CalledFiles(r, Base(now), due', {}, id);
      Distribute(k, 1, t.period);
    } else {
      due' := due;
      OneShotEnds(s, Base(now), due, id);
    }
  }

  lemma OneShotEnds(s: Daemon, base: int, due: map<Id, int>, id: Id)
    requires Files(s, base, due, {id}) && id in s.timers
    ensures Files(Called(SetActive(s, id, false), id), base, due, {}) && id !in due
    ensures Called(SetActive(s, id, false), id).timers
         == s.timers[id := s.timers[id].(active := false, calls := s.timers[id].calls + 1)]
  {
    hide Lists;
  }

  lemma HandledNotDue(d: Daemon, base: int, due: map<Id, int>, id: Id)
    requires Files(d, base, due, {id})
    ensures id !in due && Status(d.timers, due, {id}) && Lists(d.current, d.overflow, base, due)
  {
  }

  lemma StartInPast(s: Daemon, due: map<Id, int>, id: Id, at: nat, now: nat)
    requires Files(s, Base(now), due, {id}) && id in s.timers && s.timers[id].active && at <= now < at + M
    ensures var t, r := s.timers[id], Reload(s, id, at % M, now % M);
            var k := r.timers[id].calls - t.calls;
            && k >= 0 && at + k * t.period <= now
            && r.timers == s.timers[id := t.(calls := t.calls + k)]
            && Files(r, Base(now), due[id := at + (k + 1) * t.period], {})
  {
    hide Files, Reload;
    BaseMoves(now, now);
    assert {id} - {id} == {};
    ReloadKeeps(s, Base(now), due, {id}, id, at, now);
  }

  lemma SampledKeeps(d: Daemon, last: nat, due: map<Id, int>, id: Id, now: nat) returns (due1: map<Id, int>)
    requires Files(d, Base(last), due, {}) && Known(d) && d.last == last % M && last <= now < last + M && id in d.timers
    ensures Known(Remove(d, id))
    ensures var s := Sample(Remove(d, id), now % M);
            && Files(s, Base(now), due1, {id}) && Known(s) && s.timers.Keys == d.timers.Keys
            && s.timers[id] == d.timers[id] && id !in due1
            && Fates(Remove(d, id), due - {id}, s, due1, {id}, now)
  {
    hide Lists, Status, Sample;
    RemoveKeeps(d, Base(last), due, id);
    due1 := SampleKeeps(Remove(d, id), last, due - {id}, {id}, now);
    HandledNotDue(Sample(Remove(d, id), now % M), Base(now), due1, id);
  }

  // A command issued less than a wrap before it is processed. Start makes the timer due one period after the command,
  // with whatever of that has already passed replayed at once; a new period counts from now.
  lemma StartKeeps(d: Daemon, last: nat, due: map<Id, int>, id: Id, command: nat, now: nat) returns (due': map<Id, int>)
    requires Files(d, Base(last), due, {}) && Known(d) && d.last == last % M && last <= now < last + M && id in d.timers
    requires command <= now < command + M
    ensures var r, t := Perform(d, Start(id, command % M), now % M), d.timers[id];
            && Files(r, Base(now), due', {}) && r.last == now % M && id in r.timers
            && Others(d, due, r, due', id, now)
            && Fate(t, command + t.period, r.timers[id], id in due', if id in due' then due'[id] else 0, now)
  {
    hide Files, Fates, Sample, StartTimer;
    var due1 := SampledKeeps(d, last, due, id, now);
    var s := Sample(Remove(d, id), now % M);
    var s1 := SetActive(s, id, true);
    ActiveKeeps(s, Base(now), due1, id, s.timers[id].(active := true));
    due' := StartTimerKeeps(s1, due1, id, command, now);
    OthersOf(d, due, s, due1, StartTimer(s1, id, command % M, now % M), due', id, now);
  }

  lemma ActiveKeeps(d: Daemon, base: int, due: map<Id, int>, id: Id, t: Timer)
    requires Files(d, base, due, {id}) && id in d.timers
    ensures Files(d.(timers := d.timers[id := t]), base, due, {id})
    ensures !t.active ==> Files(d.(timers := d.timers[id := t]), base, due, {})
    ensures Files(d.(timers := d.timers - {id}), base, due, {})
  {
    hide Lists;
  }

  lemma StopKeeps(d: Daemon, last: nat, due: map<Id, int>, c: Command, now: nat) returns (due': map<Id, int>)
    requires Files(d, Base(last), due, {}) && Known(d) && d.last == last % M && last <= now < last + M && c.id in d.timers
    requires c.Stop? || c.Delete?
    ensures var r := Perform(d, c, now % M);
            && Files(r, Base(now), due', {}) && r.last == now % M && c.id !in due'
            && (if c.Delete? then c.id !in r.timers
                else c.id in r.timers && r.timers[c.id] == d.timers[c.id].(active := false))
            && Others(d, due, r, due', c.id, now)
  {
    hide Files, Fates, Sample;
    due' := SampledKeeps(d, last, due, c.id, now);
    var s := Sample(Remove(d, c.id), now % M);
    ActiveKeeps(s, Base(now), due', c.id, s.timers[c.id].(active := false));
    OthersOf(d, due, s, due', Perform(d, c, now % M), due', c.id, now);
  }

  lemma ChangeKeeps(d: Daemon, last: nat, due: map<Id, int>, id: Id, period: Period, now: nat) returns (due': map<Id, int>)
    requires Files(d, Base(last), due, {}) && Known(d) && d.last == last % M && last <= now < last + M && id in d.timers
    ensures var r := Perform(d, ChangePeriod(id, period), now % M);
            && Files(r, Base(now), due', {}) && r.last == now % M && id in due' && due'[id] == now + period
            && r.timers[id] == d.timers[id].(active := true, period := period)
            && Others(d, due, r, due', id, now)
  {
    hide Files, Fates, Sample, Decide, File;
    var due1 := SampledKeeps(d, last, due, id, now);
    var s := Sample(Remove(d, id), now % M);
    var t := s.timers[id].(active := true, period := period);
    var s1 := s.(timers := s.timers[id := t]);
    ActiveKeeps(s, Base(now), due1, id, t);
    BaseMoves(now, now);
    DecideExact(now, now, period);
    WhereAbsolute(Base(now), now, now, period);
    var next := Plus(now % M, period);
    FileKeeps(s1, Base(now), due1, {id}, id, next, Decide(next, now % M, now % M, period), now + period);
    FileTimers(s1, id, next, Decide(next, now % M, now % M, period));
    assert {id} - {id} == {};
    due' := due1[id := now + period];
    OthersOf(d, due, s, due1, Perform(d, ChangePeriod(id, period), now % M), due', id, now);
  }

  // ---- Runs of the daemon ----

  // Something the daemon does, with the absolute time it samples; a start command carries the time it was issued.
  datatype Event = Round(at: nat) | Command(c: Command, issued: nat, at: nat)

  ghost predicate Allowed(d: Daemon, last: nat, e: Event) {
    && Known(d) && last <= e.at < last + M
    && (e.Command? ==> e.c.id in d.timers && (e.c.Start? ==> e.issued <= e.at < e.issued + M && e.c.time == e.issued % M))
  }

  ghost function Next(d: Daemon, last: nat, e: Event): Daemon
    requires Allowed(d, last, e)
  {
    match e
    case Round(at) => ProcessTimer(d, at % M)
    case Command(c, _, at) => Perform(d, c, at % M)
  }

  // Less than a wrap lies between now and any expiry.
  ghost predicate Near(due: map<Id, int>, now: nat) {
    forall id | id in due :: due[id] < now + M
  }

  ghost predicate Filed(d: Daemon, last: nat, due: map<Id, int>) {
    Files(d, Base(last), due, {}) && d.last == last % M && Near(due, last)
  }

  lemma FateNear(t: Timer, due: int, t': Timer, due': int, now: int)
    requires Fate(t, due, t', true, due', now) && due < now + M
    ensures due' < now + M
  {
    var k := t'.calls - t.calls;
    assert k == 0 ==> k * t.period == 0;
  }

  lemma FilesTimers(d: Daemon, base: int, due: map<Id, int>)
    requires Files(d, base, due, {})
    ensures forall id | id in due :: id in d.timers
  {
  }

  lemma NearFates(d: Daemon, last: nat, due: map<Id, int>, d': Daemon, due': map<Id, int>, now: nat)
    requires Near(due, last) && last <= now && Fates(d, due, d', due', {}, now) && Files(d', Base(now), due', {})
    ensures Near(due', now)
  {
    hide Fate, Files;
    FilesTimers(d', Base(now), due');
    forall id | id in due'
      ensures due'[id] < now + M
    {
      FateNear(d.timers[id], due[id], d'.timers[id], due'[id], now);
    }
  }

  lemma NearOthers(d: Daemon, last: nat, due: map<Id, int>, d': Daemon, due': map<Id, int>, id: Id, now: nat)
    requires Near(due, last) && last <= now && Others(d, due, d', due', id, now) && Files(d', Base(now), due', {})
    requires d'.timers.Keys <= d.timers.Keys && (id in due' ==> due'[id] < now + M)
    ensures Near(due', now)
  {
    hide Fate, Files;
    FilesTimers(d', Base(now), due');
    forall j | j in due' && j != id
      ensures due'[j] < now + M
    {
      FateNear(d.timers[j], due[j], d'.timers[j], due'[j], now);
    }
  }

  lemma PerformKeys(d: Daemon, c: Command, now: Tick)
    requires Known(d) && c.id in d.timers
    ensures Perform(d, c, now).timers.Keys <= d.timers.Keys
  {
    RemoveKnown(d, c.id);
  }

  lemma StartNear(d: Daemon, last: nat, due: map<Id, int>, id: Id, command: nat, now: nat, due': map<Id, int>)
    requires Known(d) && id in d.timers && Near(due, last) && last <= now && command <= now
    requires var r, t := Perform(d, Start(id, command % M), now % M), d.timers[id];
             && Files(r, Base(now), due', {}) && id in r.timers && Others(d, due, r, due', id, now)
             && Fate(t, command + t.period, r.timers[id], id in due', if id in due' then due'[id] else 0, now)
    ensures Near(due', now)
  {
    hide Files, Perform, Fate, Near, Others;
    var r, t := Perform(d, Start(id, command % M), now % M), d.timers[id];
    PerformKeys(d, Start(id, command % M), now % M);
    if id in due' {
      FateNear(t, command + t.period, r.timers[id], due'[id], now);
    }
    NearOthers(d, last, due, r, due', id, now);
  }

  // Every event keeps the lists filed by epoch and the active bits in step with them; no timer but the commanded one
  // loses or gains an expiry.
  lemma StepKeeps(d: Daemon, last: nat, due: map<Id, int>, e: Event) returns (due': map<Id, int>)
    requires Filed(d, last, due) && Allowed(d, last, e)
    ensures Filed(Next(d, last, e), e.at, due')
    ensures forall j | j in d.timers && (e.Round? || j != e.c.id) ::
              && j in Next(d, last, e).timers
              && if j in due then Fate(d.timers[j], due[j], Next(d, last, e).timers[j], j in due',
                                       if j in due' then due'[j] else 0, e.at)
                 else Next(d, last, e).timers[j] == d.timers[j] && j !in due'
  {
    hide Files, Perform, ProcessTimer, Fate;
    match e
    case Round(at) =>
      due' := ProcessKeeps(d, last, due, at);
      NearFates(d, last, due, Next(d, last, e), due', at);
    case Command(Start(id, time), issued, at) =>
      due' := StartKeeps(d, last, due, id, issued, at);
      StartNear(d, last, due, id, issued, at, due');
    case Command(ChangePeriod(id, period), _, at) =>
      PerformKeys(d, e.c, at % M);
      due' := ChangeKeeps(d, last, due, id, period, at);
      NearOthers(d, last, due, Next(d, last, e), due', id, at);
    case Command(Stop(id), _, at) =>
      PerformKeys(d, e.c, at % M);
      due' := StopKeeps(d, last, due, e.c, at);
      NearOthers(d, last, due, Next(d, last, e), due', id, at);
    case Command(Delete(id), _, at) =>
      PerformKeys(d, e.c, at % M);
      due' := StopKeeps(d, last, due, e.c, at);
      NearOthers(d, last, due, Next(d, last, e), due', id, at);
  }

  ghost predicate IsRun(d: Daemon, last: nat, events: seq<Event>, id: Id)
    decreases |events|
  {
    events != [] ==>
      && Allowed(d, last, events[0]) && (events[0].Command? ==> events[0].c.id != id)
      && IsRun(Next(d, last, events[0]), events[0].at, events[1..], id)
  }

  ghost function Run(d: Daemon, last: nat, events: seq<Event>, id: Id): (Daemon, nat)
    requires IsRun(d, last, events, id)
    decreases |events|
  {
    if events == [] then (d, last) else Run(Next(d, last, events[0]), events[0].at, events[1..], id)
  }

  lemma FateStep(t0: Timer, e0: int, d: Daemon, due: map<Id, int>, last: nat, d': Daemon, due': map<Id, int>, id: Id, now: nat)
    requires id in d.timers && id in d'.timers && last <= now
    requires Fate(t0, e0, d.timers[id], id in due, if id in due then due[id] else 0, last)
    requires if id in due then Fate(d.timers[id], due[id], d'.timers[id], id in due', if id in due' then due'[id] else 0, now)
             else d'.timers[id] == d.timers[id] && id !in due'
    ensures Fate(t0, e0, d'.timers[id], id in due', if id in due' then due'[id] else 0, now)
  {
    if id in due {
      FateTransitive(t0, e0, d.timers[id], due[id], last, d'.timers[id], id in due', if id in due' then due'[id] else 0, now);
    }
  }

  lemma {:induction false} RunFate(d: Daemon, last: nat, due: map<Id, int>, events: seq<Event>, id: Id, t0: Timer, e0: int)
    returns (due': map<Id, int>)
    requires Filed(d, last, due) && id in d.timers && IsRun(d, last, events, id)
    requires Fate(t0, e0, d.timers[id], id in due, if id in due then due[id] else 0, last)
    ensures var (d', now) := Run(d, last, events, id);
            && Filed(d', now, due') && id in d'.timers
            && Fate(t0, e0, d'.timers[id], id in due', if id in due' then due'[id] else 0, now)
    decreases |events|
  {
    hide Filed, Fate, Next, Allowed;
    if events == [] {
      due' := due;
    } else {
      var e := events[0];
      AllowedTime(d, last, e);
      var due1 := StepKeeps(d, last, due, e);
      var d1 := Next(d, last, e);
      FateStep(t0, e0, d, due, last, d1, due1, id, e.at);
      due' := RunFate(d1, e.at, due1, events[1..], id, t0, e0);
    }
  }

  lemma AllowedTime(d: Daemon, last: nat, e: Event)
    requires Allowed(d, last, e)
    ensures last <= e.at
  {
  }

  // No timer whose time has come is left in the current list.
  predicate CaughtUp(d: Daemon) {
    d.current == [] || d.current[0].value > d.last
  }

  lemma CaughtUpAhead(d: Daemon, now: nat, due: map<Id, int>, id: Id)
    requires Filed(d, now, due) && CaughtUp(d) && id in due
    ensures due[id] > now
  {
    BaseMoves(now, now);
    assert id in multiset(T.Owners(d.current) + T.Owners(d.overflow));
    if id in T.Owners(d.current) {
      var i := T.OwnerAt(d.current, id);
      assert d.current[0].value <= d.current[i].value;
    } else {
      var i := T.OwnerAt(d.overflow, id);
    }
  }

  lemma Periods(elapsed: int, period: int, k: int)
    requires period > 0 && k >= 0 && k * period <= elapsed < (k + 1) * period
    ensures elapsed / period == k
  {
    Distribute(k, 1, period);
    assert k * period >= 0;
    Unique(elapsed, period, k, elapsed - k * period);
  }

  // A timer is started by a command issued at absolute time `issued` and then left alone. Whatever else the daemon does,
  // once it has caught up to absolute time `now` an auto-reload timer has been called back exactly
  // floor((now - issued) / period) times and is filed, a one-shot timer exactly once if and only if its period has
  // passed, and is filed if and only if it has not.
  lemma NoExpiryLostOrInvented(d: Daemon, last: nat, due: map<Id, int>, id: Id, issued: nat, at: nat, events: seq<Event>)
    requires Filed(d, last, due) && id in d.timers
    requires var e := Command(Start(id, issued % M), issued, at);
             Allowed(d, last, e) && IsRun(Next(d, last, e), at, events, id)
    ensures var e := Command(Start(id, issued % M), issued, at);
            var (d', now) := Run(Next(d, last, e), at, events, id);
            var t := d.timers[id];
            && id in d'.timers && now >= issued
            && var calls := d'.timers[id].calls - t.calls;
               && calls * t.period <= now - issued
               && (CaughtUp(d') ==>
                    if t.autoReload then d'.timers[id].active && calls == (now - issued) / t.period
                    else calls == (if issued + t.period <= now then 1 else 0) && (d'.timers[id].active <==> issued + t.period > now))
  {
    hide Filed, Files, Next, Run, IsRun;
    var e := Command(Start(id, issued % M), issued, at);
    var t, d1 := d.timers[id], Next(d, last, e);
    var due1 := Started(d, last, due, id, issued, at);
    var due' := RunFate(d1, at, due1, events, id, t, issued + t.period);
    var (d', now) := Run(d1, at, events, id);
    RunLater(d1, at, events, id);
    ActiveListed(d', now, due', id);
    var calls := d'.timers[id].calls - t.calls;
    Distribute(calls, 1, t.period);
    if CaughtUp(d') && id in due' {
      CaughtUpAhead(d', now, due', id);
      if t.autoReload {
        Periods(now - issued, t.period, calls);
      }
    }
  }

  lemma Started(d: Daemon, last: nat, due: map<Id, int>, id: Id, issued: nat, at: nat) returns (due1: map<Id, int>)
    requires Filed(d, last, due) && id in d.timers
    requires Allowed(d, last, Command(Start(id, issued % M), issued, at))
    ensures var t, d1 := d.timers[id], Next(d, last, Command(Start(id, issued % M), issued, at));
            && Filed(d1, at, due1) && id in d1.timers && issued <= at
            && Fate(t, issued + t.period, d1.timers[id], id in due1, if id in due1 then due1[id] else 0, at)
  {
    hide Files, Perform, Fate, Near;
    due1 := StartKeeps(d, last, due, id, issued, at);
    StartNear(d, last, due, id, issued, at, due1);
  }

  lemma {:induction false} RunLater(d: Daemon, last: nat, events: seq<Event>, id: Id)
    requires IsRun(d, last, events, id)
    ensures Run(d, last, events, id).1 >= last
    decreases |events|
  {
    hide Next;
    if events != [] {
      RunLater(Next(d, last, events[0]), events[0].at, events[1..], id);
    }
  }

  lemma ActiveListed(d: Daemon, now: nat, due: map<Id, int>, id: Id)
    requires Filed(d, now, due) && id in d.timers
    ensures d.timers[id].active <==> id in due
  {
  }

  // Between commands a timer is in a list exactly when its active bit is set.
  lemma ListedIffActive(d: Daemon, now: nat, due: map<Id, int>, id: Id)
    requires Filed(d, now, due) && id in d.timers
    ensures d.timers[id].active <==> id in T.Owners(d.current) + T.Owners(d.overflow)
  {
    assert id in multiset(T.Owners(d.current) + T.Owners(d.overflow)) <==> id in multiset(due.Keys);
  }

  // A freshly started daemon.
  lemma Initially(timers: map<Id, Timer>, now: nat)
    requires forall id | id in timers :: !timers[id].active
    ensures Filed(Daemon([], [], timers, now % M), now, map[])
  {
    assert T.Owners([]) + T.Owners([]) == [];
  }

  // ---- Waiting ----

  // When the daemon blocks with any timer active, it does so for at least a tick, and no timer falls due before it wakes.
  lemma NeverOversleeps(d: Daemon, last: nat, due: map<Id, int>, now: nat)
    requires Filed(d, last, due) && last <= now < last + M && Blocks(d, now % M)
    requires d.current != [] || d.overflow != []
    ensures var ticks := TicksToWait(d, now % M);
            && ticks > 0 && (forall id | id in due :: due[id] >= now + ticks)
            && if d.current != [] then exists id :: id in due && due[id] == now + ticks else (now + ticks) % M == 0
  {
    BaseMoves(last, now);
    var base := Base(now);
    if d.current == [] {
      assert d.overflow[0].owner in due && due[d.overflow[0].owner] == base + M + d.overflow[0].value;
    } else {
      assert d.current[0].owner in due && due[d.current[0].owner] == base + d.current[0].value;
    }
    WaitEnds(d, base, now);
    forall id | id in due
      ensures due[id] >= now + TicksToWait(d, now % M)
    {
      assert id in multiset(T.Owners(d.current) + T.Owners(d.overflow));
      if id in T.Owners(d.current) {
        var i := T.OwnerAt(d.current, id);
        assert d.current[0].value <= d.current[i].value;
      } else {
        var i := T.OwnerAt(d.overflow, id);
      }
    }
  }

  // The daemon blocks exactly when the tick count has not wrapped since it last looked and no timer's time has come; it
  // blocks for ever exactly when no timer is active.
  lemma BlocksWhenNothingIsDue(d: Daemon, last: nat, due: map<Id, int>, now: nat)
    requires Filed(d, last, due) && last <= now < last + M
    ensures Blocks(d, now % M) <==> now / M == last / M && forall id | id in due :: due[id] > now
    ensures d.current == [] && d.overflow == [] <==> due == map[]
  {
    BaseMoves(last, now);
    SameEpoch(last, now);
    forall id | id in due
      ensures id in T.Owners(d.current) || id in T.Owners(d.overflow)
    {
      assert id in multiset(T.Owners(d.current) + T.Owners(d.overflow));
    }
    if now % M >= d.last {
      if d.current != [] {
        assert d.current[0].owner in due && due[d.current[0].owner] == Base(now) + d.current[0].value;
      }
      forall id | id in due && (d.current == [] || d.current[0].value > now % M)
        ensures due[id] > now
      {
        if id in T.Owners(d.current) {
          var i := T.OwnerAt(d.current, id);
          assert d.current[0].value <= d.current[i].value;
        } else {
          var i := T.OwnerAt(d.overflow, id);
        }
      }
    }
    if d.overflow != [] {
      assert d.overflow[0].owner in due;
    }
  }

  lemma SameEpoch(last: nat, now: nat)
    requires last <= now < last + M
    ensures now / M == last / M <==> now % M >= last % M
  {
  }

  lemma WaitEnds(d: Daemon, base: int, now: nat)
    requires base % M == 0 && base <= now < base + M && Blocks(d, now % M)
    requires d.current != [] ==> d.current[0].value < M
    requires d.current == [] ==> now > base
    ensures TicksToWait(d, now % M) > 0
    ensures now + TicksToWait(d, now % M) == base + if d.current == [] then M else d.current[0].value
  {
    assert now % M == now - base;
  }

  // ---- Catching up ----

  lemma {:induction false} SlotInsert(list: seq<Item<Id>>, x: Item<Id>, now: nat)
    requires Sorted(list) && x.value > now
    ensures Slot(Insert(list, x), now) == Slot(list, now)
  {
    var r, k := Insert(list, x), Slot(list, now);
    var i := Slot(list, x.value);
    assert k <= i;
    SlotUnique(r, now, k);
  }

  lemma {:induction false} SlotUnique(list: seq<Item<Id>>, now: nat, k: nat)
    requires k <= |list| && (forall j | 0 <= j < k :: list[j].value <= now) && (k < |list| ==> list[k].value > now)
    ensures Slot(list, now) == k
  {
    if k > 0 {
      SlotUnique(list[1..], now, k - 1);
    }
  }

  lemma {:induction false} ReloadAhead(d: Daemon, id: Id, expired: Tick, now: Tick)
    requires id in d.timers && Sorted(d.current)
    ensures Slot(Reload(d, id, expired, now).current, now) == Slot(d.current, now)
    decreases Since(now, expired)
  {
    hide Slot, Sorted, Insert;
    var next := Plus(expired, d.timers[id].period);
    if Decide(next, now, expired, d.timers[id].period) == ProcessNow {
      Progress(expired, now, d.timers[id].period);
      ReloadAhead(Called(d, id), id, next, now);
    } else if Decide(next, now, expired, d.timers[id].period) == InCurrent {
      SlotInsert(d.current, Item(id, next), now);
    }
  }

  // Each round at one sampled time leaves one expired timer fewer, so the daemon catches up.
  lemma RoundsCatchUp(d: Daemon, now: nat, due: map<Id, int>)
    requires Filed(d, now, due) && Known(d) && !CaughtUp(d)
    ensures Slot(ProcessTimer(d, d.last).current, d.last) == Slot(d.current, d.last) - 1
    ensures Slot(d.current, d.last) > 0
  {
    hide Reload;
    var id, d1 := d.current[0].owner, d.(current := d.current[1..]);
    if d.timers[id].autoReload {
      ReloadAhead(d1, id, d.current[0].value, d.last);
    }
  }
}
