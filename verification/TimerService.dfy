/**
 The timer daemon of timers.c as functions: timers filed by wrapped expiry
 time in a current and an overflow list, backlog replay for auto-reload
 timers, and the list switch when the tick count is seen to have wrapped.
 */
module TimerService {
  import opened KernelTypes
  import opened Rings
  import T = KernelTime

  type Id = nat

  const MAX_TIME := 0xFFFF_FFFF

  type Tick = t: nat | t < M
  type Period = p: nat | 1 <= p < M witness 1

  // calls counts the callbacks made.
  datatype Timer = Timer(period: Period, autoReload: bool, active: bool, calls: nat)

  datatype Daemon = Daemon(current: seq<Item<Id>>, overflow: seq<Item<Id>>, timers: map<Id, Timer>, last: Tick)

  datatype Where = ProcessNow | InCurrent | InOverflow

  function Plus(t: Tick, p: nat): Tick {
    (t + p) % M
  }

  function Since(now: Tick, before: Tick): Tick {
    (now - before) % M
  }

  // The four-way comparison of an expiry time with the time now and the time the command was issued.
  function Decide(next: Tick, now: Tick, command: Tick, period: Period): Where {
    if next <= now then
      if Since(now, command) >= period then ProcessNow else InOverflow
    else if now < command && next >= command then ProcessNow
    else InCurrent
  }

  // ---- The decision is about absolute times ----

  function Epoch(t: nat): nat {
    t / M
  }

  // It depends on the latency up to whole wraps.
  lemma DecideByLatency(command: Tick, now: Tick, period: Period)
    ensures Decide(Plus(command, period), now, command, period) == ProcessNow <==> Since(now, command) >= period
  {
  }

  // With less than a whole wrap of latency, a timer is processed at once if and only if its expiry is not after now, and
  // otherwise filed by the epoch of its expiry.
  lemma DecideExact(command: nat, now: nat, period: Period)
    requires command <= now < command + M
    ensures var d := Decide(Plus(command % M, period), now % M, command % M, period);
            && (d == ProcessNow <==> command + period <= now)
            && (d == InCurrent ==> now < command + period && Epoch(command + period) == Epoch(now))
            && (d == InOverflow ==> now < command + period && Epoch(command + period) == Epoch(now) + 1)
  {
  }

  // In general it is right if and only if the latency is below a whole wrap, or its remainder still covers the period.
  lemma DecideRightIff(command: nat, now: nat, period: Period)
    requires command <= now
    ensures var d := Decide(Plus(command % M, period), now % M, command % M, period);
            (d == ProcessNow <==> command + period <= now) <==> now - command < M || (now - command) % M >= period
  {
    hide Decide, Plus;
    DecideByLatency(command % M, now % M, period);
    LatencyModulo(command, now);
  }

  lemma LatencyModulo(command: nat, now: nat)
    requires command <= now
    ensures Since(now % M, command % M) == (now - command) % M <= now - command
    ensures now - command < M ==> (now - command) % M == now - command
    ensures now - command >= M ==> now - command >= M > (now - command) % M
  {
  }

  // ---- The daemon ----

  predicate Known(d: Daemon) {
    && (forall i | 0 <= i < |d.current| :: d.current[i].owner in d.timers && d.current[i].value < M)
    && (forall i | 0 <= i < |d.overflow| :: d.overflow[i].owner in d.timers && d.overflow[i].value < M)
  }

  function Called(d: Daemon, id: Id): Daemon
    requires id in d.timers
  {
    var t := d.timers[id];
    d.(timers := d.timers[id := t.(calls := t.calls + 1)])
  }

  function SetActive(d: Daemon, id: Id, active: bool): Daemon
    requires id in d.timers
  {
    d.(timers := d.timers[id := d.timers[id].(active := active)])
  }

  function File(d: Daemon, id: Id, next: Tick, where: Where): Daemon {
    match where
    case ProcessNow => d
    case InCurrent => d.(current := Insert(d.current, Item(id, next)))
    case InOverflow => d.(overflow := Insert(d.overflow, Item(id, next)))
  }

  // Calls back once for every period that has already passed, then files the timer.
  function Reload(d: Daemon, id: Id, expired: Tick, now: Tick): (r: Daemon)
    requires id in d.timers
    ensures r.timers.Keys == d.timers.Keys && r.last == d.last
    ensures r.timers == d.timers[id := d.timers[id].(calls := r.timers[id].calls)]
    ensures Known(d) ==> Known(r)
    ensures now == MAX_TIME ==> r.current == d.current
    decreases Since(now, expired)
  {
    var next := Plus(expired, d.timers[id].period);
    var where := Decide(next, now, expired, d.timers[id].period);
    if where == ProcessNow then
      Progress(expired, now, d.timers[id].period);
      Reload(Called(d, id), id, next, now)
    else File(d, id, next, where)
  }

  lemma Progress(expired: Tick, now: Tick, period: Period)
    requires Decide(Plus(expired, period), now, expired, period) == ProcessNow
    ensures Since(now, Plus(expired, period)) == Since(now, expired) - period
  {
    DecideByLatency(expired, now, period);
  }

  // The head of the current list has expired.
  function Expire(d: Daemon, now: Tick): (r: Daemon)
    requires d.current != [] && Known(d)
    ensures r.timers.Keys == d.timers.Keys && r.last == d.last && Known(r)
    ensures now == MAX_TIME ==> |r.current| == |d.current| - 1
  {
    var id := d.current[0].owner;
    var d1 := d.(current := d.current[1..]);
    Called(if d.timers[id].autoReload then Reload(d1, id, d.current[0].value, now) else SetActive(d1, id, false), id)
  }

  // The tick count has wrapped: whatever is left in the current list has expired, up to the end of its epoch.
  function SwitchLists(d: Daemon): (r: Daemon)
    requires Known(d)
    ensures r.timers.Keys == d.timers.Keys && r.last == d.last && Known(r) && r.overflow == []
    decreases |d.current|
  {
    if d.current == [] then d.(current := d.overflow, overflow := []) else SwitchLists(Expire(d, MAX_TIME))
  }

  function Sample(d: Daemon, now: Tick): (r: Daemon)
    requires Known(d)
    ensures r.timers.Keys == d.timers.Keys && r.last == now && Known(r)
  {
    (if now < d.last then SwitchLists(d) else d).(last := now)
  }

  // One round of the daemon: the head is looked up before the time is sampled.
  function ProcessTimer(d: Daemon, now: Tick): (r: Daemon)
    requires Known(d)
    ensures r.timers.Keys == d.timers.Keys && Known(r) && r.last == now
  {
    var s := Sample(d, now);
    if now >= d.last && d.current != [] && d.current[0].value <= now then Expire(s, now) else s
  }

  // Nothing is left to do at this time, so the daemon waits for the head of the current list, or for the wrap.
  predicate Blocks(d: Daemon, now: Tick) {
    now >= d.last && (d.current == [] || d.current[0].value > now)
  }

  function TicksToWait(d: Daemon, now: Tick): Tick {
    Since(if d.current == [] || d.current[0].value >= M then 0 else d.current[0].value, now)
  }

  // Start covers reset; a period change counts from the time of processing.
  datatype Command = Start(id: Id, time: Tick) | Stop(id: Id) | ChangePeriod(id: Id, period: Period) | Delete(id: Id)

  function Remove(d: Daemon, id: Id): Daemon {
    d.(current := T.WithoutOwner(d.current, id), overflow := T.WithoutOwner(d.overflow, id))
  }

  function Perform(d: Daemon, c: Command, now: Tick): (r: Daemon)
    requires Known(d) && c.id in d.timers
  {
    RemoveKnown(d, c.id);
    var s := Sample(Remove(d, c.id), now);
    match c
    case Start(id, time) => StartTimer(SetActive(s, id, true), id, time, now)
    case Stop(id) => SetActive(s, id, false)
    case ChangePeriod(id, period) =>
      var s' := s.(timers := s.timers[id := s.timers[id].(active := true, period := period)]);
      File(s', id, Plus(now, period), Decide(Plus(now, period), now, now, period))
    case Delete(id) => s.(timers := s.timers - {id})
  }

  function StartTimer(d: Daemon, id: Id, time: Tick, now: Tick): Daemon
    requires id in d.timers
  {
    var t := d.timers[id];
    var next := Plus(time, t.period);
    var where := Decide(next, now, time, t.period);
    if where == ProcessNow then
      Called(if t.autoReload then Reload(d, id, next, now) else SetActive(d, id, false), id)
    else File(d, id, next, where)
  }

  lemma {:induction false} WithoutKnown(list: seq<Item<Id>>, id: Id)
    ensures forall e | e in T.WithoutOwner(list, id) :: e in list
  {
    if list != [] {
      WithoutKnown(list[1..], id);
    }
  }

  lemma RemoveKnown(d: Daemon, id: Id)
    requires Known(d)
    ensures Known(Remove(d, id))
  {
    WithoutKnown(d.current, id);
    WithoutKnown(d.overflow, id);
    forall i | 0 <= i < |Remove(d, id).current|
      ensures Remove(d, id).current[i] in d.current
    {
    }
    forall i | 0 <= i < |Remove(d, id).overflow|
      ensures Remove(d, id).overflow[i] in d.overflow
    {
    }
  }
}
