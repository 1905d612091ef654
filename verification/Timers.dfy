/**
 The timer daemon of timers.c itself: two lists, timer status and counters
 updated in place, each function proved against its specification.
 */
module Timers {
  import opened KernelTypes
  import opened Rings
  import T = KernelTime
  import S = TimerService
  import opened TimerService

  class TimerDaemon {
    var current: seq<Item<Id>>
    var overflow: seq<Item<Id>>
    var timers: map<Id, Timer>
    var lastTime: Tick

    ghost function View(): Daemon
      reads this
    {
      Daemon(current, overflow, timers, lastTime)
    }

    constructor ()
      ensures View() == Daemon([], [], map[], 0)
    {
      current, overflow, timers, lastTime := [], [], map[], 0;
    }

    method CallBack(id: Id)
      requires id in timers
      modifies this`timers
      ensures View() == Called(old(View()), id)
    {
      timers := timers[id := timers[id].(calls := timers[id].calls + 1)];
    }

    method SetActive(id: Id, active: bool)
      requires id in timers
      modifies this`timers
      ensures View() == S.SetActive(old(View()), id, active)
    {
      timers := timers[id := timers[id].(active := active)];
    }

    // Files the timer, or tells the caller to process it now.
    method InsertTimerInActiveList(id: Id, next: Tick, now: Tick, command: Tick) returns (processNow: bool)
      requires id in timers
      modifies this`current, this`overflow
      ensures var where := Decide(next, now, command, timers[id].period);
              processNow == (where == ProcessNow) && View() == File(old(View()), id, next, where)
    {
      processNow := false;
      if next <= now {
        if (now - command) % M >= timers[id].period {
          processNow := true;
        } else {
          overflow := Insert(overflow, Item(id, next));
        }
      } else {
        if now < command && next >= command {
          processNow := true;
        } else {
          current := Insert(current, Item(id, next));
        }
      }
    }

    method ReloadTimer(id: Id, expiredTime: Tick, now: Tick)
      requires id in timers
      modifies this`current, this`overflow, this`timers
      ensures View() == Reload(old(View()), id, expiredTime, now)
    {
      hide Decide, File, Reload, Since;
      ghost var d := View();
      var expired: Tick := expiredTime;
      var period := timers[id].period;
      ReloadUnfolds(d, id, expired, now);
      var again := InsertTimerInActiveList(id, Plus(expired, period), now, expired);
      while again
        invariant id in timers && timers[id].period == period
        invariant again ==> Decide(Plus(expired, period), now, expired, period) == ProcessNow
        invariant (if again then Reload(View(), id, expired, now) else View()) == Reload(d, id, expiredTime, now)
        decreases again, Since(now, expired)
      {
        Progress(expired, now, period);
        ReloadUnfolds(View(), id, expired, now);
        expired := Plus(expired, period);
        CallBack(id);
        ReloadUnfolds(View(), id, expired, now);
        again := InsertTimerInActiveList(id, Plus(expired, period), now, expired);
      }
    }

    lemma ReloadUnfolds(d: Daemon, id: Id, expired: Tick, now: Tick)
      requires id in d.timers
      ensures var period := d.timers[id].period;
              var where := Decide(Plus(expired, period), now, expired, period);
              && Reload(d, id, expired, now) == (if where == ProcessNow then Reload(Called(d, id), id, Plus(expired, period), now)
                                                 else File(d, id, Plus(expired, period), where))
              && (where == ProcessNow ==> File(d, id, Plus(expired, period), where) == d)
    {
    }

    // The head of the current list has expired.
    method ProcessExpiredTimer(expireTime: Tick, now: Tick)
      requires Known(View()) && current != [] && current[0].value == expireTime
      modifies this`current, this`overflow, this`timers
      ensures View() == Expire(old(View()), now)
    {
      hide Reload;
      var id := current[0].owner;
      current := current[1..];
      if timers[id].autoReload {
        ReloadTimer(id, expireTime, now);
      } else {
        SetActive(id, false);
      }
      CallBack(id);
    }

    method SwitchTimerLists()
      requires Known(View())
      modifies this`current, this`overflow, this`timers
      ensures View() == SwitchLists(old(View()))
    {
      hide Expire, Known;
      ghost var d := View();
      while current != []
        invariant Known(View()) && SwitchLists(View()) == SwitchLists(d)
        decreases |current|
      {
        HeadTick(View());
        ProcessExpiredTimer(current[0].value, MAX_TIME);
      }
      current, overflow := overflow, current;
    }

    lemma HeadTick(d: Daemon)
      requires Known(d) && d.current != []
      ensures d.current[0].value < M
    {
    }

    // A tick count below the last one means the count has wrapped.
    method SampleTimeNow(tickCount: Tick) returns (switched: bool)
      requires Known(View())
      modifies this
      ensures View() == Sample(old(View()), tickCount) && switched == (tickCount < old(lastTime))
    {
      switched := tickCount < lastTime;
      if switched { SwitchTimerLists(); }
      lastTime := tickCount;
    }

    // Processes the head of the current list if it has expired, else says how long the daemon may block.
    method ProcessTimerOrBlockTask(nextExpireTime: Tick, listWasEmpty: bool, tickCount: Tick)
      returns (blocks: bool, ticksToWait: Tick, indefinitely: bool)
      requires Known(View()) && listWasEmpty == (current == [])
      requires nextExpireTime == if current == [] then 0 else current[0].value
      modifies this
      ensures View() == ProcessTimer(old(View()), tickCount)
      ensures blocks == Blocks(old(View()), tickCount)
      ensures blocks ==> ticksToWait == TicksToWait(old(View()), tickCount)
                         && indefinitely == (current == [] && overflow == []) == (old(current) == [] && old(overflow) == [])
    {
      hide Expire;
      blocks, ticksToWait, indefinitely := false, 0, false;
      var switched := SampleTimeNow(tickCount);
      if !switched {
        if !listWasEmpty && nextExpireTime <= tickCount {
          ProcessExpiredTimer(nextExpireTime, tickCount);
        } else {
          blocks := true;
          ticksToWait := (nextExpireTime - tickCount) % M;
          indefinitely := listWasEmpty && overflow == [];
        }
      }
    }

    method ProcessReceivedCommand(c: Command, tickCount: Tick)
      requires Known(View()) && c.id in timers
      modifies this
      ensures View() == Perform(old(View()), c, tickCount)
    {
      hide Sample, Reload, Known;
      var id := c.id;
      RemoveKnown(View(), id);
      current, overflow := T.WithoutOwner(current, id), T.WithoutOwner(overflow, id);
      var _ := SampleTimeNow(tickCount);
      match c {
        case Start(_, time) =>
          SetActive(id, true);
          var expired := InsertTimerInActiveList(id, Plus(time, timers[id].period), tickCount, time);
          if expired {
            if timers[id].autoReload {
              ReloadTimer(id, Plus(time, timers[id].period), tickCount);
            } else {
              SetActive(id, false);
            }
            CallBack(id);
          }
        case Stop(_) =>
          SetActive(id, false);
        case ChangePeriod(_, period) =>
          timers := timers[id := timers[id].(active := true, period := period)];
          var _ := InsertTimerInActiveList(id, Plus(tickCount, period), tickCount, tickCount);
        case Delete(_) =>
          timers := timers - {id};
      }
    }
  }
}
