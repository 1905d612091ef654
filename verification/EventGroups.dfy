/**
 The event group object of event_groups.c: a word of event bits and a list of
 waiting tasks whose item values carry the wanted bits and the control bits.
 */
module EventGroups {
  import opened EventBits
  import opened KernelTypes
  import opened Sequences
  import opened EventWords

  datatype Entry = Entry(task: Task, value: bv32)

  function Wanted(v: bv32): bv32 {
    v & !CONTROL
  }

  function Control(v: bv32): bv32 {
    v & CONTROL
  }

  predicate WantsAll(v: bv32) {
    v & WAIT_FOR_ALL != 0
  }

  predicate WantsClear(v: bv32) {
    v & CLEAR_EVENTS_ON_EXIT != 0
  }

  // What a released task finds in its item value.
  function Snapshot(now: bv32): bv32 {
    now | UNBLOCKED_DUE_TO_BIT_SET
  }

  ghost function AsWaiter(e: Entry): Waiter {
    Waiter(e.task, BitsOf(Wanted(e.value)), WantsAll(e.value), WantsClear(e.value))
  }

  ghost function AsWaiters(list: seq<Entry>): (r: seq<Waiter>)
    ensures |r| == |list| && forall i | 0 <= i < |list| :: r[i] == AsWaiter(list[i])
  {
    seq(|list|, i requires 0 <= i < |list| => AsWaiter(list[i]))
  }

  // prvTestWaitCondition
  function TestWaitCondition(current: bv32, wanted: bv32, all: bool): (met: bool)
  {
    if !all then current & wanted != 0 else current & wanted == wanted
  }

  lemma TestIsMet(current: bv32, wanted: bv32, all: bool)
    requires Plain(wanted)
    ensures TestWaitCondition(current, wanted, all) <==> Met(BitsOf(current), BitsOf(wanted), all)
  {
    TestAny(current, wanted);
    TestAll(current, wanted);
  }

  // ---- The loop over the waiters, one at a time ----

  lemma {:induction false} SelectMore(waiters: seq<Waiter>, w: Waiter, current: set<nat>, released: bool)
    ensures Select(waiters + [w], current, released)
         == Select(waiters, current, released) + (if Released(w, current) == released then [w] else [])
  {
    hide Released;
    var last := if Released(w, current) == released then [w] else [];
    if waiters == [] {
      assert waiters + [w] == [w];
      assert Select([w], current, released) == last + Select([], current, released);
    } else {
      var first := if Released(waiters[0], current) == released then [waiters[0]] else [];
      assert (waiters + [w])[1..] == waiters[1..] + [w] && (waiters + [w])[0] == waiters[0];
      SelectMore(waiters[1..], w, current, released);
      Regroup(first, Select(waiters[1..], current, released), last);
    }
  }

  lemma {:induction false} ToClearMore(waiters: seq<Waiter>, w: Waiter, current: set<nat>)
    ensures ToClear(waiters + [w], current)
         == ToClear(waiters, current) + (if Released(w, current) && w.clear then w.bits else {})
  {
    hide Released;
    if waiters == [] {
      assert waiters + [w] == [w];
    } else {
      assert (waiters + [w])[1..] == waiters[1..] + [w];
      ToClearMore(waiters[1..], w, current);
    }
  }

  lemma AsWaitersMore(list: seq<Entry>, e: Entry)
    ensures AsWaiters(list + [e]) == AsWaiters(list) + [AsWaiter(e)]
  {
  }

  // The bits a task finds in its item value when it was released, without the control bits.
  lemma SnapshotBits(now: bv32)
    requires Plain(now)
    ensures Wanted(Snapshot(now)) == now && Snapshot(now) & UNBLOCKED_DUE_TO_BIT_SET != 0
  {
  }

  lemma PlainWords(a: bv32, b: bv32)
    ensures Plain(a) ==> Plain(a & !b) && Plain(a & b)
    ensures Plain(a) && Plain(b) ==> Plain(a | b)
    ensures Plain(Wanted(a))
  {
  }

  class EventGroup {
    var eventBits: bv32
    var waiting: seq<Entry>

    ghost predicate Valid()
      reads this
    {
      Plain(eventBits)
    }

    ghost function View(): Group
      reads this
    {
      Group(BitsOf(eventBits), AsWaiters(waiting))
    }

    constructor ()
      ensures Valid() && View() == Group({}, [])
    {
      eventBits, waiting := 0, [];
      new;
      BitsOfZero();
    }

    // Is this waiter's condition met, and if so which bits does it want cleared?
    method Examine(e: Entry) returns (matchFound: bool, toClear: bv32)
      requires Valid()
      ensures matchFound == Released(AsWaiter(e), BitsOf(eventBits)) && Plain(toClear)
      ensures BitsOf(toClear) == if matchFound && AsWaiter(e).clear then AsWaiter(e).bits else {}
    {
      hide BitsOf, Plain, Wanted, Control, WantsAll, WantsClear, TestWaitCondition;
      var wanted, control := Wanted(e.value), Control(e.value);
      ControlBits(e.value);
      PlainWords(e.value, e.value);
      TestIsMet(eventBits, wanted, WantsAll(e.value));
      matchFound := TestWaitCondition(eventBits, wanted, WantsAll(control));
      toClear := 0;
      BitsOfZero();
      PlainZero();
      if matchFound && WantsClear(control) { toClear := wanted; }
    }

    // After `done` of the waiters in `all`, those kept stand before i.
    ghost predicate Progress(all: seq<Entry>, done: nat, i: nat, bitsToClear: bv32, released: seq<Entry>)
      reads this
    {
      var now := BitsOf(eventBits);
      && i <= |waiting| && done <= |all| && waiting[i..] == all[done..] && Plain(eventBits) && Plain(bitsToClear)
      && AsWaiters(waiting[..i]) == Select(AsWaiters(all[..done]), now, false)
      && BitsOf(bitsToClear) == ToClear(AsWaiters(all[..done]), now)
      && released == Announced(Select(AsWaiters(all[..done]), now, true), eventBits)
    }

    // The waiter at i is released, or kept.
    method Visit(i: nat, bitsToClear: bv32, released: seq<Entry>, ghost all: seq<Entry>, ghost done: nat)
      returns (next: nat, clear: bv32, out: seq<Entry>)
      requires Progress(all, done, i, bitsToClear, released) && i < |waiting|
      modifies this`waiting
      ensures done < |all| && Progress(all, done + 1, next, clear, out) && |waiting| - next == old(|waiting|) - i - 1
    {
      hide BitsOf, Plain, Released, Select, ToClear, Snapshot;
      var e := waiting[i];
      RestMoves(waiting, i, all, done);
      OneDone(all, done, BitsOf(eventBits), eventBits);
      var matches, toClear := Examine(e);
      next, clear, out := i, bitsToClear, released;
      if matches {
        clear := MoreToClear(bitsToClear, toClear);
        out := released + [Entry(e.task, Snapshot(eventBits))];
        waiting := waiting[..i] + waiting[i + 1..];
      } else {
        AsWaitersMore(waiting[..i], e);
        next := i + 1;
      }
    }

    // One pass over the waiters.
    method ReleaseMatching() returns (bitsToClear: bv32, released: seq<Entry>)
      requires Valid()
      modifies this`waiting
      ensures Progress(old(waiting), |old(waiting)|, |waiting|, bitsToClear, released)
    {
      hide BitsOf, Plain, Released, Select, ToClear;
      bitsToClear, released := 0, [];
      BitsOfZero();
      PlainZero();
      ghost var all := waiting;
      ghost var done: nat := 0;
      var i := 0;
      NoneYet(all, BitsOf(eventBits), eventBits);
      while i < |waiting|
        invariant 0 <= i <= |waiting| && Progress(all, done, i, bitsToClear, released)
        decreases |waiting| - i
      {
        i, bitsToClear, released := Visit(i, bitsToClear, released, all, done);
        done := done + 1;
      }
      assert |waiting[i..]| == 0 && |all[done..]| == 0;
    }

    // Sets bits, releases every waiter they satisfy with the bits of this moment, then clears what those wanted cleared.
    method SetBits(bits: bv32) returns (result: bv32, released: seq<Entry>)
      requires Valid() && Plain(bits)
      modifies this
      ensures Valid() && View() == EventBits.SetBits(old(View()), BitsOf(bits)) && result == eventBits
      ensures released == Announced(Select(old(View()).waiters, old(View()).bits + BitsOf(bits), true), Or(old(eventBits), bits))
    {
      hide BitsOf, Plain, Released, Select, ToClear, Snapshot, Or, Announced, AsWaiters;
      OrPlain(eventBits, bits);
      eventBits := Or(eventBits, bits);
      ghost var all := waiting;
      var bitsToClear;
      bitsToClear, released := ReleaseMatching();
      assert all[..|all|] == all && waiting[..|waiting|] == waiting;
      result := Clear(bitsToClear);
    }

    method MoreToClear(a: bv32, b: bv32) returns (r: bv32)
      requires Plain(a) && Plain(b)
      ensures Plain(r) && BitsOf(r) == BitsOf(a) + BitsOf(b)
    {
      PlainWords(a, b);
      BitsOr(a, b);
      r := a | b;
    }

    method Clear(bits: bv32) returns (result: bv32)
      requires Valid()
      modifies this`eventBits
      ensures Valid() && result == eventBits && BitsOf(eventBits) == BitsOf(old(eventBits)) - BitsOf(bits)
    {
      hide BitsOf;
      BitsWithout(eventBits, bits);
      PlainWords(eventBits, bits);
      eventBits := eventBits & !bits;
      result := eventBits;
    }

    // Returns the bits before they are cleared.
    method ClearBits(bits: bv32) returns (before: bv32)
      requires Valid() && Plain(bits)
      modifies this
      ensures Valid() && View() == EventBits.ClearBits(old(View()), BitsOf(bits)) && before == old(eventBits)
    {
      before := eventBits;
      var _ := Clear(bits);
    }

    method AddWaiter(t: Task, wanted: bv32, all: bool, clear: bool)
      requires Valid() && Plain(wanted)
      modifies this`waiting
      ensures View() == old(View()).(waiters := old(View()).waiters + [Waiter(t, BitsOf(wanted), all, clear)])
    {
      hide BitsOf, Plain, ItemValue, Wanted, WantsAll, WantsClear;
      var e := Entry(t, ItemValue(wanted, all, clear));
      ItemWanted(wanted, all, clear);
      AsWaitersMore(waiting, e);
      waiting := waiting + [e];
    }

    method WaitBits(t: Task, wanted: bv32, clearOnExit: bool, waitForAll: bool, ticks: nat) returns (blocks: bool, value: bv32)
      requires Valid() && Plain(wanted) && wanted != 0
      modifies this
      ensures var (g, out) := EventBits.WaitBits(old(View()), t, BitsOf(wanted), clearOnExit, waitForAll, ticks > 0);
              && Valid() && View() == g && blocks == out.Blocks?
              && (!blocks ==> BitsOf(value) == out.bits)
    {
      hide BitsOf, Plain, TestWaitCondition;
      TestIsMet(eventBits, wanted, waitForAll);
      blocks, value := false, eventBits;
      if TestWaitCondition(eventBits, wanted, waitForAll) {
        if clearOnExit { var _ := Clear(wanted); }
      } else if ticks > 0 {
        AddWaiter(t, wanted, waitForAll, clearOnExit);
        blocks := true;
      }
    }

    method Sync(t: Task, toSet: bv32, wanted: bv32, ticks: nat) returns (blocks: bool, value: bv32, released: seq<Entry>)
      requires Valid() && Plain(toSet) && Plain(wanted) && wanted != 0
      modifies this
      ensures var (g, out) := EventBits.Sync(old(View()), t, BitsOf(toSet), BitsOf(wanted), ticks > 0);
              && Valid() && View() == g && blocks == out.Blocks?
              && (!blocks ==> BitsOf(value) == out.bits)
      ensures released == Announced(Select(old(View()).waiters, old(View()).bits + BitsOf(toSet), true), Or(old(eventBits), toSet))
    {
      hide BitsOf, Plain, TestWaitCondition, EventBits.SetBits, Select, Announced;
      var original := eventBits;
      BitsOr(original, toSet);
      TestIsMet(original | toSet, wanted, true);
      var now;
      now, released := SetBits(toSet);
      blocks := false;
      if TestWaitCondition(original | toSet, wanted, true) {
        value := original | toSet;
        var _ := Clear(wanted);
      } else if ticks > 0 {
        value := 0;
        AddWaiter(t, wanted, true, true);
        blocks := true;
      } else {
        value := eventBits;
      }
    }

    // The caller timed out: it returns the bits of the moment and clears its own if they are met by now.
    method FinishTimeOut(wanted: bv32, clearOnExit: bool, waitForAll: bool) returns (value: bv32)
      requires Valid() && Plain(wanted)
      modifies this
      ensures var (g, bits) := EventBits.FinishTimeOut(old(View()), BitsOf(wanted), clearOnExit, waitForAll);
              Valid() && View() == g && BitsOf(value) == bits
    {
      hide BitsOf, Plain, TestWaitCondition;
      value := eventBits;
      TestIsMet(eventBits, wanted, waitForAll);
      if TestWaitCondition(value, wanted, waitForAll) {
        if clearOnExit { var _ := Clear(wanted); }
      }
    }
  }

  ghost function Announced(out: seq<Waiter>, now: bv32): (r: seq<Entry>)
    ensures |r| == |out| && forall i | 0 <= i < |out| :: r[i] == Entry(out[i].task, Snapshot(now))
  {
    seq(|out|, i requires 0 <= i < |out| => Entry(out[i].task, Snapshot(now)))
  }

  lemma ItemWanted(wanted: bv32, all: bool, clear: bool)
    requires Plain(wanted)
    ensures var v := ItemValue(wanted, all, clear); Wanted(v) == wanted && WantsAll(v) == all && WantsClear(v) == clear
  {
    ItemDecodes(wanted, all, clear);
  }

  lemma ControlBits(v: bv32)
    ensures WantsAll(Control(v)) == WantsAll(v) && WantsClear(Control(v)) == WantsClear(v)
  {
  }

  lemma OrPlain(a: bv32, b: bv32)
    ensures Plain(a) && Plain(b) ==> Plain(Or(a, b))
    ensures BitsOf(Or(a, b)) == BitsOf(a) + BitsOf(b)
  {
    hide BitsOf;
    PlainWords(a, b);
    BitsOr(a, b);
  }

  lemma PlainZero()
    ensures Plain(0)
  {
  }

  lemma NoneYet(all: seq<Entry>, now: set<nat>, value: bv32)
    ensures AsWaiters(all[..0]) == [] && Select([], now, false) == [] == Select([], now, true) && ToClear([], now) == {}
    ensures Announced([], value) == []
  {
  }

  lemma OneDone(all: seq<Entry>, done: nat, now: set<nat>, value: bv32)
    requires done < |all|
    ensures var before, w := AsWaiters(all[..done]), AsWaiter(all[done]);
            var after := AsWaiters(all[..done + 1]);
            && Select(after, now, false) == Select(before, now, false) + (if Released(w, now) then [] else [w])
            && Announced(Select(after, now, true), value)
               == Announced(Select(before, now, true), value) + (if Released(w, now) then [Entry(w.task, Snapshot(value))] else [])
            && ToClear(after, now) == ToClear(before, now) + (if Released(w, now) && w.clear then w.bits else {})
  {
    hide Select, ToClear, Released, Snapshot;
    assert all[..done + 1] == all[..done] + [all[done]];
    AsWaitersMore(all[..done], all[done]);
    SelectMore(AsWaiters(all[..done]), AsWaiter(all[done]), now, false);
    SelectMore(AsWaiters(all[..done]), AsWaiter(all[done]), now, true);
    ToClearMore(AsWaiters(all[..done]), AsWaiter(all[done]), now);
  }

  lemma RestMoves<T>(list: seq<T>, i: nat, all: seq<T>, done: nat)
    requires i < |list| && done <= |all| && list[i..] == all[done..]
    ensures done < |all| && list[i] == all[done] && list[i + 1..] == all[done + 1..]
    ensures (list[..i] + list[i + 1..])[i..] == all[done + 1..] && (list[..i] + list[i + 1..])[..i] == list[..i]
    ensures list[..i + 1] == list[..i] + [list[i]]
  {
    assert list[i..][0] == all[done..][0];
    assert list[i..][1..] == all[done..][1..];
  }
}
