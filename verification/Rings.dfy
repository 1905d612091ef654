/**
 What the kernel's lists mean: a sequence of items with a walking position
 (for round-robin service), and the sorted insertion used for wake times and
 event lists.
 */
module Rings {
  import opened Sequences

  // pos is 0 at the end marker, otherwise one more than the index of the item the walking pointer is at.
  datatype Ring<T> = Ring(items: seq<T>, pos: nat)

  ghost predicate ValidRing<T>(r: Ring<T>) {
    r.pos <= |r.items|
  }

  type WalkedRing<T> = r: Ring<T> | ValidRing(r) witness Ring([], 0)

  // Inserted just behind the walking pointer.
  function InsertEnd<T>(r: Ring<T>, x: T): (r': Ring<T>)
    requires ValidRing(r)
    ensures ValidRing(r') && |r'.items| == |r.items| + 1
  {
    if r.pos == 0 then Ring(r.items + [x], 0)
    else Ring(r.items[..r.pos - 1] + [x] + r.items[r.pos - 1..], r.pos + 1)
  }

  function InsertAt<T>(r: Ring<T>, k: nat, x: T): (r': Ring<T>)
    requires ValidRing(r) && k <= |r.items|
    ensures ValidRing(r') && |r'.items| == |r.items| + 1
  {
    Ring(r.items[..k] + [x] + r.items[k..], if k < r.pos then r.pos + 1 else r.pos)
  }

  // A pointer at the removed item falls back to the one before it.
  function RemoveAt<T>(r: Ring<T>, i: nat): (r': Ring<T>)
    requires ValidRing(r) && i < |r.items|
    ensures ValidRing(r') && |r'.items| == |r.items| - 1
  {
    Ring(r.items[..i] + r.items[i + 1..], if i < r.pos then r.pos - 1 else r.pos)
  }

  // One step of the walking pointer, past the end marker.
  function Advance<T>(r: Ring<T>): (r': Ring<T>)
    requires ValidRing(r) && r.items != []
    ensures ValidRing(r') && r'.pos > 0 && r'.items == r.items
  {
    Ring(r.items, if r.pos == |r.items| then 1 else r.pos + 1)
  }

  function Served<T>(r: Ring<T>): T
    requires 0 < r.pos <= |r.items|
  {
    r.items[r.pos - 1]
  }

  function AdvanceBy<T>(r: Ring<T>, k: nat): (r': Ring<T>)
    requires ValidRing(r) && r.items != []
    ensures ValidRing(r') && (k > 0 ==> r'.pos > 0) && r'.items == r.items
    decreases k
  {
    if k == 0 then r else AdvanceBy(Advance(r), k - 1)
  }

  // The order in which further steps serve the items.
  function Turns<T>(r: Ring<T>): (turns: seq<T>)
    requires ValidRing(r)
    ensures |turns| == |r.items|
  {
    r.items[r.pos..] + r.items[..r.pos]
  }

  // k steps over an unchanged list of at least k items serve the first k in turn.
  lemma {:induction false} StepsServeInTurn<T>(r: Ring<T>, k: nat)
    requires ValidRing(r) && 1 <= k <= |r.items|
    ensures Served(AdvanceBy(r, k)) == Turns(r)[k - 1]
    decreases k
  {
    var next := Advance(r);
    if k == 1 {
      assert AdvanceBy(r, 1) == AdvanceBy(next, 0) == next;
    } else {
      StepsServeInTurn(next, k - 1);
      AdvanceTurns(r);
    }
  }

  lemma AdvanceTurns<T>(r: Ring<T>)
    requires ValidRing(r) && r.items != []
    ensures Turns(Advance(r)) == Turns(r)[1..] + [Turns(r)[0]] && Served(Advance(r)) == Turns(r)[0]
  {
    if r.pos == |r.items| {
      assert Turns(r) == r.items && Turns(Advance(r)) == r.items[1..] + r.items[..1];
    } else {
      assert r.items[..r.pos + 1] == r.items[..r.pos] + [r.items[r.pos]];
    }
  }

  // Every item is served exactly as often as it is in the list, then the order repeats.
  lemma EverybodyOnce<T>(r: Ring<T>)
    requires ValidRing(r)
    ensures multiset(Turns(r)) == multiset(r.items)
  {
    assert r.items == r.items[..r.pos] + r.items[r.pos..];
  }

  lemma {:induction false} StepsWrap<T>(r: Ring<T>, k: nat)
    requires ValidRing(r) && 0 < r.pos && k <= |r.items|
    ensures var p := r.pos + k; AdvanceBy(r, k).pos == if p <= |r.items| then p else p - |r.items|
    decreases k
  {
    if k > 0 {
      StepsWrap(Advance(r), k - 1);
    }
  }

  lemma FullCircle<T>(r: Ring<T>)
    requires ValidRing(r) && 0 < r.pos
    ensures AdvanceBy(r, |r.items|) == r
  {
    StepsWrap(r, |r.items|);
  }

  // A new item waits until every item of the list but the one being served has had its turn.
  lemma InsertedLast<T>(r: Ring<T>, x: T)
    requires ValidRing(r)
    ensures var turns := Turns(r);
            Turns(InsertEnd(r, x)) == if r.pos == 0 then turns + [x] else turns[..|turns| - 1] + [x, Served(r)]
  {
    if r.pos > 0 {
      var before, after := r.items[..r.pos - 1], r.items[r.pos - 1..];
      var r' := InsertEnd(r, x);
      assert after == [Served(r)] + r.items[r.pos..];
      assert r'.items[r'.pos..] == r.items[r.pos..];
      assert r'.items[..r'.pos] == before + [x, Served(r)];
      assert Turns(r)[..|r.items| - 1] == r.items[r.pos..] + before;
    }
  }

  // Removing an item changes nobody else's place in the order.
  lemma RemovedKeepsTurns<T>(r: Ring<T>, i: nat) returns (turn: nat)
    requires ValidRing(r) && i < |r.items|
    ensures turn < |r.items| && Turns(r)[turn] == r.items[i]
    ensures Turns(RemoveAt(r, i)) == Turns(r)[..turn] + Turns(r)[turn + 1..]
  {
    turn := if i < r.pos then |r.items| - r.pos + i else i - r.pos;
    var r' := RemoveAt(r, i);
    if i < r.pos {
      assert r'.items[r'.pos..] == r.items[r.pos..];
      assert r'.items[..r'.pos] == r.items[..i] + r.items[i + 1..r.pos];
      assert Turns(r)[..turn] == r.items[r.pos..] + r.items[..i];
      assert Turns(r)[turn + 1..] == r.items[i + 1..r.pos];
    } else {
      assert r'.items[r'.pos..] == r.items[r.pos..i] + r.items[i + 1..];
      assert r'.items[..r'.pos] == r.items[..r.pos];
      assert Turns(r)[..turn] == r.items[r.pos..i];
      assert Turns(r)[turn + 1..] == r.items[i + 1..] + r.items[..r.pos];
    }
  }

  // ---- Sorted insertion ----

  datatype Item<T> = Item(owner: T, value: nat)

  ghost predicate Sorted<T>(list: seq<Item<T>>) {
    forall i, j | 0 <= i < j < |list| :: list[i].value <= list[j].value
  }

  // Behind every item that is not later.
  function Slot<T>(list: seq<Item<T>>, value: nat): (i: nat)
    ensures i <= |list| && (forall k | 0 <= k < i :: list[k].value <= value)
    ensures i < |list| ==> list[i].value > value
  {
    if list == [] || list[0].value > value then 0 else 1 + Slot(list[1..], value)
  }

  function Insert<T>(list: seq<Item<T>>, x: Item<T>): (r: seq<Item<T>>)
    ensures |r| == |list| + 1
  {
    var i := Slot(list, x.value);
    list[..i] + [x] + list[i..]
  }

  function InsertAll<T>(list: seq<Item<T>>, xs: seq<Item<T>>): seq<Item<T>>
    decreases |xs|
  {
    if xs == [] then list else InsertAll(Insert(list, xs[0]), xs[1..])
  }

  // The items with one value, in list order.
  function With<T>(list: seq<Item<T>>, value: nat): seq<Item<T>> {
    if list == [] then []
    else (if list[0].value == value then [list[0]] else []) + With(list[1..], value)
  }

  lemma {:induction false} WithConcat<T>(a: seq<Item<T>>, b: seq<Item<T>>, value: nat)
    ensures With(a + b, value) == With(a, value) + With(b, value)
  {
    if a == [] {
      assert a + b == b;
    } else {
      assert (a + b)[1..] == a[1..] + b && (a + b)[0] == a[0];
      WithConcat(a[1..], b, value);
      var first := if a[0].value == value then [a[0]] else [];
      assert With(a + b, value) == first + With(a[1..] + b, value);
      Regroup(first, With(a[1..], value), With(b, value));
    }
  }

  lemma {:induction false} NoneWith<T>(list: seq<Item<T>>, value: nat)
    requires forall i | 0 <= i < |list| :: list[i].value != value
    ensures With(list, value) == []
  {
    if list != [] {
      NoneWith(list[1..], value);
    }
  }

  lemma InsertSorted<T>(list: seq<Item<T>>, x: Item<T>)
    requires Sorted(list)
    ensures Sorted(Insert(list, x))
  {
  }

  lemma InsertWith<T>(list: seq<Item<T>>, x: Item<T>, value: nat)
    requires Sorted(list)
    ensures With(Insert(list, x), value) == With(list, value) + (if x.value == value then [x] else [])
  {
    hide With, Slot;
    var i := Slot(list, x.value);
    var before, after := list[..i], list[i..];
    assert list == before + after;
    WithConcat(before, after, value);
    WithConcat(before + [x], after, value);
    WithConcat(before, [x], value);
    if x.value == value {
      NoneWith(after, value);
    }
    OneWith(x, value);
  }

  lemma OneWith<T>(x: Item<T>, value: nat)
    ensures With([x], value) == if x.value == value then [x] else []
  {
  }

  // Lists built by sorted insertion alone are sorted, and first-in first-out among equal values.
  lemma {:induction false} SortedAndStable<T>(list: seq<Item<T>>, xs: seq<Item<T>>, value: nat)
    requires Sorted(list)
    ensures Sorted(InsertAll(list, xs)) && With(InsertAll(list, xs), value) == With(list, value) + With(xs, value)
    decreases |xs|
  {
    if xs != [] {
      InsertSorted(list, xs[0]);
      InsertWith(list, xs[0], value);
      SortedAndStable(Insert(list, xs[0]), xs[1..], value);
    }
  }
}
