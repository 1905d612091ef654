/**
 The intrusive doubly linked lists of list.c: items linked through an end
 marker into one ring, rewritten in place, proved against sequences.
 */
module Lists {
  import opened KernelTypes
  import R = Rings

  class ListItem<T> {
    var value: nat
    var owner: T
    var next: ListItem?<T>
    var prev: ListItem?<T>
    var container: List?<T>

    constructor (owner: T, value: nat)
      ensures this.owner == owner && this.value == value && container == null
    {
      this.owner, this.value, next, prev, container := owner, value, null, null, null;
    }
  }

  // Neighbours point at each other along a path that starts and ends at the end marker.
  ghost predicate Chain<T>(path: seq<ListItem<T>>)
    reads path`next, path`prev
  {
    forall i, j {:trigger path[i].next, path[j]} {:trigger path[j].prev, path[i]} | 0 <= i && j == i + 1 < |path| ::
      path[i].next == path[j] && path[j].prev == path[i]
  }

  ghost predicate Different<T>(path: seq<T>) {
    forall i, j | 0 <= i < j < |path| - 1 :: path[i] != path[j]
  }

  ghost predicate Circle<T>(path: seq<ListItem<T>>)
    reads path`next, path`prev
  {
    |path| > 1 && path[0] == path[|path| - 1] && Different(path) && Chain(path)
  }

  function InsertedAfter<T>(path: seq<T>, k: nat, x: T): (r: seq<T>)
    requires k < |path|
    ensures |r| == |path| + 1
    ensures forall i | 0 <= i < |r| :: r[i] == if i <= k then path[i] else if i == k + 1 then x else path[i - 1]
  {
    path[..k + 1] + [x] + path[k + 1..]
  }

  function WithoutIndex<T>(path: seq<T>, k: nat): (r: seq<T>)
    requires k < |path|
    ensures |r| == |path| - 1
    ensures forall i | 0 <= i < |r| :: r[i] == if i < k then path[i] else path[i + 1]
  {
    path[..k] + path[k + 1..]
  }

  lemma InsertingDifferent<T>(path: seq<T>, k: nat, x: T)
    requires k < |path| - 1 && Different(path) && x !in path
    ensures Different(InsertedAfter(path, k, x))
  {
    var r := InsertedAfter(path, k, x);
    forall i, j | 0 <= i < j < |r| - 1
      ensures r[i] != r[j]
    {
      if i == k + 1 {
        assert r[j] == path[j - 1];
      } else if j == k + 1 {
        assert r[i] == path[i];
      } else {
        assert path[if i <= k then i else i - 1] != path[if j <= k then j else j - 1];
      }
    }
  }

  lemma RemovingDifferent<T>(path: seq<T>, k: nat)
    requires 1 <= k < |path| - 1 && Different(path)
    ensures Different(WithoutIndex(path, k))
  {
    var r := WithoutIndex(path, k);
    forall i, j | 0 <= i < j < |r| - 1
      ensures r[i] != r[j]
    {
      assert path[if i < k then i else i + 1] != path[if j < k then j else j + 1];
    }
  }

  // The four pointer writes of an insertion behind a node.
  method Splice<T>(ghost path: seq<ListItem<T>>, ghost k: nat, before: ListItem<T>, item: ListItem<T>,
                   ghost after: ListItem<T>)
    requires Circle(path) && k + 1 < |path| && path[k] == before && path[k + 1] == after && item !in path
    modifies item`next, item`prev, before`next, after`prev
    ensures Circle(InsertedAfter(path, k, item))
  {
    ghost var r := InsertedAfter(path, k, item);
    InsertingDifferent(path, k, item);
    assert before.next == after;
    item.next := before.next;
    item.next.prev := item;
    item.prev := before;
    before.next := item;
    forall i, j | 0 <= i && j == i + 1 < |r|
      ensures r[i].next == r[j] && r[j].prev == r[i]
    {
      if i < k {
        assert path[i] != before && path[j] != after && path[i].next == path[j];
      } else if i > k + 1 {
        assert path[i - 1] != before && path[j - 1] != after && path[i - 1].next == path[j - 1];
      }
    }
  }

  // The two pointer writes of a removal.
  method Unsplice<T>(ghost path: seq<ListItem<T>>, ghost k: nat, item: ListItem<T>, ghost before: ListItem<T>,
                     ghost after: ListItem<T>)
    requires Circle(path) && 1 <= k < |path| - 1 && path[k] == item && path[k - 1] == before && path[k + 1] == after
    modifies before`next, after`prev
    ensures Circle(WithoutIndex(path, k)) && item.prev == before
  {
    ghost var r := WithoutIndex(path, k);
    RemovingDifferent(path, k);
    assert before.next == item && item.next == after && item != before && item != after;
    item.next.prev := item.prev;
    item.prev.next := item.next;
    forall i, j | 0 <= i && j == i + 1 < |r|
      ensures r[i].next == r[j] && r[j].prev == r[i]
    {
      if i < k - 1 {
        assert path[i] != before && path[j] != after && path[i].next == path[j];
      } else if i >= k {
        assert path[i + 1] != before && path[j + 1] != after && path[i + 1].next == path[j + 1];
      }
    }
  }

  lemma Neighbours<T>(path: seq<ListItem<T>>, k: nat)
    requires Circle(path) && k + 1 < |path|
    ensures path[k].next == path[k + 1] && path[k + 1].prev == path[k]
  {
  }

  function Closed<T>(end: T, items: seq<T>): (path: seq<T>)
    ensures |path| == |items| + 2 && path[0] == end == path[|items| + 1]
    ensures forall i | 0 < i <= |items| :: path[i] == items[i - 1]
  {
    [end] + items + [end]
  }

  lemma ClosedInserted<T>(end: T, items: seq<T>, k: nat, x: T)
    requires k <= |items|
    ensures Closed(end, items[..k] + [x] + items[k..]) == InsertedAfter(Closed(end, items), k, x)
  {
  }

  lemma ClosedRemoved<T>(end: T, items: seq<T>, k: nat)
    requires k < |items|
    ensures Closed(end, items[..k] + items[k + 1..]) == WithoutIndex(Closed(end, items), k + 1)
  {
  }

  lemma Gone<T>(end: ListItem<T>, items: seq<ListItem<T>>, k: nat)
    requires k < |items| && Circle(Closed(end, items))
    ensures var rest := items[..k] + items[k + 1..]; items[k] !in rest && forall n | n in rest :: n in items
  {
    var rest, path := items[..k] + items[k + 1..], Closed(end, items);
    forall i | 0 <= i < |rest|
      ensures rest[i] != items[k] && rest[i] in items
    {
      var j := if i < k then i else i + 1;
      assert rest[i] == items[j] == path[j + 1] && path[k + 1] == items[k];
      assert i < k || path[k + 1] != path[j + 1];
    }
  }

  // Only the end marker is at two places of the path.
  lemma NotItself<T>(path: seq<ListItem<T>>, k: nat)
    requires Circle(path) && 1 <= k < |path|
    ensures path[k] == path[0] <==> k == |path| - 1
    ensures forall i | 0 <= i < |path| && path[i] == path[k] && k < |path| - 1 :: i == k
  {
  }

  class List<T> {
    const end: ListItem<T>
    var index: ListItem<T>
    var number: nat

    // The items in order, and the place of the walking pointer: 0 at the end marker.
    ghost var items: seq<ListItem<T>>
    ghost var pos: nat

    ghost function Path(): (path: seq<ListItem<T>>)
      reads this
      ensures |path| == |items| + 2
    {
      Closed(end, items)
    }

    ghost predicate Valid()
      reads this, end, items
    {
      && Circle(Path())
      && number == |items| && pos <= |items| && index == Path()[pos]
      && end.value == MAX_DELAY && forall n | n in items :: n.container == this && n.value <= MAX_DELAY
    }

    ghost function View(): R.Ring<ListItem<T>>
      reads this
    {
      R.Ring(items, pos)
    }

    // The items with their values.
    ghost function Contents(): (s: seq<R.Item<ListItem<T>>>)
      reads this, items
      ensures |s| == |items| && forall i | 0 <= i < |s| :: s[i] == R.Item(items[i], items[i].value)
    {
      seq(|items|, i requires 0 <= i < |items| reads this, items => R.Item(items[i], items[i].value))
    }

    constructor (owner: T)
      ensures Valid() && View() == R.Ring([], 0) && fresh(end)
    {
      var marker := new ListItem(owner, MAX_DELAY);
      end, index, number, items, pos := marker, marker, 0, [], 0;
      new;
      marker.next, marker.prev := marker, marker;
    }

    // Links an item in behind a node of the list.
    method Link(before: ListItem<T>, item: ListItem<T>, ghost k: nat)
      requires Valid() && k <= |items| && Path()[k] == before
      requires item.container == null && item != end && item !in items && item.value <= MAX_DELAY
      modifies this`items, this`number, this`pos, item`next, item`prev, item`container, end, items
      ensures Valid() && items == old(items)[..k] + [item] + old(items)[k..]
      ensures pos == if k < old(pos) then old(pos) + 1 else old(pos)
      ensures forall n | n in old(items) :: n.value == old(n.value)
    {
      hide Circle, Closed, InsertedAfter;
      ClosedInserted(end, items, k, item);
      item.container := this;
      ghost var path := Path();
      Splice(path, k, before, item, path[k + 1]);
      number := number + 1;
      items := items[..k] + [item] + items[k..];
      pos := if k < pos then pos + 1 else pos;
    }

    method InsertEnd(item: ListItem<T>)
      requires Valid() && item.container == null && item != end && item !in items && item.value <= MAX_DELAY
      modifies this`items, this`number, this`pos, item`next, item`prev, item`container, end, items
      ensures Valid() && View() == R.InsertEnd(old(View()), item)
      ensures forall n | n in old(items) :: n.value == old(n.value)
    {
      hide Circle;
      ghost var k := if pos == 0 then |items| else pos - 1;
      Neighbours(Path(), k);
      Link(index.prev, item, k);
    }

    // The node to insert behind: the last for the greatest value, else found by walking past everything not later.
    method FindSlot(value: nat) returns (spot: ListItem<T>, ghost k: nat)
      requires Valid() && value <= MAX_DELAY
      ensures k == R.Slot(Contents(), value) <= |items| && spot == Path()[k]
    {
      hide Circle, R.Slot;
      ghost var list, path := Contents(), Path();
      spot, k := end, 0;
      hide Contents, Path;
      if value == MAX_DELAY {
        Neighbours(path, |items|);
        spot, k := end.prev, |items|;
      } else {
        Neighbours(path, 0);
        while spot.next.value <= value
          invariant 0 <= k <= |list| && |path| == |list| + 2
          invariant spot == path[k] && spot.next == path[k + 1]
          invariant forall j | 0 <= j < k :: list[j].value <= value
          decreases |list| - k
        {
          assert k < |list|;
          Neighbours(path, k + 1);
          spot, k := spot.next, k + 1;
        }
      }
      SlotIs(list, value, k);
    }

    // The same as a change of the contents.
    method LinkAt(before: ListItem<T>, item: ListItem<T>, ghost k: nat)
      requires Valid() && k <= |items| && Path()[k] == before
      requires item.container == null && item != end && item !in items && item.value <= MAX_DELAY
      modifies this`items, this`number, this`pos, item`next, item`prev, item`container, end, items
      ensures Valid() && k <= |old(Contents())|
      ensures Contents() == old(Contents())[..k] + [R.Item(item, item.value)] + old(Contents())[k..]
      ensures View() == R.InsertAt(R.Ring(old(items), old(pos)), k, item)
      ensures forall n | n in old(items) :: n.value == old(n.value)
    {
      hide Valid;
      ghost var was := Contents();
      Link(before, item, k);
      Spliced(was, Contents(), k, R.Item(item, item.value));
    }

    // Before the first later item, whatever the order of the list.
    method Insert(item: ListItem<T>)
      requires Valid() && item.container == null && item != end && item !in items && item.value <= MAX_DELAY
      modifies this`items, this`number, this`pos, item`next, item`prev, item`container, end, items
      ensures Valid() && Contents() == R.Insert(old(Contents()), R.Item(item, item.value))
      ensures View() == R.InsertAt(R.Ring(old(items), old(pos)), R.Slot(old(Contents()), item.value), item)
      ensures forall n | n in old(items) :: n.value == old(n.value)
    {
      hide Valid, R.Slot, Contents, Path;
      var spot, k := FindSlot(item.value);
      LinkAt(spot, item, k);
    }

    // k is the item's place; the program finds the list through the item's container field.
    method Remove(item: ListItem<T>, ghost k: nat) returns (left: nat)
      requires Valid() && k < |items| && items[k] == item
      modifies this`index, this`items, this`number, this`pos, end, items
      ensures Valid() && View() == R.RemoveAt(old(View()), k) && left == |items|
      ensures item.container == null
      ensures forall n | n in old(items) :: n.value == old(n.value)
    {
      hide Circle, Closed, WithoutIndex;
      ghost var path := Path();
      ClosedRemoved(end, items, k);
      Gone(end, items, k);
      Neighbours(path, k);
      Neighbours(path, k + 1);
      NotItself(path, k + 1);
      Unsplice(path, k + 1, item, path[k], path[k + 2]);
      if index == item { index := item.prev; }
      number := number - 1;
      pos := if k < pos then pos - 1 else pos;
      items := items[..k] + items[k + 1..];
      assert WithoutIndex(path, k + 1)[pos] == if pos <= k then path[pos] else path[pos + 1];
      item.container := null;
      left := number;
    }

    // The owner of the next item from the walking pointer, past the end marker.
    method NextEntry() returns (owner: T)
      requires Valid() && number > 0
      modifies this`index, this`pos
      ensures Valid() && View() == R.Advance(old(View())) && owner == R.Served(View()).owner
    {
      hide Circle;
      Neighbours(Path(), pos);
      index := index.next;
      pos := pos + 1;
      if index == end {
        NotItself(Path(), pos);
        Neighbours(Path(), 0);
        index := index.next;
        pos := 1;
      }
      owner := index.owner;
    }
  }

  lemma Spliced<T>(before: seq<T>, r: seq<T>, k: nat, x: T)
    requires k <= |before| && |r| == |before| + 1 && r[k] == x
    requires forall i | 0 <= i < k :: r[i] == before[i]
    requires forall i | k < i < |r| :: r[i] == before[i - 1]
    ensures r == before[..k] + [x] + before[k..]
  {
  }

  lemma {:induction false} SlotIs<T>(list: seq<R.Item<T>>, value: nat, k: nat)
    requires k <= |list| && (forall j | 0 <= j < k :: list[j].value <= value) && (k < |list| ==> list[k].value > value)
    ensures R.Slot(list, value) == k
  {
    if k > 0 {
      SlotIs(list[1..], value, k - 1);
    }
  }
}
