/**
 Whole runs of a list of list.c: insertions in order and at the end, removals,
 walks and values rewritten in place, in any order, against a sequence of
 items with a walking position.
 */
module ListRuns {
  import opened KernelTypes
  import opened R = Rings
  import opened Lists

  datatype Request<E> =
    | AtEnd(x: E)
    | InOrder(x: E)
    | TakeOut(x: E)
    | Rewrite(x: E, value: nat)
    | Walk

  // The items in the list, and the values of all items, listed or not.
  datatype Line<E> = Line(ring: WalkedRing<E>, values: map<E, nat>)

  ghost predicate Once<E>(items: seq<E>) {
    forall i, j | 0 <= i < j < |items| :: items[i] != items[j]
  }

  ghost predicate Proper<E>(line: Line<E>) {
    Once(line.ring.items) && forall x | x in line.ring.items :: x in line.values
  }

  lemma OneMore<E>(ring: WalkedRing<E>, k: nat, x: E)
    requires k <= |ring.items|
    ensures forall y :: y in R.InsertAt(ring, k, x).items <==> y == x || y in ring.items
    ensures Once(ring.items) && x !in ring.items ==> Once(R.InsertAt(ring, k, x).items)
    ensures R.InsertEnd(ring, x) == R.InsertAt(ring, if ring.pos == 0 then |ring.items| else ring.pos - 1, x)
  {
    hide Once, R.InsertEnd;
    MoreItems(ring.items, k, x);
    MoreOnce(ring.items, k, x);
    EndIsPlace(ring, x);
  }

  lemma MoreItems<E>(items: seq<E>, k: nat, x: E)
    requires k <= |items|
    ensures forall y :: y in items[..k] + [x] + items[k..] <==> y == x || y in items
  {
    assert items == items[..k] + items[k..];
  }

  lemma MoreOnce<E>(items: seq<E>, k: nat, x: E)
    requires k <= |items|
    ensures Once(items) && x !in items ==> Once(items[..k] + [x] + items[k..])
  {
    var r := items[..k] + [x] + items[k..];
    assert forall i | 0 <= i < |r| :: r[i] == if i < k then items[i] else if i == k then x else items[i - 1];
  }

  lemma EndIsPlace<E>(ring: WalkedRing<E>, x: E)
    ensures R.InsertEnd(ring, x) == R.InsertAt(ring, if ring.pos == 0 then |ring.items| else ring.pos - 1, x)
  {
    var items := ring.items;
    assert items[..|items|] == items && items[|items|..] == [];
  }

  lemma OneLess<E>(ring: WalkedRing<E>, k: nat)
    requires k < |ring.items| && Once(ring.items)
    ensures forall y :: y in R.RemoveAt(ring, k).items <==> y in ring.items && y != ring.items[k]
    ensures Once(R.RemoveAt(ring, k).items)
  {
    var items := ring.items;
    assert items == items[..k] + [items[k]] + items[k + 1..];
  }

  ghost function Valued<E>(items: seq<E>, values: map<E, nat>): (s: seq<R.Item<E>>)
    requires forall x | x in items :: x in values
    ensures |s| == |items|
  {
    seq(|items|, i requires 0 <= i < |items| => R.Item(items[i], values[items[i]]))
  }

  ghost function FirstAt<E>(items: seq<E>, x: E): (i: nat)
    requires x in items
    ensures i < |items| && items[i] == x
  {
    if items[0] == x then 0 else 1 + FirstAt(items[1..], x)
  }

  // What a caller of list.c has to see to.
  ghost predicate Legal<E>(line: Line<E>, request: Request<E>) {
    match request
    case AtEnd(x) => x in line.values && x !in line.ring.items
    case InOrder(x) => x in line.values && x !in line.ring.items
    case TakeOut(x) => x in line.ring.items
    case Rewrite(x, value) => x in line.values && value <= MAX_DELAY
    case Walk => line.ring.items != []
  }

  ghost function Serve<E>(line: Line<E>, request: Request<E>): (r: Line<E>)
    requires Proper(line) && Legal(line, request)
    ensures Proper(r)
  {
    match request
    case AtEnd(x) =>
      OneMore(line.ring, if line.ring.pos == 0 then |line.ring.items| else line.ring.pos - 1, x);
      line.(ring := R.InsertEnd(line.ring, x))
    case InOrder(x) =>
      var k := R.Slot(Valued(line.ring.items, line.values), line.values[x]);
      OneMore(line.ring, k, x);
      line.(ring := R.InsertAt(line.ring, k, x))
    case TakeOut(x) =>
      var k := FirstAt(line.ring.items, x);
      OneLess(line.ring, k);
      line.(ring := R.RemoveAt(line.ring, k))
    case Rewrite(x, value) => line.(values := line.values[x := value])
    case Walk => line.(ring := R.Advance(line.ring))
  }

  ghost predicate AllLegal<E>(line: Line<E>, requests: seq<Request<E>>)
    requires Proper(line)
    decreases |requests|
  {
    requests != [] ==> Legal(line, requests[0]) && AllLegal(Serve(line, requests[0]), requests[1..])
  }

  ghost function ServeAll<E>(line: Line<E>, requests: seq<Request<E>>): (r: Line<E>)
    requires Proper(line) && AllLegal(line, requests)
    ensures Proper(r)
    decreases |requests|
  {
    if requests == [] then line else ServeAll(Serve(line, requests[0]), requests[1..])
  }

  // ---- Lists in order stay in order ----

  // Nothing is put at the end, and no listed item gets another value.
  ghost predicate KeepsOrder<E>(line: Line<E>, request: Request<E>) {
    !request.AtEnd? && (request.Rewrite? ==> request.x !in line.ring.items)
  }

  ghost predicate AllKeepOrder<E>(line: Line<E>, requests: seq<Request<E>>)
    requires Proper(line) && AllLegal(line, requests)
    decreases |requests|
  {
    requests != [] ==> KeepsOrder(line, requests[0]) && AllKeepOrder(Serve(line, requests[0]), requests[1..])
  }

  ghost predicate InOrderLine<E>(line: Line<E>)
    requires Proper(line)
  {
    Sorted(Valued(line.ring.items, line.values))
  }

  lemma StepInOrder<E>(line: Line<E>, request: Request<E>)
    requires Proper(line) && Legal(line, request) && KeepsOrder(line, request) && InOrderLine(line)
    ensures InOrderLine(Serve(line, request))
  {
    hide R.Slot, R.Insert, Sorted;
    var was := Valued(line.ring.items, line.values);
    match request
    case InOrder(x) =>
      InsertedValues(line, R.Slot(was, line.values[x]), x);
      InsertSorted(was, R.Item(x, line.values[x]));
      InsertIs(was, R.Item(x, line.values[x]));
    case TakeOut(x) => RemovedInOrder(line, FirstAt(line.ring.items, x));
    case Rewrite(x, value) => assert Valued(line.ring.items, line.values[x := value]) == was;
    case Walk =>
  }

  lemma InsertIs<T>(list: seq<R.Item<T>>, x: R.Item<T>)
    ensures var k := R.Slot(list, x.value); R.Insert(list, x) == list[..k] + [x] + list[k..]
  {
  }

  lemma InsertedValues<E>(line: Line<E>, k: nat, x: E)
    requires Proper(line) && k <= |line.ring.items| && x in line.values
    ensures var r, was := R.InsertAt(line.ring, k, x), Valued(line.ring.items, line.values);
            && (forall y | y in r.items :: y in line.values)
            && Valued(r.items, line.values) == was[..k] + [R.Item(x, line.values[x])] + was[k..]
  {
    OneMore(line.ring, k, x);
    var r, was := R.InsertAt(line.ring, k, x), Valued(line.ring.items, line.values);
    var expected := was[..k] + [R.Item(x, line.values[x])] + was[k..];
    forall i | 0 <= i < |r.items|
      ensures Valued(r.items, line.values)[i] == expected[i]
    {
      assert r.items[i] == if i < k then line.ring.items[i] else if i == k then x else line.ring.items[i - 1];
    }
  }

  lemma RemovedInOrder<E>(line: Line<E>, k: nat)
    requires Proper(line) && k < |line.ring.items| && InOrderLine(line)
    ensures var r := line.(ring := R.RemoveAt(line.ring, k)); Proper(r) && InOrderLine(r)
  {
    OneLess(line.ring, k);
    var was, r := Valued(line.ring.items, line.values), R.RemoveAt(line.ring, k);
    assert forall i | 0 <= i < |r.items| :: Valued(r.items, line.values)[i] == was[if i < k then i else i + 1];
  }

  // A list filled by sorted insertion stays sorted over any run of sorted insertions, removals and walks.
  lemma {:induction false} RunInOrder<E>(line: Line<E>, requests: seq<Request<E>>)
    requires Proper(line) && AllLegal(line, requests) && AllKeepOrder(line, requests) && InOrderLine(line)
    ensures InOrderLine(ServeAll(line, requests))
    decreases |requests|
  {
    hide Serve, Legal, KeepsOrder, InOrderLine;
    if requests != [] {
      StepInOrder(line, requests[0]);
      RunInOrder(Serve(line, requests[0]), requests[1..]);
    }
  }

  // ---- The object ----

  // The list is in order as an object and holds what the line says; pool is every item in play.
  ghost predicate Agrees<T(!new)>(list: List<T>, pool: set<ListItem<T>>, line: Line<ListItem<T>>)
    reads list, list.end, list.items, pool
  {
    && list.Valid() && list.View() == line.ring && line.values.Keys == pool && list.end !in pool
    && (forall n | n in list.items :: n in pool)
    && forall n | n in pool :: n.value == line.values[n] <= MAX_DELAY && (n !in list.items ==> n.container == null)
  }

  method ServeAtEnd<T(!new)>(list: List<T>, x: ListItem<T>, ghost pool: set<ListItem<T>>, ghost line: Line<ListItem<T>>)
    requires Proper(line) && Agrees(list, pool, line) && Legal(line, AtEnd(x))
    modifies list, list.end, pool
    ensures Agrees(list, pool, Serve(line, AtEnd(x)))
  {
    hide List.Valid, Once, R.InsertEnd;
    OneMore(line.ring, if line.ring.pos == 0 then |line.ring.items| else line.ring.pos - 1, x);
    list.InsertEnd(x);
  }

  method ServeInOrder<T(!new)>(list: List<T>, x: ListItem<T>, ghost pool: set<ListItem<T>>, ghost line: Line<ListItem<T>>)
    requires Proper(line) && Agrees(list, pool, line) && Legal(line, InOrder(x))
    modifies list, list.end, pool
    ensures Agrees(list, pool, Serve(line, InOrder(x)))
  {
    hide List.Valid, R.Slot, Once, R.InsertAt;
    assert list.Contents() == Valued(line.ring.items, line.values);
    OneMore(line.ring, R.Slot(Valued(line.ring.items, line.values), line.values[x]), x);
    list.Insert(x);
  }

  method ServeTakeOut<T(!new)>(list: List<T>, x: ListItem<T>, ghost pool: set<ListItem<T>>, ghost line: Line<ListItem<T>>)
    requires Proper(line) && Agrees(list, pool, line) && Legal(line, TakeOut(x))
    modifies list, list.end, pool
    ensures Agrees(list, pool, Serve(line, TakeOut(x)))
  {
    hide List.Valid;
    OneLess(line.ring, FirstAt(line.ring.items, x));
    var _ := list.Remove(x, FirstAt(list.items, x));
  }

  // A value may change while the item is listed; the list is not sorted again.
  method ServeRewrite<T(!new)>(list: List<T>, x: ListItem<T>, value: nat, ghost pool: set<ListItem<T>>,
                               ghost line: Line<ListItem<T>>)
    requires Proper(line) && Agrees(list, pool, line) && Legal(line, Rewrite(x, value))
    modifies list, list.end, pool
    ensures Agrees(list, pool, Serve(line, Rewrite(x, value)))
  {
    x.value := value;
  }

  method ServeOne<T(!new)>(list: List<T>, request: Request<ListItem<T>>, ghost pool: set<ListItem<T>>,
                           ghost line: Line<ListItem<T>>)
    requires Proper(line) && Agrees(list, pool, line) && Legal(line, request)
    modifies list, list.end, pool
    ensures Agrees(list, pool, Serve(line, request))
  {
    hide List.Valid, Proper;
    match request
    case AtEnd(x) => ServeAtEnd(list, x, pool, line);
    case InOrder(x) => ServeInOrder(list, x, pool, line);
    case TakeOut(x) => ServeTakeOut(list, x, pool, line);
    case Rewrite(x, value) => ServeRewrite(list, x, value, pool, line);
    case Walk =>
      Listed(list);
      var _ := list.NextEntry();
  }

  lemma Listed<T(!new)>(list: List<T>)
    requires list.Valid()
    ensures list.number == |list.items|
  {
  }

  // Over any run the links form one ring through the end marker with the right count and containers, and the list
  // holds and walks what the sequence says.
  method ServeRequests<T(!new)>(list: List<T>, requests: seq<Request<ListItem<T>>>, ghost pool: set<ListItem<T>>,
                                ghost start: Line<ListItem<T>>)
    requires Proper(start) && Agrees(list, pool, start) && AllLegal(start, requests)
    modifies list, list.end, pool
    ensures Agrees(list, pool, ServeAll(start, requests))
  {
    hide Agrees, Serve, Legal, Proper;
    ghost var line := start;
    for i := 0 to |requests|
      invariant Proper(line) && Agrees(list, pool, line) && AllLegal(line, requests[i..])
      invariant ServeAll(line, requests[i..]) == ServeAll(start, requests)
    {
      assert requests[i..][0] == requests[i] && requests[i..][1..] == requests[i + 1..];
      ServeOne(list, requests[i], pool, line);
      line := Serve(line, requests[i]);
    }
    assert requests[|requests|..] == [];
  }
}
