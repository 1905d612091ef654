/**
 The queue object of queue.c: items in a ring between two positions, two
 lock counts and two event lists, updated in place. Every critical section
 is proved against a bounded double-ended queue of items and against the
 section the blocking protocol is built from.
 */
module QueueRing {
  import P = QueueProtocol
  import opened KernelTypes
  import opened Options

  datatype Position = Back | Front | Overwrite

  // ---- The bounded double-ended queue ----

  function Placed<T>(items: seq<T>, item: T, position: Position): seq<T> {
    match position
    case Back => items + [item]
    case Front => [item] + items
    case Overwrite => [item]
  }

  predicate Accepts<T>(items: seq<T>, length: nat, position: Position) {
    |items| < length || position == Overwrite
  }

  datatype Request<T> = Put(item: T, position: Position) | Get | Peek | Reset

  datatype Reply<T> = Sent(accepted: bool) | Found(found: Option<T>) | Emptied

  // How an item left the queue.
  datatype Departure<T> = Received(item: T) | Dropped(item: T)

  // accepted and departed are in the order of events, one reply for every request.
  datatype History<T> = History(items: seq<T>, accepted: seq<T>, departed: seq<Departure<T>>, replies: seq<Reply<T>>)

  function Drops<T>(items: seq<T>): (r: seq<Departure<T>>)
    ensures |r| == |items|
  {
    seq(|items|, i requires 0 <= i < |items| => Dropped(items[i]))
  }

  // Overwriting drops what is held, and so does a reset.
  function Serve<T>(h: History<T>, length: nat, request: Request<T>): History<T> {
    match request
    case Put(item, position) =>
      if Accepts(h.items, length, position)
      then History(Placed(h.items, item, position), h.accepted + [item],
                   if position == Overwrite then h.departed + Drops(h.items) else h.departed, h.replies + [Sent(true)])
      else h.(replies := h.replies + [Sent(false)])
    case Get =>
      if h.items == [] then h.(replies := h.replies + [Found(None)])
      else h.(items := h.items[1..], departed := h.departed + [Received(h.items[0])],
              replies := h.replies + [Found(Some(h.items[0]))])
    case Peek => h.(replies := h.replies + [Found(if h.items == [] then None else Some(h.items[0]))])
    case Reset => h.(items := [], departed := h.departed + Drops(h.items), replies := h.replies + [Emptied])
  }

  function ServeAll<T>(h: History<T>, length: nat, requests: seq<Request<T>>): History<T>
    decreases |requests|
  {
    if requests == [] then h else ServeAll(Serve(h, length, requests[0]), length, requests[1..])
  }

  // The items that have left, received or not.
  function Gone<T>(departed: seq<Departure<T>>): (items: seq<T>)
    ensures |items| == |departed| && forall i | 0 <= i < |items| :: items[i] == departed[i].item
  {
    seq(|departed|, i requires 0 <= i < |departed| => departed[i].item)
  }

  function ReceivedOf<T>(departed: seq<Departure<T>>): seq<T> {
    if departed == [] then []
    else
      var last := departed[|departed| - 1];
      ReceivedOf(departed[..|departed| - 1]) + (if last.Received? then [last.item] else [])
  }

  lemma {:induction false} DropsReceiveNothing<T>(departed: seq<Departure<T>>, items: seq<T>)
    ensures ReceivedOf(departed + Drops(items)) == ReceivedOf(departed)
    decreases |items|
  {
    var all, n := departed + Drops(items), |items|;
    if items == [] {
      assert all == departed;
    } else {
      assert all[..|all| - 1] == departed + Drops(items[..n - 1]);
      DropsReceiveNothing(departed, items[..n - 1]);
    }
  }

  lemma OneReceived<T>(departed: seq<Departure<T>>, item: T)
    ensures ReceivedOf(departed + [Received(item)]) == ReceivedOf(departed) + [item]
  {
    assert (departed + [Received(item)])[..|departed|] == departed;
  }

  // Unless something is sent to the front, items leave in the order in which they were accepted, whether received,
  // overwritten or dropped by a reset; and never more than fit are held.
  lemma {:induction false} FirstInFirstOut<T>(h: History<T>, length: nat, requests: seq<Request<T>>)
    requires Gone(h.departed) + h.items == h.accepted && |h.items| <= length && length >= 1
    requires forall i | 0 <= i < |requests| :: requests[i].Put? ==> requests[i].position != Front
    ensures var h' := ServeAll(h, length, requests); Gone(h'.departed) + h'.items == h'.accepted && |h'.items| <= length
    decreases |requests|
  {
    if requests != [] {
      var next := Serve(h, length, requests[0]);
      GoneMore(h.departed, h.items);
      if requests[0].Get? && h.items != [] {
        assert h.items == [h.items[0]] + h.items[1..];
        assert Gone(next.departed) == Gone(h.departed) + [h.items[0]];
      }
      assert Gone(next.departed) + next.items == next.accepted;
      FirstInFirstOut(next, length, requests[1..]);
    }
  }

  lemma GoneMore<T>(departed: seq<Departure<T>>, items: seq<T>)
    ensures Gone(departed + Drops(items)) == Gone(departed) + items
  {
  }

  // Whatever is requested, every item accepted has left or is held, and nothing else.
  lemma {:induction false} NothingLost<T>(h: History<T>, length: nat, requests: seq<Request<T>>)
    requires multiset(Gone(h.departed)) + multiset(h.items) == multiset(h.accepted)
    ensures var h' := ServeAll(h, length, requests);
            multiset(Gone(h'.departed)) + multiset(h'.items) == multiset(h'.accepted)
    decreases |requests|
  {
    if requests != [] {
      var next := Serve(h, length, requests[0]);
      GoneMore(h.departed, h.items);
      if requests[0].Get? && h.items != [] {
        assert h.items == [h.items[0]] + h.items[1..];
        assert Gone(next.departed) == Gone(h.departed) + [h.items[0]];
      }
      assert multiset(Gone(next.departed)) + multiset(next.items) == multiset(next.accepted);
      NothingLost(next, length, requests[1..]);
    }
  }

  // ---- When requests succeed ----

  function Sends<T>(xs: seq<T>): (r: seq<Request<T>>)
    ensures |r| == |xs|
  {
    seq(|xs|, i requires 0 <= i < |xs| => Put(xs[i], Back))
  }

  function Gets<T>(n: nat): (r: seq<Request<T>>)
    ensures |r| == n
  {
    seq(n, _ => Get)
  }

  function Accepted<T>(n: nat): seq<Reply<T>> {
    seq(n, _ => Sent(true))
  }

  // Sends to the back are accepted one after the other as long as there are free places.
  lemma {:induction false} FillsUp<T>(h: History<T>, length: nat, xs: seq<T>)
    requires |h.items| + |xs| <= length
    ensures var h' := ServeAll(h, length, Sends(xs));
            h'.items == h.items + xs && h'.replies == h.replies + Accepted(|xs|)
    decreases |xs|
  {
    if xs == [] {
      assert h.items + xs == h.items && h.replies + Accepted(0) == h.replies;
    } else {
      var next := Serve(h, length, Put(xs[0], Back));
      assert Sends(xs)[1..] == Sends(xs[1..]);
      FillsUp(next, length, xs[1..]);
      assert h.items + [xs[0]] + xs[1..] == h.items + xs;
      assert h.replies + [Sent(true)] + Accepted(|xs| - 1) == h.replies + Accepted(|xs|);
    }
  }

  // A send is refused exactly when all places are taken; to overwrite is never refused.
  lemma RefusedWhenFull<T>(h: History<T>, length: nat, item: T, position: Position)
    requires |h.items| <= length
    ensures var h' := Serve(h, length, Put(item, position));
            if |h.items| == length && position != Overwrite then h' == h.(replies := h.replies + [Sent(false)])
            else h'.replies == h.replies + [Sent(true)] && h'.accepted == h.accepted + [item]
  {
  }

  function Delivered<T>(items: seq<T>): seq<Reply<T>> {
    seq(|items|, i requires 0 <= i < |items| => Found(Some(items[i])))
  }

  // What is held is received item by item, and then nothing.
  lemma {:induction false} DrainsDown<T>(h: History<T>, length: nat)
    ensures var n := |h.items|;
            && ServeAll(h, length, Gets(n)).items == []
            && ServeAll(h, length, Gets(n)).replies == h.replies + Delivered(h.items)
            && ServeAll(h, length, Gets(n + 1)).replies == h.replies + Delivered(h.items) + [Found(None)]
    decreases |h.items|
  {
    var n := |h.items|;
    if n == 0 {
      assert Gets<T>(1)[1..] == [] && Gets<T>(0) == [];
      assert h.replies + Delivered(h.items) == h.replies;
    } else {
      var next := Serve(h, length, Get);
      assert Gets<T>(n)[1..] == Gets(n - 1) && Gets<T>(n + 1)[1..] == Gets(n);
      DrainsDown(next, length);
      assert h.replies + [Found(Some(h.items[0]))] + Delivered(h.items[1..]) == h.replies + Delivered(h.items);
    }
  }

  // What is sent to the front is received next; what overwrites is received next, and nothing after it.
  lemma FrontIsNext<T>(h: History<T>, length: nat, item: T)
    ensures |h.items| < length ==>
              var h' := Serve(Serve(h, length, Put(item, Front)), length, Get);
              h'.items == h.items && h'.replies == h.replies + [Sent(true)] + [Found(Some(item))]
    ensures var h' := Serve(Serve(h, length, Put(item, Overwrite)), length, Get);
            h'.items == [] && h'.replies == h.replies + [Sent(true)] + [Found(Some(item))]
  {
  }

  // Peeking shows what would be received, and a reset leaves nothing to receive.
  lemma PeekShowsNext<T>(h: History<T>, length: nat)
    ensures Serve(h, length, Peek).replies == Serve(h, length, Get).replies
    ensures Serve(h, length, Peek).items == h.items
    ensures Serve(h, length, Reset).items == []
    ensures Serve(Serve(h, length, Reset), length, Get).replies == h.replies + [Emptied] + [Found(None)]
  {
  }

  // The ring and the blocking protocol agree on when a queue is full, and when it is empty.
  lemma SameFullness<T>(c: P.Config, s: P.State, items: seq<T>)
    requires s.q.n == |items|
    ensures P.Succeeds(c, s, P.Send) <==> Accepts(items, c.length, Back)
    ensures P.Succeeds(c, s, P.Send) <==> Accepts(items, c.length, Front)
    ensures P.Succeeds(c, s, P.Overwrite) <==> Accepts(items, c.length, Overwrite)
    ensures P.Succeeds(c, s, P.Receive) <==> items != []
    ensures P.Succeeds(c, s, P.Peek) <==> items != []
    ensures P.Succeeds(c, s, P.Send) <==> |items| < c.length
  {
  }

  // ---- Items around the end of the storage ----

  function Wrap(length: nat, i: nat): nat {
    if i >= length then i - length else i
  }

  function RingItems<T>(storage: seq<T>, first: nat, n: nat): (items: seq<T>)
    requires first < |storage| && n <= |storage|
    ensures |items| == n && forall i | 0 <= i < n :: items[i] == storage[Wrap(|storage|, first + i)]
  {
    seq(n, i requires 0 <= i < n => storage[Wrap(|storage|, first + i)])
  }

  lemma AppendRing<T>(storage: seq<T>, first: nat, n: nat, item: T)
    requires first < |storage| && n < |storage|
    ensures RingItems(storage[Wrap(|storage|, first + n) := item], first, n + 1) == RingItems(storage, first, n) + [item]
  {
  }

  lemma PrependRing<T>(storage: seq<T>, first: nat, n: nat, item: T)
    requires first < |storage| && n < |storage|
    ensures var p := if first == 0 then |storage| - 1 else first - 1;
            RingItems(storage[p := item], p, n + 1) == [item] + RingItems(storage, first, n)
  {
  }

  lemma DropRing<T>(storage: seq<T>, first: nat, n: nat)
    requires first < |storage| && 0 < n <= |storage|
    ensures RingItems(storage, first, n)[0] == storage[first]
    ensures RingItems(storage, Wrap(|storage|, first + 1), n - 1) == RingItems(storage, first, n)[1..]
  {
  }

  // ---- The object ----

  class Queue<T> {
    const length: nat
    const storage: array<T>

    var writeTo: nat
    var readFrom: nat
    var messages: nat
    var txLock: int
    var rxLock: int
    var receivers: seq<Task>
    var senders: seq<Task>

    ghost predicate Valid()
      reads this
    {
      && storage.Length == length >= 1
      && writeTo < length && readFrom < length && messages <= length
      && writeTo == Wrap(length, First() + messages)
    }

    ghost function First(): nat
      reads this
    {
      Wrap(length, readFrom + 1)
    }

    // The items from the read position to the write position.
    ghost function Items(): (items: seq<T>)
      requires Valid()
      reads this, storage
      ensures |items| == messages
    {
      RingItems(storage[..], First(), messages)
    }

    ghost function View(): P.Queue
      reads this
    {
      P.Queue(messages, txLock, rxLock, receivers, senders)
    }

    constructor (length: nat, blank: T)
      requires length >= 1
      ensures Valid() && this.length == length && fresh(storage)
      ensures Items() == [] && View() == P.Queue(0, P.UNLOCKED, P.UNLOCKED, [], [])
    {
      this.length := length;
      storage := new T[length](_ => blank);
      writeTo, readFrom, messages := 0, length - 1, 0;
      txLock, rxLock, receivers, senders := P.UNLOCKED, P.UNLOCKED, [], [];
    }

    // Stores at the write position and advances it.
    method WriteBack(item: T)
      requires Valid() && messages < length
      modifies this`writeTo, this`messages, storage
      ensures Valid() && Items() == old(Items()) + [item]
    {
      hide RingItems;
      ghost var first := First();
      AppendRing(storage[..], first, messages, item);
      storage[writeTo] := item;
      assert storage[..] == old(storage[..])[Wrap(length, first + messages) := item];
      writeTo := writeTo + 1;
      if writeTo >= length { writeTo := 0; }
      messages := messages + 1;
    }

    // Stores at the read position and moves it back; kept is the number of items that stay.
    method WriteFront(item: T, kept: nat)
      requires Valid() && kept <= messages && kept < length && (kept == messages || (kept == 0 && length == 1))
      modifies this`readFrom, this`messages, storage
      ensures Valid() && Items() == [item] + (if kept == 0 then [] else old(Items()))
    {
      hide RingItems;
      PrependRing(storage[..], First(), kept, item);
      storage[readFrom] := item;
      readFrom := if readFrom < 1 then length - 1 else readFrom - 1;
      messages := kept + 1;
    }

    method CopyDataToQueue(item: T, position: Position)
      requires Valid() && (messages < length || position == Overwrite) && (position == Overwrite ==> length == 1)
      modifies this`writeTo, this`readFrom, this`messages, storage
      ensures Valid() && Items() == Placed(old(Items()), item, position)
    {
      hide RingItems, Wrap;
      if position == Back {
        WriteBack(item);
      } else if position == Overwrite && messages > 0 {
        WriteFront(item, messages - 1);
      } else {
        WriteFront(item, messages);
      }
    }

    // Advances the read position to the oldest item and copies it; the caller corrects the count.
    method CopyDataFromQueue() returns (item: T)
      requires Valid() && messages > 0
      modifies this`readFrom
      ensures item == old(Items())[0] && readFrom == old(First())
      ensures RingItems(storage[..], First(), messages - 1) == old(Items())[1..]
    {
      hide RingItems;
      DropRing(storage[..], First(), messages);
      readFrom := readFrom + 1;
      if readFrom >= length { readFrom := 0; }
      item := storage[readFrom];
    }

    // Takes the head of an event list, if there is one.
    method WakeReceiver()
      modifies this`receivers
      ensures receivers == P.Rest(old(receivers))
    {
      if receivers != [] { receivers := receivers[1..]; }
    }

    method WakeSender()
      modifies this`senders
      ensures senders == P.Rest(old(senders))
    {
      if senders != [] { senders := senders[1..]; }
    }

    method TrySend(item: T, position: Position) returns (sent: bool)
      requires Valid() && (position == Overwrite ==> length == 1)
      modifies this, storage
      ensures Valid()
      ensures sent <==> |old(Items())| < length || position == Overwrite
      ensures sent ==> Items() == Placed(old(Items()), item, position)
      ensures sent ==> View() == P.Post(old(View()), position == Overwrite)
      ensures !sent ==> Items() == old(Items()) && View() == old(View())
    {
      hide RingItems;
      sent := messages < length || position == Overwrite;
      if sent {
        CopyDataToQueue(item, position);
        WakeReceiver();
      }
    }

    method SendFromISR(item: T, position: Position, tasks: nat) returns (sent: bool)
      requires Valid() && (position == Overwrite ==> length == 1)
      modifies this, storage
      ensures Valid()
      ensures sent <==> |old(Items())| < length || position == Overwrite
      ensures sent ==> Items() == Placed(old(Items()), item, position)
      ensures sent ==> View() == P.PostFromISR(old(View()), position == Overwrite, tasks)
      ensures !sent ==> Items() == old(Items()) && View() == old(View())
    {
      hide RingItems;
      sent := messages < length || position == Overwrite;
      if sent {
        var lock := txLock;
        CopyDataToQueue(item, position);
        if lock == P.UNLOCKED {
          WakeReceiver();
        } else if lock < tasks {
          txLock := lock + 1;
        }
      }
    }

    method TryReceive() returns (item: Option<T>)
      requires Valid()
      modifies this
      ensures Valid()
      ensures item.Some? <==> old(Items()) != []
      ensures item.Some? ==> [item.value] + Items() == old(Items()) && View() == P.Take(old(View()))
      ensures item.None? ==> Items() == old(Items()) && View() == old(View())
    {
      hide RingItems;
      item := None;
      var waiting := messages;
      if waiting > 0 {
        var oldest := CopyDataFromQueue();
        item := Some(oldest);
        messages := waiting - 1;
        WakeSender();
      }
    }

    method ReceiveFromISR(tasks: nat) returns (item: Option<T>)
      requires Valid()
      modifies this
      ensures Valid()
      ensures item.Some? <==> old(Items()) != []
      ensures item.Some? ==> [item.value] + Items() == old(Items()) && View() == P.TakeFromISR(old(View()), tasks)
      ensures item.None? ==> Items() == old(Items()) && View() == old(View())
    {
      hide RingItems;
      item := None;
      var waiting := messages;
      if waiting > 0 {
        var lock := rxLock;
        var oldest := CopyDataFromQueue();
        item := Some(oldest);
        messages := waiting - 1;
        if lock == P.UNLOCKED {
          WakeSender();
        } else if lock < tasks {
          rxLock := lock + 1;
        }
      }
    }

    method TryPeek() returns (item: Option<T>)
      requires Valid()
      modifies this
      ensures Valid() && Items() == old(Items())
      ensures item == if old(Items()) == [] then None else Some(old(Items())[0])
      ensures View() == if old(Items()) == [] then old(View()) else P.Look(old(View()))
    {
      hide RingItems;
      item := None;
      if messages > 0 {
        var original := readFrom;
        var oldest := CopyDataFromQueue();
        readFrom := original;
        item := Some(oldest);
        WakeReceiver();
      }
    }

    method LockQueue()
      requires Valid()
      modifies this`txLock, this`rxLock
      ensures Valid() && Items() == old(Items()) && View() == P.Lock(old(View()))
    {
      if rxLock == P.UNLOCKED { rxLock := 0; }
      if txLock == P.UNLOCKED { txLock := 0; }
    }

    // Replays the posts counted while the queue was locked, until nobody is left to wake.
    method UnlockTransmit()
      requires Valid() && txLock >= 0
      modifies this`txLock, this`receivers
      ensures Valid() && Items() == old(Items()) && View() == P.UnlockTx(old(View()))
    {
      var count := txLock;
      ghost var woken := 0;
      while count > 0
        invariant 0 <= count == old(txLock) - woken && woken <= |old(receivers)|
        invariant receivers == old(receivers)[woken..]
        decreases count
      {
        if receivers == [] { break; }
        WakeReceiver();
        count, woken := count - 1, woken + 1;
      }
      txLock := P.UNLOCKED;
    }

    method UnlockReceive()
      requires Valid() && rxLock >= 0
      modifies this`rxLock, this`senders
      ensures Valid() && Items() == old(Items()) && View() == P.UnlockRx(old(View()))
    {
      var count := rxLock;
      ghost var woken := 0;
      while count > 0
        invariant 0 <= count == old(rxLock) - woken && woken <= |old(senders)|
        invariant senders == old(senders)[woken..]
        decreases count
      {
        if senders == [] { break; }
        WakeSender();
        count, woken := count - 1, woken + 1;
      }
      rxLock := P.UNLOCKED;
    }

    method Reset(created: bool)
      requires Valid()
      modifies this
      ensures Valid() && Items() == []
      ensures View() == P.Queue(0, P.UNLOCKED, P.UNLOCKED, if created then [] else old(receivers),
                                if created then [] else P.Rest(old(senders)))
    {
      messages, writeTo, readFrom := 0, 0, length - 1;
      txLock, rxLock := P.UNLOCKED, P.UNLOCKED;
      if !created {
        WakeSender();
      } else {
        receivers, senders := [], [];
      }
    }

    // ---- Whole runs of the object ----

    method ServeOne(request: Request<T>, ghost h: History<T>) returns (reply: Reply<T>)
      requires Valid() && h.items == Items() && (request.Put? && request.position == Overwrite ==> length == 1)
      modifies this, storage
      ensures Valid() && Items() == Serve(h, length, request).items
      ensures Serve(h, length, request).replies == h.replies + [reply]
      ensures ReceivedOf(Serve(h, length, request).departed)
           == ReceivedOf(h.departed) + (if request.Get? && reply.Found? && reply.found.Some? then [reply.found.value] else [])
    {
      hide RingItems, ReceivedOf;
      DropsReceiveNothing(h.departed, h.items);
      match request
      case Put(item, position) =>
        var sent := TrySend(item, position);
        reply := Sent(sent);
      case Get =>
        var item := TryReceive();
        if item.Some? {
          OneReceived(h.departed, item.value);
        }
        reply := Found(item);
      case Peek =>
        var item := TryPeek();
        reply := Found(item);
      case Reset =>
        Reset(false);
        reply := Emptied;
    }

    // Over any sequence of requests the ring answers, receives and holds what the double-ended queue would.
    method ServeRequests(requests: seq<Request<T>>) returns (replies: seq<Reply<T>>, received: seq<T>)
      requires Valid()
      requires forall i | 0 <= i < |requests| :: requests[i].Put? && requests[i].position == Overwrite ==> length == 1
      modifies this, storage
      ensures Valid()
      ensures var h := ServeAll(History(old(Items()), old(Items()), [], []), length, requests);
              Items() == h.items && replies == h.replies && received == ReceivedOf(h.departed)
    {
      hide RingItems, Serve;
      ghost var start := History(Items(), Items(), [], []);
      ghost var h := start;
      replies, received := [], [];
      for i := 0 to |requests|
        invariant Valid() && Items() == h.items && replies == h.replies && received == ReceivedOf(h.departed)
        invariant ServeAll(h, length, requests[i..]) == ServeAll(start, length, requests)
      {
        assert requests[i..][0] == requests[i] && requests[i..][1..] == requests[i + 1..];
        var reply := ServeOne(requests[i], h);
        h := Serve(h, length, requests[i]);
        replies := replies + [reply];
        if requests[i].Get? && reply.Found? && reply.found.Some? { received := received + [reply.found.value]; }
      }
      assert requests[|requests|..] == [];
    }
  }
}
