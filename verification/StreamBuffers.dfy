/**
 The stream buffer object of stream_buffer.c: a byte array with a head and a
 tail, written and read in at most two runs, as a stream of bytes or as framed
 messages.
 */
module StreamBuffers {
  import opened QueueRing
  import opened MessageBuffer
  import opened Sequences

  // Bytes written one after another from a position, around the end of the storage.
  function WriteAll(buffer: seq<Byte>, position: nat, data: seq<Byte>): (r: seq<Byte>)
    requires position < |buffer|
    ensures |r| == |buffer|
    decreases |data|
  {
    if data == [] then buffer else WriteAll(buffer[position := data[0]], Next1(|buffer|, position), data[1..])
  }

  lemma {:induction false} WriteAllAppends(buffer: seq<Byte>, tail: nat, n: nat, data: seq<Byte>)
    requires tail < |buffer| && n + |data| < |buffer|
    ensures RingItems(WriteAll(buffer, Wrap(|buffer|, tail + n), data), tail, n + |data|) == RingItems(buffer, tail, n) + data
    decreases |data|
  {
    hide RingItems;
    if data == [] {
      assert RingItems(buffer, tail, n) + data == RingItems(buffer, tail, n);
    } else {
      var p := Wrap(|buffer|, tail + n);
      AppendRing(buffer, tail, n, data[0]);
      WriteAllAppends(buffer[p := data[0]], tail, n + 1, data[1..]);
      Regroup(RingItems(buffer, tail, n), [data[0]], data[1..]);
      assert [data[0]] + data[1..] == data;
    }
  }

  // The bytes from one place on, and those behind them.
  lemma PartsOfRing(storage: seq<Byte>, first: nat, n: nat, skip: nat, count: nat)
    requires first < |storage| && n < |storage| && skip + count <= n
    ensures var items := RingItems(storage, first, n);
            && RingItems(storage, Wrap(|storage|, first + skip), count) == items[skip..skip + count]
            && RingItems(storage, Wrap(|storage|, first + skip + count), n - skip - count) == items[skip + count..]
  {
    hide RingItems;
    var items, from := RingItems(storage, first, n), Wrap(|storage|, first + skip);
    DropMany(storage, first, n, skip);
    DropMany(storage, first, n, skip + count);
    RingPrefix(storage, from, count, n - skip);
    assert items[skip..][..count] == items[skip..skip + count];
  }

  class StreamBuffer {
    const length: nat
    const isMessageBuffer: bool
    const buffer: array<Byte>
    var head: nat
    var tail: nat

    ghost predicate Valid()
      reads this
    {
      buffer.Length == length && 1 < length <= WORD / 2 && head < length && tail < length
    }

    ghost function Occupied(): (n: nat)
      requires Valid()
      reads this
      ensures n < length && head == Wrap(length, tail + n)
    {
      if head >= tail then head - tail else length + head - tail
    }

    // The bytes sent and not yet received.
    ghost function Contents(): (c: seq<Byte>)
      requires Valid()
      reads this, buffer
      ensures |c| == Occupied()
    {
      RingItems(buffer[..], tail, Occupied())
    }

    constructor (length: nat, isMessageBuffer: bool)
      requires 1 < length <= WORD / 2
      ensures Valid() && Contents() == [] && this.length == length && this.isMessageBuffer == isMessageBuffer && fresh(buffer)
    {
      this.length, this.isMessageBuffer := length, isMessageBuffer;
      buffer := new Byte[length](_ => 0);
      head, tail := 0, 0;
    }

    method BytesInBuffer() returns (count: nat)
      requires Valid()
      ensures count == Occupied()
    {
      count := (length + head - tail) % WORD;
      if count >= length { count := count - length; }
    }

    method SpacesAvailable() returns (space: nat)
      requires Valid()
      ensures space + Occupied() == length - 1
    {
      space := (length + tail - head - 1) % WORD;
      if space >= length { space := space - length; }
    }

    // One run of a copy into the storage: data[from..to] to consecutive positions.
    method CopyIn(data: seq<Byte>, from: nat, to: nat, position: nat)
      requires Valid() && from <= to <= |data| && position + (to - from) <= length
      modifies buffer
      ensures position < length && from < to ==>
                WriteAll(buffer[..], Wrap(length, position + (to - from)), data[to..])
                == WriteAll(old(buffer[..]), position, data[from..])
      ensures from == to ==> buffer[..] == old(buffer[..])
    {
      ghost var start := buffer[..];
      var k := from;
      while k < to
        invariant from <= k <= to
        invariant from == k ==> buffer[..] == start
        invariant position < length && from < to ==>
                    WriteAll(buffer[..], Wrap(length, position + (k - from)), data[k..]) == WriteAll(start, position, data[from..])
      {
        ghost var before := buffer[..];
        buffer[position + (k - from)] := data[k];
        assert buffer[..] == before[position + (k - from) := data[k]];
        assert data[k..][0] == data[k] && data[k..][1..] == data[k + 1..];
        k := k + 1;
      }
    }

    // Writes all the bytes from a position, in two runs if they wrap; answers the position behind them.
    method WriteBytes(data: seq<Byte>, position: nat) returns (next: nat)
      requires Valid() && data != [] && |data| < length && position < length
      modifies buffer
      ensures buffer[..] == WriteAll(old(buffer[..]), position, data) && next == Wrap(length, position + |data|)
    {
      var first := if length - position < |data| then length - position else |data|;
      CopyIn(data, 0, first, position);
      assert data[0..] == data;
      if |data| > first {
        CopyIn(data, first, |data|, 0);
      }
      assert data[|data|..] == [];
      next := position + |data|;
      if next >= length { next := next - length; }
    }

    method ReadBytes(count: nat, position: nat) returns (data: seq<Byte>, next: nat)
      requires Valid() && 0 < count < length && position < length
      ensures data == RingItems(buffer[..], position, count) && next == Wrap(length, position + count)
    {
      var first := if length - position < count then length - position else count;
      data := buffer[position..position + first];
      if count > first {
        data := data + buffer[..count - first];
      }
      next := position + count;
      if next >= length { next := next - length; }
    }

    // A message goes in whole with its length before it or not at all; of a stream, as much as fits.
    method WriteMessageToBuffer(data: seq<Byte>, space: nat, requiredSpace: nat) returns (sent: nat)
      requires Valid() && |data| < WORD - LENGTH_BYTES && space + Occupied() < length
      requires requiredSpace == if isMessageBuffer then |data| + LENGTH_BYTES else Least(|data|, length - 1)
      modifies this`head, buffer
      ensures Valid()
      ensures isMessageBuffer ==>
                if space >= |data| + LENGTH_BYTES then Contents() == old(Contents()) + (if data == [] then [] else Frame(data)) && sent == |data|
                else Contents() == old(Contents()) && sent == 0
      ensures !isMessageBuffer ==> sent == Least(|data|, space) && Contents() == old(Contents()) + data[..sent]
    {
      hide RingItems, WriteAll;
      var nextHead := head;
      sent := |data|;
      if isMessageBuffer {
        if space >= requiredSpace {
          sent := WriteFrame(data);
        } else {
          sent := 0;
        }
      } else {
        sent := if |data| < space then |data| else space;
        if sent != 0 {
          WriteAllAppends(buffer[..], tail, Occupied(), data[..sent]);
          nextHead := WriteBytes(data[..sent], head);
          head := nextHead;
        } else {
          assert Contents() + data[..0] == Contents();
        }
      }
    }

    // The length is copied first; the head moves only when there is data behind it.
    method WriteFrame(data: seq<Byte>) returns (sent: nat)
      requires Valid() && |data| < WORD - LENGTH_BYTES && |data| + LENGTH_BYTES + Occupied() < length
      modifies this`head, buffer
      ensures Valid() && Contents() == old(Contents()) + (if data == [] then [] else Frame(data)) && sent == |data|
    {
      hide RingItems, WriteAll;
      ghost var n, storage, stored := Occupied(), buffer[..], LengthBytes(|data|);
      WriteAllAppends(storage, tail, n, stored);
      var nextHead := WriteBytes(LengthBytes(|data|), head);
      ghost var middle := buffer[..];
      if data != [] {
        WriteAllAppends(middle, tail, n + LENGTH_BYTES, data);
        head := WriteBytes(data, nextHead);
        Regroup(RingItems(storage, tail, n), stored, data);
      } else {
        RingPrefix(middle, tail, n, n + LENGTH_BYTES);
        assert (RingItems(storage, tail, n) + stored)[..n] == RingItems(storage, tail, n);
        assert old(Contents()) + [] == old(Contents());
      }
      sent := |data|;
    }

    method Send(data: seq<Byte>) returns (sent: nat)
      requires Valid() && |data| < WORD - LENGTH_BYTES
      modifies this`head, buffer
      ensures Valid()
      ensures isMessageBuffer ==>
                if |data| + LENGTH_BYTES + |old(Contents())| < length
                then Contents() == old(Contents()) + (if data == [] then [] else Frame(data)) && sent == |data|
                else Contents() == old(Contents()) && sent == 0
      ensures !isMessageBuffer ==>
                sent == Least(|data|, length - 1 - |old(Contents())|) && Contents() == old(Contents()) + data[..sent]
    {
      var required := if isMessageBuffer then |data| + LENGTH_BYTES else Least(|data|, length - 1);
      var space := SpacesAvailable();
      sent := WriteMessageToBuffer(data, space, required);
    }

    // Takes bytes off the front.
    method Consume(skip: nat, count: nat) returns (data: seq<Byte>)
      requires Valid() && 0 < count && skip + count <= Occupied()
      modifies this`tail
      ensures Valid() && data == old(Contents())[skip..skip + count] && Contents() == old(Contents())[skip + count..]
    {
      hide RingItems;
      var from := if tail + skip >= length then tail + skip - length else tail + skip;
      PartsOfRing(buffer[..], tail, Occupied(), skip, count);
      var next;
      data, next := ReadBytes(count, from);
      tail := next;
    }

    // From a message buffer that starts with a whole message: the message, if there is room for it.
    method ReceiveMessage(room: nat, ghost message: seq<Byte>, ghost rest: seq<Byte>) returns (data: seq<Byte>)
      requires Valid() && isMessageBuffer
      requires Contents() == [] || (0 < |message| < WORD && Contents() == Frame(message) + rest)
      modifies this`tail
      ensures Valid()
      ensures old(Contents()) == [] || |message| > room ==> data == [] && Contents() == old(Contents())
      ensures old(Contents()) != [] && |message| <= room ==> data == message && Contents() == rest
    {
      hide RingItems;
      data := [];
      var available := BytesInBuffer();
      if available > LENGTH_BYTES {
        ghost var c := Contents();
        var stored, _ := ReadBytes(LENGTH_BYTES, tail);
        RingPrefix(buffer[..], tail, LENGTH_BYTES, Occupied());
        assert stored == c[..LENGTH_BYTES] == LengthBytes(|message|);
        LengthRoundTrip(|message|);
        var n := LengthOf(stored);
        if n > room { n := 0; }
        var count := if n < available - LENGTH_BYTES then n else available - LENGTH_BYTES;
        if count != 0 {
          data := Consume(LENGTH_BYTES, count);
          assert c[LENGTH_BYTES..LENGTH_BYTES + |message|] == message && c[LENGTH_BYTES + |message|..] == rest;
        }
      }
    }

    method ReceiveBytes(room: nat) returns (data: seq<Byte>)
      requires Valid() && !isMessageBuffer
      modifies this`tail
      ensures Valid() && data + Contents() == old(Contents()) && |data| == Least(room, |old(Contents())|)
    {
      hide RingItems;
      data := [];
      var available := BytesInBuffer();
      if available > 0 {
        var count := if room < available then room else available;
        if count != 0 {
          data := Consume(0, count);
        }
      }
    }
  }
}
