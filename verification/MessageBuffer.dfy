/**
 Message buffers of stream_buffer.c with one writer and one reader whose byte
 copies interleave: the writer publishes the head, and the reader the tail,
 only after their copies.
 */
module MessageBuffer {
  import opened Options
  import opened QueueRing
  import opened Sequences

  type Byte = b: nat | b < 256

  const WORD := 0x1_0000_0000
  const LENGTH_BYTES := 4

  // ---- Framing ----

  // The message length as stored: four bytes, least significant first.
  function LengthBytes(n: nat): (r: seq<Byte>)
    requires n < WORD
    ensures |r| == LENGTH_BYTES
  {
    [n % 256, n / 256 % 256, n / 65536 % 256, n / 16777216]
  }

  function LengthOf(bytes: seq<Byte>): nat
    requires |bytes| == LENGTH_BYTES
  {
    var b0: nat, b1: nat, b2: nat, b3: nat := bytes[0], bytes[1], bytes[2], bytes[3];
    b0 + 256 * b1 + 65536 * b2 + 16777216 * b3
  }

  lemma LengthRoundTrip(n: nat)
    requires n < WORD
    ensures LengthOf(LengthBytes(n)) == n
  {
    assert n / 256 == 256 * (n / 65536) + n / 256 % 256;
    assert n / 65536 == 256 * (n / 16777216) + n / 65536 % 256;
  }

  function Frame(message: seq<Byte>): (r: seq<Byte>)
    requires |message| < WORD
    ensures |r| == LENGTH_BYTES + |message|
  {
    LengthBytes(|message|) + message
  }

  ghost predicate Messages(ms: seq<seq<Byte>>) {
    forall i | 0 <= i < |ms| :: 0 < |ms[i]| < WORD
  }

  function Frames(ms: seq<seq<Byte>>): seq<Byte>
    requires Messages(ms)
  {
    if ms == [] then [] else Frame(ms[0]) + Frames(ms[1..])
  }

  lemma {:induction false} FramesMore(ms: seq<seq<Byte>>, m: seq<Byte>)
    requires Messages(ms) && 0 < |m| < WORD
    ensures Messages(ms + [m]) && Frames(ms + [m]) == Frames(ms) + Frame(m)
  {
    if ms == [] {
      assert ms + [m] == [m] && [m][1..] == [];
      assert Frames([m]) == Frame(m) + Frames([]);
    } else {
      FramesMore(ms[1..], m);
      assert (ms + [m])[1..] == ms[1..] + [m];
      Regroup(Frame(ms[0]), Frames(ms[1..]), Frame(m));
    }
  }

  // ---- Occupied and free bytes, as computed from head and tail ----

  function BytesIn(length: nat, head: nat, tail: nat): nat
    requires head < length && tail < length
  {
    var count := (length + head - tail) % WORD;
    if count >= length then count - length else count
  }

  function SpacesIn(length: nat, head: nat, tail: nat): nat
    requires head < length && tail < length
  {
    var space := (length + tail - head - 1) % WORD;
    if space >= length then space - length else space
  }

  // Buffers of at most 2^31 bytes: occupied and free always add up to one less than the length.
  lemma OccupiedPlusFree(length: nat, head: nat, tail: nat)
    requires head < length <= WORD / 2 && tail < length
    ensures BytesIn(length, head, tail) == if head >= tail then head - tail else length + head - tail
    ensures BytesIn(length, head, tail) + SpacesIn(length, head, tail) == length - 1
  {
  }

  // Beyond that, the occupied count is right exactly while length + head - tail does not overflow.
  lemma BytesExact(length: nat, head: nat, tail: nat)
    requires head < length < WORD && tail < length
    ensures BytesIn(length, head, tail) == (if head >= tail then head - tail else length + head - tail)
       <==> length + head - tail < WORD
  {
  }

  // ---- The two parties ----

  // The writer counts the free space, reading the tail again until it has not moved, copies the frame byte by byte
  // behind the head, then publishes the head.
  datatype Writer =
    | WriterIdle
    | Counting(message: seq<Byte>)
    | TailNoted(message: seq<Byte>, original: nat)
    | Counted(message: seq<Byte>, original: nat, space: nat)
    | Planning(message: seq<Byte>, space: nat)
    | Writing(message: seq<Byte>, done: nat, position: nat)

  // The reader looks at the occupied bytes, copies the length, then the message, then publishes the tail.
  datatype Reader =
    | ReaderIdle
    | Looking(room: nat, available: nat)
    | ReadingLength(room: nat, available: nat, prefix: seq<Byte>, position: nat)
    | ReadingData(want: nat, got: seq<Byte>, at: nat)

  // accepted and received are the messages whose calls have taken effect, in order.
  datatype State = State(buffer: seq<Byte>, head: nat, tail: nat, writer: Writer, reader: Reader,
                         accepted: seq<seq<Byte>>, received: seq<seq<Byte>>)

  datatype Step =
    | LookForSpace(message: seq<Byte>)
    | NoteTail
    | CountSpace
    | CompareTail
    | StartWriting
    | WriteByte
    | PublishHead
    | LookForData(room: nat)
    | StartReading
    | ReadLengthByte
    | StartData
    | ReadByte
    | PublishTail

  function Next1(length: nat, position: nat): nat {
    if position + 1 >= length then position + 1 - length else position + 1
  }

  predicate Sane(s: State) {
    s.head < |s.buffer| && s.tail < |s.buffer| && 0 < |s.buffer| <= WORD / 2
  }

  predicate Enabled(s: State, a: Step) {
    && Sane(s)
    && match a
       case LookForSpace(m) => s.writer.WriterIdle? && |m| < WORD - LENGTH_BYTES
       case NoteTail => s.writer.Counting?
       case CountSpace => s.writer.TailNoted?
       case CompareTail => s.writer.Counted?
       case StartWriting => s.writer.Planning? && |s.writer.message| < WORD
       case WriteByte => s.writer.Writing? && |s.writer.message| < WORD && s.writer.done < |Frame(s.writer.message)|
                         && s.writer.position < |s.buffer|
       case PublishHead => s.writer.Writing? && |s.writer.message| < WORD && s.writer.done == |Frame(s.writer.message)|
       case LookForData(_) => s.reader.ReaderIdle?
       case StartReading => s.reader.Looking?
       case ReadLengthByte => s.reader.ReadingLength? && |s.reader.prefix| < LENGTH_BYTES && s.reader.position < |s.buffer|
       case StartData => s.reader.ReadingLength? && |s.reader.prefix| == LENGTH_BYTES && s.reader.available >= LENGTH_BYTES
       case ReadByte => s.reader.ReadingData? && |s.reader.got| < s.reader.want && s.reader.at < |s.buffer|
       case PublishTail => s.reader.ReadingData? && |s.reader.got| == s.reader.want
  }

  function Least(a: nat, b: nat): nat {
    if a < b then a else b
  }

  function Next(s: State, a: Step): State
    requires Enabled(s, a)
  {
    match a
    case LookForSpace(m) => s.(writer := Counting(m))
    case NoteTail => s.(writer := TailNoted(s.writer.message, s.tail))
    case CountSpace =>
      s.(writer := Counted(s.writer.message, s.writer.original, SpacesIn(|s.buffer|, s.head, s.tail)))
    case CompareTail =>
      var w := s.writer;
      s.(writer := if w.original == s.tail then Planning(w.message, w.space) else Counting(w.message))
    case StartWriting =>
      var m := s.writer.message;
      if s.writer.space >= |m| + LENGTH_BYTES then s.(writer := Writing(m, 0, s.head)) else s.(writer := WriterIdle)
    case WriteByte =>
      var w := s.writer;
      s.(buffer := s.buffer[w.position := Frame(w.message)[w.done]],
         writer := w.(done := w.done + 1, position := Next1(|s.buffer|, w.position)))
    case PublishHead =>
      var m := s.writer.message;
      if m == [] then s.(writer := WriterIdle)
      else s.(head := s.writer.position, writer := WriterIdle, accepted := s.accepted + [m])
    case LookForData(room) => s.(reader := Looking(room, BytesIn(|s.buffer|, s.head, s.tail)))
    case StartReading =>
      if s.reader.available > LENGTH_BYTES
      then s.(reader := ReadingLength(s.reader.room, s.reader.available, [], s.tail))
      else s.(reader := ReaderIdle)
    case ReadLengthByte =>
      var r := s.reader;
      s.(reader := ReadingLength(r.room, r.available, r.prefix + [s.buffer[r.position]], Next1(|s.buffer|, r.position)))
    case StartData =>
      var r := s.reader;
      var n := LengthOf(r.prefix);
      var count := Least(if n > r.room then 0 else n, r.available - LENGTH_BYTES);
      if count == 0 then s.(reader := ReaderIdle) else s.(reader := ReadingData(count, [], r.position))
    case ReadByte =>
      var r := s.reader;
      s.(reader := ReadingData(r.want, r.got + [s.buffer[r.at]], Next1(|s.buffer|, r.at)))
    case PublishTail => s.(tail := s.reader.at, reader := ReaderIdle, received := s.received + [s.reader.got])
  }

  // ---- The invariant ----

  // The bytes of the messages accepted and not yet received.
  ghost function Unread(s: State): seq<Byte>
    requires s.received <= s.accepted && Messages(s.accepted)
  {
    Frames(s.accepted[|s.received|..])
  }

  // What the writer has copied behind the head so far.
  ghost function Copied(w: Writer): seq<Byte> {
    if w.Writing? && |w.message| < WORD && w.done <= |Frame(w.message)| then Frame(w.message)[..w.done] else []
  }

  ghost predicate WriterOk(w: Writer, length: nat, tail: nat, unread: nat) {
    match w
    case WriterIdle => true
    case Counting(m) => |m| < WORD - LENGTH_BYTES
    case TailNoted(m, _) => |m| < WORD - LENGTH_BYTES
    case Counted(m, _, space) => |m| < WORD - LENGTH_BYTES && space + unread < length
    case Planning(m, space) => |m| < WORD - LENGTH_BYTES && space + unread < length
    case Writing(m, done, position) =>
      && |m| < WORD && done <= |Frame(m)| && unread + |Frame(m)| < length
      && position == Wrap(length, tail + unread + done)
  }

  // The reader is at the start of a whole frame, which it copies unchanged.
  ghost predicate ReaderOk(r: Reader, length: nat, tail: nat, next: Option<seq<Byte>>) {
    match r
    case ReaderIdle => true
    case Looking(_, available) =>
      available == 0 || (next.Some? && |next.value| < WORD && available >= LENGTH_BYTES + |next.value|)
    case ReadingLength(_, available, prefix, position) =>
      && next.Some? && |next.value| < WORD && available >= LENGTH_BYTES + |next.value|
      && |prefix| <= LENGTH_BYTES && prefix == LengthBytes(|next.value|)[..|prefix|]
      && position == Wrap(length, tail + |prefix|)
    case ReadingData(want, got, at) =>
      && next.Some? && |next.value| < WORD && want == |next.value| > 0
      && |got| <= want && got == next.value[..|got|] && at == Wrap(length, tail + LENGTH_BYTES + |got|)
  }

  ghost function NextMessage(s: State): Option<seq<Byte>>
    requires s.received <= s.accepted
  {
    if |s.received| < |s.accepted| then Some(s.accepted[|s.received|]) else None
  }

  ghost predicate Ordered(s: State) {
    Sane(s) && Messages(s.accepted) && s.received <= s.accepted
  }

  // From the tail, the ring holds the unread frames and then what the writer has copied so far.
  ghost predicate Inv(s: State) {
    && Ordered(s)
    && var length, unread, copied := |s.buffer|, Unread(s), Copied(s.writer);
       && |unread| + |copied| < length
       && RingItems(s.buffer, s.tail, |unread| + |copied|) == unread + copied
       && s.head == Wrap(length, s.tail + |unread|)
       && WriterOk(s.writer, length, s.tail, |unread|) && ReaderOk(s.reader, length, s.tail, NextMessage(s))
  }

  lemma FirstFrame(s: State)
    requires Ordered(s)
    ensures |s.received| < |s.accepted| ==>
              var m, rest := s.accepted[|s.received|], s.accepted[|s.received| + 1..];
              && 0 < |m| < WORD && Messages(rest)
              && Unread(s) == Frame(m) + Frames(rest)
    ensures |s.received| == |s.accepted| ==> Unread(s) == []
  {
    var left := s.accepted[|s.received|..];
    if left != [] {
      assert left[1..] == s.accepted[|s.received| + 1..];
    }
  }

  lemma CountsFromRing(length: nat, head: nat, tail: nat, unread: nat)
    requires tail < length <= WORD / 2 && unread < length && head == Wrap(length, tail + unread)
    ensures BytesIn(length, head, tail) == unread && SpacesIn(length, head, tail) == length - 1 - unread
  {
  }

  // The count is a lower bound of the free space from the moment the tail is read, whatever the reader does.
  lemma CountingKeeps(s: State, a: Step)
    requires Inv(s) && Enabled(s, a) && (a.LookForSpace? || a.NoteTail? || a.CountSpace? || a.CompareTail?)
    ensures Inv(Next(s, a))
  {
    hide RingItems, Frames;
    CountsFromRing(|s.buffer|, s.head, s.tail, |Unread(s)|);
  }

  lemma StartWritingKeeps(s: State)
    requires Inv(s) && Enabled(s, StartWriting)
    ensures Inv(Next(s, StartWriting))
  {
    hide RingItems, Frames;
  }

  lemma WriteByteKeeps(s: State)
    requires Inv(s) && Enabled(s, WriteByte)
    ensures Inv(Next(s, WriteByte))
  {
    hide RingItems, Frames, Frame;
    var w, f, unread := s.writer, Frame(s.writer.message), Unread(s);
    AppendRing(s.buffer, s.tail, |unread| + w.done, f[w.done]);
    assert f[..w.done + 1] == f[..w.done] + [f[w.done]];
    Regroup(unread, f[..w.done], [f[w.done]]);
  }

  lemma PublishHeadKeeps(s: State)
    requires Inv(s) && Enabled(s, PublishHead)
    ensures Inv(Next(s, PublishHead))
  {
    hide RingItems, Frames, Frame;
    var m := s.writer.message;
    var f, left := Frame(m), s.accepted[|s.received|..];
    assert f[..|f|] == f;
    if m == [] {
      RingPrefix(s.buffer, s.tail, |Unread(s)|, |Unread(s)| + |f|);
    } else {
      FramesMore(left, m);
      assert (s.accepted + [m])[|s.received|..] == left + [m];
      MessagesMore(s.accepted, m);
    }
  }

  lemma MessagesMore(ms: seq<seq<Byte>>, m: seq<Byte>)
    requires Messages(ms) && 0 < |m| < WORD
    ensures Messages(ms + [m])
  {
  }

  lemma RingPrefix<T>(buffer: seq<T>, first: nat, k: nat, n: nat)
    requires first < |buffer| && k <= n <= |buffer|
    ensures RingItems(buffer, first, k) == RingItems(buffer, first, n)[..k]
  {
  }

  lemma LookForDataKeeps(s: State, room: nat)
    requires Inv(s) && Enabled(s, LookForData(room))
    ensures Inv(Next(s, LookForData(room)))
  {
    hide RingItems, Frames;
    CountsFromRing(|s.buffer|, s.head, s.tail, |Unread(s)|);
    FirstFrame(s);
  }

  // A byte of the first unread frame, read at its place in the ring.
  lemma ReadsFrame(s: State, j: nat)
    requires Inv(s) && |s.received| < |s.accepted| && j < LENGTH_BYTES + |s.accepted[|s.received|]|
    ensures var m := s.accepted[|s.received|];
            && 0 < |m| < WORD && j < |s.buffer|
            && Wrap(|s.buffer|, s.tail + j) < |s.buffer| && s.buffer[Wrap(|s.buffer|, s.tail + j)] == Frame(m)[j]
  {
    hide Frames, Frame;
    FirstFrame(s);
    var unread, copied := Unread(s), Copied(s.writer);
    assert (unread + copied)[j] == unread[j];
  }

  lemma ReadLengthByteKeeps(s: State)
    requires Inv(s) && Enabled(s, ReadLengthByte)
    ensures Inv(Next(s, ReadLengthByte))
  {
    hide RingItems, Frames;
    var r := s.reader;
    var m := NextMessage(s).value;
    ReadsFrame(s, |r.prefix|);
    assert LengthBytes(|m|)[..|r.prefix| + 1] == LengthBytes(|m|)[..|r.prefix|] + [LengthBytes(|m|)[|r.prefix|]];
  }

  lemma StartDataKeeps(s: State)
    requires Inv(s) && Enabled(s, StartData)
    ensures Inv(Next(s, StartData))
  {
    hide RingItems, Frames;
    var m := NextMessage(s).value;
    FirstFrame(s);
    LengthRoundTrip(|m|);
    assert LengthBytes(|m|)[..LENGTH_BYTES] == LengthBytes(|m|);
  }

  lemma ReadByteKeeps(s: State)
    requires Inv(s) && Enabled(s, ReadByte)
    ensures Inv(Next(s, ReadByte))
  {
    hide RingItems, Frames;
    var r := s.reader;
    var m := NextMessage(s).value;
    ReadsFrame(s, LENGTH_BYTES + |r.got|);
    assert Frame(m)[LENGTH_BYTES + |r.got|] == m[|r.got|];
    assert m[..|r.got| + 1] == m[..|r.got|] + [m[|r.got|]];
  }

  lemma {:induction false} DropMany<T>(buffer: seq<T>, first: nat, n: nat, k: nat)
    requires first < |buffer| && k <= n <= |buffer| && k < |buffer|
    ensures RingItems(buffer, Wrap(|buffer|, first + k), n - k) == RingItems(buffer, first, n)[k..]
  {
  }

  lemma DropFront<T>(buffer: seq<T>, first: nat, unread: seq<T>, copied: seq<T>, k: nat)
    requires first < |buffer| && |unread| + |copied| < |buffer| && k <= |unread|
    requires RingItems(buffer, first, |unread| + |copied|) == unread + copied
    ensures RingItems(buffer, Wrap(|buffer|, first + k), |unread| - k + |copied|) == unread[k..] + copied
  {
    hide RingItems;
    DropMany(buffer, first, |unread| + |copied|, k);
    assert (unread + copied)[k..] == unread[k..] + copied;
  }

  lemma UnreadAfter(s: State, s': State)
    requires Ordered(s) && |s.received| < |s.accepted| && s'.accepted == s.accepted
    requires s'.received <= s'.accepted && |s'.received| == |s.received| + 1
    ensures var k := LENGTH_BYTES + |s.accepted[|s.received|]|; k <= |Unread(s)| && Unread(s') == Unread(s)[k..]
  {
    hide Frames, Frame;
    FirstFrame(s);
  }

  // The reader's tail move leaves the writer's place in the ring where it was.
  lemma TailMoves(w: Writer, length: nat, tail: nat, unread: nat, k: nat)
    requires WriterOk(w, length, tail, unread) && k <= unread < length && tail < length && unread + |Copied(w)| < length
    ensures WriterOk(w, length, Wrap(length, tail + k), unread - k)
    ensures Wrap(length, Wrap(length, tail + k) + (unread - k)) == Wrap(length, tail + unread)
  {
    hide Frame;
  }

  lemma PublishTailKeeps(s: State)
    requires Inv(s) && Enabled(s, PublishTail)
    ensures Inv(Next(s, PublishTail)) && Next(s, PublishTail).received == s.received + [s.accepted[|s.received|]]
  {
    hide RingItems, Frames, Frame, Unread, Copied, WriterOk;
    var m, s' := NextMessage(s).value, Next(s, PublishTail);
    var k := LENGTH_BYTES + |m|;
    assert m[..|m|] == m && s'.received == s.accepted[..|s.received| + 1];
    UnreadAfter(s, s');
    DropFront(s.buffer, s.tail, Unread(s), Copied(s.writer), k);
    TailMoves(s.writer, |s.buffer|, s.tail, |Unread(s)|, k);
  }

  lemma StepKeeps(s: State, a: Step)
    requires Inv(s) && Enabled(s, a)
    ensures Inv(Next(s, a))
  {
    hide Inv, Enabled, Next;
    match a
    case LookForSpace(_) => CountingKeeps(s, a);
    case NoteTail => CountingKeeps(s, a);
    case CountSpace => CountingKeeps(s, a);
    case CompareTail => CountingKeeps(s, a);
    case StartWriting => StartWritingKeeps(s);
    case WriteByte => WriteByteKeeps(s);
    case PublishHead => PublishHeadKeeps(s);
    case LookForData(room) => LookForDataKeeps(s, room);
    case StartReading => StartReadingKeeps(s);
    case ReadLengthByte => ReadLengthByteKeeps(s);
    case StartData => StartDataKeeps(s);
    case ReadByte => ReadByteKeeps(s);
    case PublishTail => PublishTailKeeps(s);
  }

  lemma StartReadingKeeps(s: State)
    requires Inv(s) && Enabled(s, StartReading)
    ensures Inv(Next(s, StartReading))
  {
    hide RingItems, Frames;
  }

  ghost predicate IsRun(s: State, steps: seq<Step>)
    decreases |steps|
  {
    steps != [] ==> Enabled(s, steps[0]) && IsRun(Next(s, steps[0]), steps[1..])
  }

  ghost function Run(s: State, steps: seq<Step>): State
    requires IsRun(s, steps)
    decreases |steps|
  {
    if steps == [] then s else Run(Next(s, steps[0]), steps[1..])
  }

  lemma {:induction false} RunKeeps(s: State, steps: seq<Step>)
    requires Inv(s) && IsRun(s, steps)
    ensures Inv(Run(s, steps))
    decreases |steps|
  {
    hide Inv, Enabled, Next;
    if steps != [] {
      StepKeeps(s, steps[0]);
      RunKeeps(Next(s, steps[0]), steps[1..]);
    }
  }

  ghost predicate Initial(s: State) {
    Sane(s) && s.head == s.tail && s.writer.WriterIdle? && s.reader.ReaderIdle? && s.accepted == [] && s.received == []
  }

  // However the copies interleave: what was received is a prefix of what was accepted, each message whole and in order;
  // the rest lies unread and intact in the ring; occupied plus free bytes are one less than the length.
  lemma MessagesArriveWhole(s0: State, steps: seq<Step>)
    requires Initial(s0) && IsRun(s0, steps)
    ensures var s := Run(s0, steps);
            && Ordered(s) && s.received <= s.accepted
            && |Unread(s)| <= |s.buffer| && RingItems(s.buffer, s.tail, |Unread(s)|) == Unread(s)
            && BytesIn(|s.buffer|, s.head, s.tail) == |Unread(s)|
            && BytesIn(|s.buffer|, s.head, s.tail) + SpacesIn(|s.buffer|, s.head, s.tail) == |s.buffer| - 1
  {
    InitialInv(s0);
    RunKeeps(s0, steps);
    var s := Run(s0, steps);
    var unread, copied := Unread(s), Copied(s.writer);
    RingPrefix(s.buffer, s.tail, |unread|, |unread| + |copied|);
    assert (unread + copied)[..|unread|] == unread;
    CountsFromRing(|s.buffer|, s.head, s.tail, |unread|);
  }

  lemma InitialInv(s: State)
    requires Initial(s)
    ensures Inv(s)
  {
  }

  // A message too long for the reader's buffer is left where it is.
  lemma TooLongStays(s: State)
    requires Inv(s) && Enabled(s, StartData) && NextMessage(s).Some? && |NextMessage(s).value| > s.reader.room
    ensures Next(s, StartData) == s.(reader := ReaderIdle)
  {
    var m := NextMessage(s).value;
    LengthRoundTrip(|m|);
    assert LengthBytes(|m|)[..LENGTH_BYTES] == LengthBytes(|m|);
  }

  // ---- What fits is accepted, and what there is room for is received ----

  // Some steps of one party from s lead to s'.
  ghost predicate Reaches(s: State, steps: seq<Step>, s': State) {
    IsRun(s, steps) && Run(s, steps) == s'
  }

  lemma ReachesMore(s: State, a: Step, rest: seq<Step>, s': State)
    requires Enabled(s, a) && Reaches(Next(s, a), rest, s')
    ensures Reaches(s, [a] + rest, s')
  {
    hide Enabled, Next;
    assert ([a] + rest)[1..] == rest;
  }

  lemma ReachesNow(s: State, a: Step)
    requires Enabled(s, a)
    ensures Reaches(s, [a], Next(s, a))
  {
    hide Enabled, Next;
    assert [a][1..] == [];
    assert IsRun(Next(s, a), []) && Run(Next(s, a), []) == Next(s, a);
  }

  lemma MayWriteByte(s: State)
    requires Inv(s) && s.writer.Writing?
    ensures |s.writer.message| < WORD && s.writer.done <= |Frame(s.writer.message)| && s.writer.position < |s.buffer| && Sane(s)
  {
    hide RingItems, Frames;
  }

  lemma {:induction false} WritesOut(s: State) returns (steps: seq<Step>, s': State)
    requires Inv(s) && s.writer.Writing? && s.writer.message != []
    ensures Reaches(s, steps, s') && s'.accepted == s.accepted + [s.writer.message] && s'.received == s.received
    ensures s'.writer == WriterIdle && s'.reader == s.reader
    decreases if |s.writer.message| < WORD then |Frame(s.writer.message)| - s.writer.done else 0
  {
    hide Inv, Reaches, Frame;
    MayWriteByte(s);
    if s.writer.done == |Frame(s.writer.message)| {
      ReachesNow(s, PublishHead);
      steps, s' := [PublishHead], Next(s, PublishHead);
    } else {
      WriteByteKeeps(s);
      steps, s' := WritesOut(Next(s, WriteByte));
      ReachesMore(s, WriteByte, steps, s');
      steps := [WriteByte] + steps;
    }
  }

  // A message that fits the free space with its length is accepted when the writer is left to itself.
  lemma FitsIsAccepted(s: State, m: seq<Byte>) returns (steps: seq<Step>, s': State)
    requires Inv(s) && s.writer.WriterIdle? && m != [] && |m| < WORD - LENGTH_BYTES
    requires |Unread(s)| + LENGTH_BYTES + |m| < |s.buffer|
    ensures Reaches(s, steps, s') && s'.accepted == s.accepted + [m] && s'.received == s.received
  {
    hide Inv, Reaches, Frame, Unread;
    InvSane(s);
    var s1 := Next(s, LookForSpace(m));
    CountingKeeps(s, LookForSpace(m));
    var s2 := Next(s1, NoteTail);
    CountingKeeps(s1, NoteTail);
    var s3 := Next(s2, CountSpace);
    CountingKeeps(s2, CountSpace);
    var s4 := Next(s3, CompareTail);
    CountingKeeps(s3, CompareTail);
    SpaceIsFree(s);
    var s5 := Next(s4, StartWriting);
    StartWritingKeeps(s4);
    steps, s' := WritesOut(s5);
    ReachesMore(s4, StartWriting, steps, s');
    ReachesMore(s3, CompareTail, [StartWriting] + steps, s');
    ReachesMore(s2, CountSpace, [CompareTail] + ([StartWriting] + steps), s');
    ReachesMore(s1, NoteTail, [CountSpace] + ([CompareTail] + ([StartWriting] + steps)), s');
    ReachesMore(s, LookForSpace(m), [NoteTail] + ([CountSpace] + ([CompareTail] + ([StartWriting] + steps))), s');
    steps := [LookForSpace(m)] + ([NoteTail] + ([CountSpace] + ([CompareTail] + ([StartWriting] + steps))));
  }

  lemma InvSane(s: State)
    requires Inv(s)
    ensures Sane(s) && s.received <= s.accepted && Messages(s.accepted)
  {
    hide RingItems, Frames;
  }

  lemma SpaceIsFree(s: State)
    requires Inv(s)
    ensures Sane(s) && s.received <= s.accepted && Messages(s.accepted)
    ensures SpacesIn(|s.buffer|, s.head, s.tail) == |s.buffer| - 1 - |Unread(s)|
    ensures BytesIn(|s.buffer|, s.head, s.tail) == |Unread(s)|
  {
    hide RingItems, Frames;
    CountsFromRing(|s.buffer|, s.head, s.tail, |Unread(s)|);
  }

  lemma MayRead(s: State)
    requires Inv(s)
    ensures Sane(s)
    ensures s.reader.ReadingLength? ==>
              && |s.received| < |s.accepted| && |s.reader.prefix| <= LENGTH_BYTES && s.reader.position < |s.buffer|
              && s.reader.available >= LENGTH_BYTES + |s.accepted[|s.received|]|
              && 0 < |s.accepted[|s.received|]| < WORD
              && s.reader.prefix == LengthBytes(|s.accepted[|s.received|]|)[..|s.reader.prefix|]
    ensures s.reader.ReadingData? ==> |s.reader.got| <= s.reader.want && s.reader.at < |s.buffer|
  {
    hide RingItems, Frames;
    FirstFrame(s);
  }

  lemma {:induction false} ReadsData(s: State) returns (steps: seq<Step>, s': State)
    requires Inv(s) && s.reader.ReadingData?
    ensures Reaches(s, steps, s') && s'.accepted == s.accepted && |s'.received| == |s.received| + 1 && s'.received <= s'.accepted
    decreases s.reader.want - |s.reader.got|
  {
    hide Inv, Reaches;
    MayRead(s);
    if |s.reader.got| == s.reader.want {
      PublishTailKeeps(s);
      ReachesNow(s, PublishTail);
      steps, s' := [PublishTail], Next(s, PublishTail);
      InvSane(s');
    } else {
      ReadByteKeeps(s);
      steps, s' := ReadsData(Next(s, ReadByte));
      ReachesMore(s, ReadByte, steps, s');
      steps := [ReadByte] + steps;
    }
  }

  lemma {:induction false} ReadsLength(s: State) returns (steps: seq<Step>, s': State)
    requires Inv(s) && s.reader.ReadingLength? && |s.received| < |s.accepted| && |s.accepted[|s.received|]| <= s.reader.room
    ensures Reaches(s, steps, s') && s'.accepted == s.accepted && |s'.received| == |s.received| + 1 && s'.received <= s'.accepted
    decreases LENGTH_BYTES - |s.reader.prefix|
  {
    hide Inv, Reaches, LengthBytes, LengthOf;
    MayRead(s);
    if |s.reader.prefix| == LENGTH_BYTES {
      var n := |s.accepted[|s.received|]|;
      LengthRoundTrip(n);
      assert LengthBytes(n)[..LENGTH_BYTES] == LengthBytes(n);
      StartDataKeeps(s);
      steps, s' := ReadsData(Next(s, StartData));
      ReachesMore(s, StartData, steps, s');
      steps := [StartData] + steps;
    } else {
      ReadLengthByteKeeps(s);
      steps, s' := ReadsLength(Next(s, ReadLengthByte));
      ReachesMore(s, ReadLengthByte, steps, s');
      steps := [ReadLengthByte] + steps;
    }
  }

  // The next unread message is received when the reader is left to itself and has room for it.
  lemma RoomIsEnough(s: State, room: nat) returns (steps: seq<Step>, s': State)
    requires Inv(s) && s.reader.ReaderIdle? && |s.received| < |s.accepted| && |s.accepted[|s.received|]| <= room
    ensures Reaches(s, steps, s') && s'.accepted == s.accepted && s'.received == s.accepted[..|s.received| + 1]
  {
    hide Inv, Reaches, Unread, Frame, Frames;
    SpaceIsFree(s);
    FirstFrame(s) by { InvSane(s); }
    var s1 := Next(s, LookForData(room));
    LookForDataKeeps(s, room);
    var s2 := Next(s1, StartReading);
    StartReadingKeeps(s1);
    steps, s' := ReadsLength(s2);
    ReachesMore(s1, StartReading, steps, s');
    ReachesMore(s, LookForData(room), [StartReading] + steps, s');
    steps := [LookForData(room)] + ([StartReading] + steps);
  }
}
