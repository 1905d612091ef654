/**
 Piecewise constant waveforms: what a list of (duration, value) segments
 means, when two lists mean the same, and the least number of equal-quantum
 slots that can play a given waveform.
 */
module Waveform {
  import opened Sequences

  datatype Segment<T> = Segment(duration: nat, what: T)

  const MAX_HOLD := 0xFFFF

  function Total<T>(segments: seq<Segment<T>>): nat {
    if segments == [] then 0 else segments[0].duration + Total(segments[1..])
  }

  // The value played at time t.
  function ValueAt<T>(segments: seq<Segment<T>>, t: nat): T
    requires t < Total(segments)
  {
    if t < segments[0].duration then segments[0].what else ValueAt(segments[1..], t - segments[0].duration)
  }

  ghost predicate SameWave<T(!new)>(a: seq<Segment<T>>, b: seq<Segment<T>>) {
    Total(a) == Total(b) && forall t: nat | t < Total(a) :: ValueAt(a, t) == ValueAt(b, t)
  }

  lemma {:induction false} TotalConcat<T>(a: seq<Segment<T>>, b: seq<Segment<T>>)
    ensures Total(a + b) == Total(a) + Total(b)
  {
    if a == [] {
      assert a + b == b;
    } else {
      assert (a + b)[1..] == a[1..] + b;
      TotalConcat(a[1..], b);
    }
  }

  lemma {:induction false} ValueConcat<T>(a: seq<Segment<T>>, b: seq<Segment<T>>, t: nat)
    requires t < Total(a) + Total(b)
    ensures t < Total(a + b)
    ensures ValueAt(a + b, t) == if t < Total(a) then ValueAt(a, t) else ValueAt(b, t - Total(a))
    decreases |a|
  {
    TotalConcat(a, b);
    if a == [] {
      assert a + b == b;
    } else {
      assert (a + b)[1..] == a[1..] + b;
      if t >= a[0].duration {
        ValueConcat(a[1..], b, t - a[0].duration);
      }
    }
  }

  lemma SameWaveConcat<T(!new)>(a: seq<Segment<T>>, a': seq<Segment<T>>, b: seq<Segment<T>>, b': seq<Segment<T>>)
    requires SameWave(a, a') && SameWave(b, b')
    ensures SameWave(a + b, a' + b')
  {
    TotalConcat(a, b);
    TotalConcat(a', b');
    forall t: nat | t < Total(a + b)
      ensures ValueAt(a + b, t) == ValueAt(a' + b', t)
    {
      ValueConcat(a, b, t);
      ValueConcat(a', b', t);
    }
  }

  // Slots that each hold `hold` quanta, played with a quantum of d time units.
  function Play<T>(slots: seq<Segment<T>>, d: nat): (r: seq<Segment<T>>)
    ensures |r| == |slots|
  {
    seq(|slots|, i requires 0 <= i < |slots| => Segment(slots[i].duration * d, slots[i].what))
  }

  lemma PlayConcat<T>(a: seq<Segment<T>>, b: seq<Segment<T>>, d: nat)
    ensures Play(a + b, d) == Play(a, d) + Play(b, d)
  {
  }

  // Slots that all play the same value are one segment.
  lemma {:induction false} PlayConstant<T(!new)>(slots: seq<Segment<T>>, d: nat, w: T)
    requires forall i | 0 <= i < |slots| :: slots[i].what == w
    ensures SameWave(Play(slots, d), [Segment(Total(slots) * d, w)])
  {
    if slots == [] {
      assert Total([Segment(0, w)]) == 0;
    } else {
      var first, rest := [slots[0]], slots[1..];
      PlayConstant(rest, d, w);
      assert slots == first + rest;
      PlayConcat(first, rest, d);
      assert Play(first, d) == [Segment(slots[0].duration * d, w)];
      SameWaveConcat(Play(first, d), Play(first, d), Play(rest, d), [Segment(Total(rest) * d, w)]);
      JoinTwo(slots[0].duration * d, Total(rest) * d, w);
      assert Total(slots) * d == slots[0].duration * d + Total(rest) * d;
    }
  }

  lemma JoinTwo<T(!new)>(m: nat, n: nat, w: T)
    ensures SameWave([Segment(m, w)] + [Segment(n, w)], [Segment(m + n, w)])
  {
    TotalConcat([Segment(m, w)], [Segment(n, w)]);
    assert Total([Segment(m, w)]) == m && Total([Segment(n, w)]) == n && Total([Segment(m + n, w)]) == m + n;
    forall t: nat | t < m + n
      ensures ValueAt([Segment(m, w)] + [Segment(n, w)], t) == w
    {
      ValueConcat([Segment(m, w)], [Segment(n, w)], t);
    }
  }

  // ---- How few slots can play a waveform ----

  function Ceiling(ticks: nat): nat {
    (ticks + MAX_HOLD - 1) / MAX_HOLD
  }

  // Slots needed when every segment is split on its own; durations in quanta.
  function SlotsNeeded(ticks: seq<nat>): nat {
    if ticks == [] then 0 else Ceiling(ticks[0]) + SlotsNeeded(ticks[1..])
  }

  ghost predicate Distinct<T>(segments: seq<Segment<T>>) {
    && (forall i | 0 <= i < |segments| :: segments[i].duration > 0)
    && (forall i | 0 <= i < |segments| - 1 :: segments[i].what != segments[i + 1].what)
  }

  ghost predicate Playable<T>(slots: seq<Segment<T>>) {
    forall i | 0 <= i < |slots| :: 1 <= slots[i].duration <= MAX_HOLD
  }

  // What is left of a waveform after its first n time units, n at most its first duration.
  function Drop<T>(wave: seq<Segment<T>>, n: nat): seq<Segment<T>>
    requires wave != [] && n <= wave[0].duration
  {
    if n == wave[0].duration then wave[1..] else [Segment(wave[0].duration - n, wave[0].what)] + wave[1..]
  }

  lemma Advance<T(!new)>(a: seq<Segment<T>>, b: seq<Segment<T>>)
    requires SameWave(a, b) && a != [] && b != [] && a[0].duration <= b[0].duration
    ensures SameWave(a[1..], Drop(b, a[0].duration))
  {
    var n := a[0].duration;
    var rest := Drop(b, n);
    if n < b[0].duration {
      assert rest[1..] == b[1..];
    }
    forall t: nat | t < Total(a[1..])
      ensures ValueAt(a[1..], t) == ValueAt(rest, t)
    {
      assert ValueAt(a, t + n) == ValueAt(b, t + n);
    }
  }

  lemma AtBoundary<T>(wave: seq<Segment<T>>)
    requires wave != [] && wave[0].duration < Total(wave) && forall i | 0 <= i < |wave| :: wave[i].duration > 0
    ensures |wave| > 1 && ValueAt(wave, wave[0].duration) == wave[1].what
  {
    var tail := wave[1..];
    assert ValueAt(wave, wave[0].duration) == ValueAt(tail, 0);
  }

  lemma FirstSlotFits<T(!new)>(played: seq<Segment<T>>, wave: seq<Segment<T>>)
    requires played != [] && wave != [] && Distinct(wave) && SameWave(played, wave) && played[0].duration > 0
    ensures played[0].duration <= wave[0].duration
  {
    var m := wave[0].duration;
    assert ValueAt(played, 0) == ValueAt(wave, 0);
    if m < played[0].duration {
      AtBoundary(wave);
      assert false;
    }
  }

  // Any slots that play a waveform whose neighbouring segments differ respect the segment boundaries, so the quantum
  // divides every segment, and there are at least as many slots as splitting each segment on its own needs.
  lemma {:induction false} FewestSlots<T(!new)>(slots: seq<Segment<T>>, d: nat, wave: seq<Segment<T>>) returns (ticks: seq<nat>)
    requires d > 0 && Playable(slots) && Distinct(wave) && SameWave(Play(slots, d), wave)
    ensures |ticks| == |wave| && forall i | 0 <= i < |wave| :: wave[i].duration == ticks[i] * d
    ensures |slots| >= SlotsNeeded(ticks)
    decreases |slots|
  {
    if wave == [] {
      ticks := [];
    } else {
      var played := Play(slots, d);
      assert Total(wave) >= wave[0].duration > 0;
      var h := slots[0].duration;
      assert played[0] == Segment(h * d, slots[0].what) && played[1..] == Play(slots[1..], d);
      FirstSlotFits(played, wave);
      Advance(played, wave);
      var rest := FewestSlots(slots[1..], d, Drop(wave, h * d));
      if h * d == wave[0].duration {
        ticks := [h] + rest;
        assert ticks[1..] == rest;
      } else {
        ticks := [rest[0] + h] + rest[1..];
        assert ticks[1..] == rest[1..];
        assert wave[0].duration == rest[0] * d + h * d == (rest[0] + h) * d;
      }
    }
  }

  // A coarser quantum never needs more slots.
  lemma {:induction false} CoarserNeedsNoMore(fine: seq<nat>, d: nat, coarse: seq<nat>, e: nat)
    requires 0 < d <= e && |fine| == |coarse|
    requires forall i | 0 <= i < |fine| :: fine[i] * d == coarse[i] * e
    ensures SlotsNeeded(coarse) <= SlotsNeeded(fine)
  {
    if fine != [] {
      Quotients(fine[0], d, coarse[0], e);
      CoarserNeedsNoMore(fine[1..], d, coarse[1..], e);
    }
  }

  lemma Quotients(k: nat, d: nat, k': nat, e: nat)
    requires 0 < d <= e && k * d == k' * e
    ensures k' <= k
  {
    assert k' * (e - d) >= 0;
    assert k' * d <= k * d;
    if k' > k {
      Scaled(k, k', d);
      assert false;
    }
  }

  lemma Scaled(a: nat, b: nat, d: nat)
    requires a < b && d > 0
    ensures a * d < b * d
  {
    assert (b - a) * d > 0;
  }

  // Neighbouring segments with the same value joined.
  function Merge<T(==)>(wave: seq<Segment<T>>): seq<Segment<T>> {
    if wave == [] then []
    else
      var rest := Merge(wave[1..]);
      if rest != [] && rest[0].what == wave[0].what
      then [Segment(wave[0].duration + rest[0].duration, rest[0].what)] + rest[1..]
      else [wave[0]] + rest
  }

  lemma {:induction false} MergeSameWave<T(!new)>(wave: seq<Segment<T>>)
    ensures SameWave(Merge(wave), wave)
  {
    if wave != [] {
      var first, rest := [wave[0]], Merge(wave[1..]);
      MergeSameWave(wave[1..]);
      SameWaveConcat(first, first, rest, wave[1..]);
      assert first + wave[1..] == wave;
      if rest != [] && rest[0].what == wave[0].what {
        var joined := [Segment(wave[0].duration + rest[0].duration, rest[0].what)];
        JoinTwo(wave[0].duration, rest[0].duration, rest[0].what);
        SameWaveConcat(joined, first + [rest[0]], rest[1..], rest[1..]);
        assert (first + [rest[0]]) + rest[1..] == first + rest;
      }
    }
  }

  lemma {:induction false} MergeDistinct<T>(wave: seq<Segment<T>>)
    requires forall i | 0 <= i < |wave| :: wave[i].duration > 0
    ensures Distinct(Merge(wave))
  {
    if wave != [] {
      MergeDistinct(wave[1..]);
    }
  }

  lemma {:induction false} MergeOfDistinct<T>(wave: seq<Segment<T>>)
    requires Distinct(wave)
    ensures Merge(wave) == wave
  {
    if wave != [] {
      MergeOfDistinct(wave[1..]);
    }
  }

  function Flatten<T>(pieces: seq<seq<Segment<T>>>): seq<Segment<T>> {
    if pieces == [] then [] else pieces[0] + Flatten(pieces[1..])
  }

  // The maximal runs of neighbouring segments with the same value.
  function Runs<T(==)>(wave: seq<Segment<T>>): (r: seq<seq<Segment<T>>>)
    ensures forall i | 0 <= i < |r| :: r[i] != []
  {
    if wave == [] then []
    else
      var rest := Runs(wave[1..]);
      if rest != [] && rest[0][0].what == wave[0].what then [[wave[0]] + rest[0]] + rest[1..] else [[wave[0]]] + rest
  }

  // Joining neighbours joins each run into one segment.
  lemma {:induction false} RunsMerge<T>(wave: seq<Segment<T>>)
    ensures Flatten(Runs(wave)) == wave && |Runs(wave)| == |Merge(wave)|
    ensures forall i | 0 <= i < |Runs(wave)| :: Merge(wave)[i] == Segment(Total(Runs(wave)[i]), Runs(wave)[i][0].what)
    ensures forall i, j | 0 <= i < |Runs(wave)| && 0 <= j < |Runs(wave)[i]| :: Runs(wave)[i][j].what == Runs(wave)[i][0].what
    ensures forall i | 0 <= i < |Runs(wave)| - 1 :: Runs(wave)[i][0].what != Runs(wave)[i + 1][0].what
  {
    if wave != [] {
      var rest: seq<seq<Segment<T>>> := Runs(wave[1..]);
      RunsMerge(wave[1..]);
      if rest != [] && rest[0][0].what == wave[0].what {
        assert ([wave[0]] + rest[0])[1..] == rest[0];
        Regroup([wave[0]], rest[0], Flatten(rest[1..]));
      } else {
        assert Flatten([[wave[0]]] + rest) == [wave[0]] + Flatten(rest);
      }
    }
  }

  // A segment of a piece is one of the whole.
  lemma {:induction false} InFlatten<T>(pieces: seq<seq<Segment<T>>>, i: nat, j: nat) returns (k: nat)
    requires i < |pieces| && j < |pieces[i]|
    ensures k < |Flatten(pieces)| && Flatten(pieces)[k] == pieces[i][j]
  {
    if i == 0 {
      k := j;
    } else {
      k := InFlatten(pieces[1..], i - 1, j);
      k := |pieces[0]| + k;
    }
  }
}
