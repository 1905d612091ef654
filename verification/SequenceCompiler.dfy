/**
 lower_logic_sequence of uart_cli.c: a terminated list of (duration, pin
 levels) becomes a prescaler, hold times and output-compare register words.
 Timer arithmetic is 64 bits wide, slot counts are 32-bit size_t values.
 */
module SequenceCompiler {
  import opened Division
  import opened Waveform

  const U64 := 0x1_0000_0000_0000_0000
  const SIZE := 0x1_0000_0000
  const COARSEST := 65536
  const MAX_SLOTS := 0x7FFF

  datatype LogicState = LogicState(holdNs: nat, state: bv8)

  // ---- Durations in timer units ----

  function Product(holdNs: nat, mhz: nat): nat {
    holdNs * mhz % U64
  }

  function Units(holdNs: nat, mhz: nat): nat {
    Product(holdNs, mhz) / 1000
  }

  ghost predicate Terminated(states: seq<LogicState>) {
    exists i :: 0 <= i < |states| && states[i].holdNs == 0
  }

  // The number of states before the terminator.
  ghost function Count(states: seq<LogicState>): (n: nat)
    requires Terminated(states)
    ensures n < |states| && states[n].holdNs == 0
    ensures forall i | 0 <= i < n :: states[i].holdNs > 0
  {
    if states[0].holdNs == 0 then 0
    else
      assert Terminated(states[1..]) by {
        var i :| 0 <= i < |states| && states[i].holdNs == 0;
        assert states[1..][i - 1].holdNs == 0;
      }
      1 + Count(states[1..])
  }

  ghost function AllUnits(states: seq<LogicState>, mhz: nat): (u: seq<nat>)
    requires Terminated(states)
    ensures |u| == Count(states)
  {
    seq(Count(states), i requires 0 <= i < Count(states) => Units(states[i].holdNs, mhz))
  }

  // The waveform the caller asked for, in timer units.
  ghost function Requested(states: seq<LogicState>, mhz: nat): (w: seq<Segment<bv8>>)
    requires Terminated(states)
    ensures |w| == Count(states)
  {
    seq(Count(states), i requires 0 <= i < Count(states) => Segment(Units(states[i].holdNs, mhz), states[i].state))
  }

  // What the first pass asserts.
  ghost predicate Representable(states: seq<LogicState>, mhz: nat)
    requires Terminated(states)
  {
    && Count(states) > 0
    && forall i | 0 <= i < Count(states) :: Product(states[i].holdNs, mhz) % 1000 == 0 && Units(states[i].holdNs, mhz) > 0
  }

  // The lists that pass: not empty, and every product of duration and frequency a positive multiple of 1000.
  lemma RepresentableMeans(states: seq<LogicState>, mhz: nat)
    requires Terminated(states)
    ensures Representable(states, mhz) <==>
              && states[0].holdNs > 0
              && forall i | 0 <= i < Count(states) ::
                   var product := states[i].holdNs * mhz % 0x1_0000_0000_0000_0000; product % 1000 == 0 && product > 0
  {
    assert Count(states) > 0 <==> states[0].holdNs > 0;
    forall i | 0 <= i < Count(states)
      ensures Product(states[i].holdNs, mhz) % 1000 == 0 ==>
                (Units(states[i].holdNs, mhz) > 0 <==> Product(states[i].holdNs, mhz) > 0)
    {
    }
  }

  // A duration that passes the divisibility assertion is exact if and only if the 64-bit product did not wrap.
  lemma ExactUnlessWrapped(holdNs: nat, mhz: nat)
    requires Product(holdNs, mhz) % 1000 == 0
    ensures 1000 * Units(holdNs, mhz) == holdNs * mhz <==> holdNs * mhz < U64
  {
    assert 1000 * Units(holdNs, mhz) == Product(holdNs, mhz);
  }

  // ---- The common divider ----

  predicate DividesAll(units: seq<nat>, d: nat)
    requires d > 0
  {
    forall i | 0 <= i < |units| :: units[i] % d == 0
  }

  // The greatest divider in 1..trial of every duration.
  function BestFrom(units: seq<nat>, trial: nat): (d: nat)
    requires trial > 0
    ensures 1 <= d <= trial && DividesAll(units, d)
    ensures forall e | d < e <= trial :: !DividesAll(units, e)
  {
    if trial == 1 || DividesAll(units, trial) then trial else BestFrom(units, trial - 1)
  }

  function Best(units: seq<nat>): (d: nat)
    ensures 1 <= d <= COARSEST
  {
    BestFrom(units, COARSEST)
  }

  function Ticks(units: seq<nat>, d: nat): (t: seq<nat>)
    requires d > 0
    ensures |t| == |units|
  {
    seq(|units|, i requires 0 <= i < |units| => units[i] / d)
  }

  // ---- Pin levels and register words ----

  const DR_CTL: bv8 := 1
  const DRHOLD: bv8 := 2
  const TXE: bv8 := 4
  const OSK: bv8 := 8
  const P_0: bv8 := 16
  const P_1: bv8 := 32
  const P_2: bv8 := 64
  const IO_UPDATE: bv8 := 128

  const SET_HI := 0x10
  const SET_LO := 0x20

  datatype Words = Words(a0: nat, a1: nat, b0: nat, b1: nat)

  function Level(state: bv8, pin: bv8): nat {
    if state & pin != 0 then SET_HI else SET_LO
  }

  function Encode(state: bv8): Words {
    Words(Level(state, DRHOLD) * 256 + Level(state, DR_CTL), Level(state, OSK) * 256 + Level(state, TXE),
          Level(state, P_0) * 256 + Level(state, P_1), Level(state, IO_UPDATE) * 256 + Level(state, P_2))
  }

  // The pin level an output-compare mode byte forces.
  function Forced(mode: nat, pin: bv8): bv8 {
    if mode == SET_HI then pin else 0
  }

  function Decode(w: Words): bv8 {
    Forced(w.a0 % 256, DR_CTL) | Forced(w.a0 / 256, DRHOLD) | Forced(w.a1 % 256, TXE) | Forced(w.a1 / 256, OSK)
    | Forced(w.b0 % 256, P_1) | Forced(w.b0 / 256, P_0) | Forced(w.b1 % 256, P_2) | Forced(w.b1 / 256, IO_UPDATE)
  }

  lemma DecodeEncode(state: bv8)
    ensures Decode(Encode(state)) == state
  {
    assert forall pin: bv8 :: Forced(Level(state, pin), pin) == if state & pin != 0 then pin else 0;
  }

  // Output compare mode 0x10 drives a pin high and 0x20 drives it low; two pins share a word, low byte first: PC6 and
  // PC7, PC8 and PC9, PD12 and PD13, PD14 and PD15.
  lemma PinModes(state: bv8)
    ensures var w := Encode(state);
            && w.a0 % 256 == (if state & 0x01 != 0 then 0x10 else 0x20)
            && w.a0 / 256 == (if state & 0x02 != 0 then 0x10 else 0x20)
            && w.a1 % 256 == (if state & 0x04 != 0 then 0x10 else 0x20)
            && w.a1 / 256 == (if state & 0x08 != 0 then 0x10 else 0x20)
            && w.b0 % 256 == (if state & 0x20 != 0 then 0x10 else 0x20)
            && w.b0 / 256 == (if state & 0x10 != 0 then 0x10 else 0x20)
            && w.b1 % 256 == (if state & 0x40 != 0 then 0x10 else 0x20)
            && w.b1 / 256 == (if state & 0x80 != 0 then 0x10 else 0x20)
  {
  }

  // ---- Slots ----

  // A hold of the given number of quanta, split into the longest slots the hold register allows.
  function Chunks<T>(ticks: nat, w: T): seq<Segment<T>> {
    if ticks == 0 then []
    else if ticks > MAX_HOLD then [Segment(MAX_HOLD, w)] + Chunks(ticks - MAX_HOLD, w)
    else [Segment(ticks, w)]
  }

  // Every segment of a waveform split on its own, given its length in quanta.
  function SlotsFor<T>(ticks: seq<nat>, wave: seq<Segment<T>>): seq<Segment<T>>
    requires |ticks| == |wave|
  {
    if wave == [] then [] else Chunks(ticks[0], wave[0].what) + SlotsFor(ticks[1..], wave[1..])
  }

  lemma {:induction false} ChunksSplit<T>(ticks: nat, w: T)
    ensures var c := Chunks(ticks, w);
            && |c| == Ceiling(ticks) && Total(c) == ticks && Playable(c)
            && forall i | 0 <= i < |c| :: c[i].what == w
  {
    if ticks > MAX_HOLD {
      ChunksSplit(ticks - MAX_HOLD, w);
      assert ([Segment(MAX_HOLD, w)] + Chunks(ticks - MAX_HOLD, w))[1..] == Chunks(ticks - MAX_HOLD, w);
    }
  }

  function Durations<T>(wave: seq<Segment<T>>): (u: seq<nat>)
    ensures |u| == |wave|
  {
    seq(|wave|, i requires 0 <= i < |wave| => wave[i].duration)
  }

  // Splitting every segment on its own plays the same waveform in exactly the slots needed.
  lemma {:induction false} SlotsForPlays<T(!new)>(ticks: seq<nat>, wave: seq<Segment<T>>, d: nat)
    requires |ticks| == |wave| && forall i | 0 <= i < |wave| :: ticks[i] * d == wave[i].duration
    ensures Playable(SlotsFor(ticks, wave)) && |SlotsFor(ticks, wave)| == SlotsNeeded(ticks)
    ensures SameWave(Play(SlotsFor(ticks, wave), d), wave)
  {
    if wave == [] {
    } else {
      var first, rest := Chunks(ticks[0], wave[0].what), SlotsFor(ticks[1..], wave[1..]);
      ChunksSplit(ticks[0], wave[0].what);
      SlotsForPlays(ticks[1..], wave[1..], d);
      PlayConstant(first, d, wave[0].what);
      SameWaveConcat(Play(first, d), [wave[0]], Play(rest, d), wave[1..]);
      PlayConcat(first, rest, d);
      assert [wave[0]] + wave[1..] == wave;
    }
  }

  // No slots with holds in range and a common quantum of at most 65536 timer units play a waveform whose neighbours
  // differ in fewer slots than splitting every segment with the best divider.
  lemma NoFewerSlots<T(!new)>(wave: seq<Segment<T>>, slots: seq<Segment<T>>, d: nat)
    requires Distinct(wave) && Playable(slots) && 0 < d <= COARSEST && SameWave(Play(slots, d), wave)
    ensures d <= Best(Durations(wave))
    ensures |slots| >= SlotsNeeded(Ticks(Durations(wave), Best(Durations(wave))))
  {
    hide DividesAll, Ticks, SlotsNeeded, Playable, Distinct;
    var ticks := FewestSlots(slots, d, wave);
    var units := Durations(wave);
    QuantumDivides(units, ticks, d);
    var best := Best(units);
    TicksExact(units, best);
    CoarserNeedsNoMore(ticks, d, Ticks(units, best), best);
  }

  lemma QuantumDivides(units: seq<nat>, ticks: seq<nat>, d: nat)
    requires d > 0 && |units| == |ticks| && forall i | 0 <= i < |units| :: units[i] == ticks[i] * d
    ensures DividesAll(units, d)
  {
    forall i | 0 <= i < |units|
      ensures units[i] % d == 0
    {
      MultipleOf(ticks[i], d);
    }
  }

  lemma TicksExact(units: seq<nat>, d: nat)
    requires d > 0 && DividesAll(units, d)
    ensures forall i | 0 <= i < |units| :: Ticks(units, d)[i] * d == units[i]
  {
    forall i | 0 <= i < |units|
      ensures Ticks(units, d)[i] * d == units[i]
    {
      assert units[i] % d == 0;
      Euclid(units[i], d);
    }
  }

  // However each state is given slots of its own, with any common quantum of at most 65536 timer units, the slots are
  // at least as many as the program uses. Neighbouring states may be equal here.
  lemma FewestStateByState<T>(units: seq<nat>, pieces: seq<seq<Segment<T>>>, d: nat)
    requires |units| == |pieces| && 0 < d <= COARSEST
    requires forall i | 0 <= i < |units| :: Playable(pieces[i]) && Total(pieces[i]) * d == units[i]
    ensures d <= Best(units) && |Flatten(pieces)| >= SlotsNeeded(Ticks(units, Best(units)))
  {
    hide DividesAll, Ticks, SlotsNeeded, Playable;
    var ticks := Totals(pieces);
    QuantumDivides(units, ticks, d);
    TicksExact(units, Best(units));
    CoarserNeedsNoMore(ticks, d, Ticks(units, Best(units)), Best(units));
    FlattenNeeds(pieces);
  }

  function Totals<T>(pieces: seq<seq<Segment<T>>>): (t: seq<nat>)
    ensures |t| == |pieces|
  {
    seq(|pieces|, i requires 0 <= i < |pieces| => Total(pieces[i]))
  }

  lemma {:induction false} FlattenNeeds<T>(pieces: seq<seq<Segment<T>>>)
    requires forall i | 0 <= i < |pieces| :: Playable(pieces[i])
    ensures |Flatten(pieces)| >= SlotsNeeded(Totals(pieces))
  {
    if pieces != [] {
      assert Totals(pieces)[1..] == Totals(pieces[1..]);
      CeilingBound(pieces[0]);
      FlattenNeeds(pieces[1..]);
    }
  }

  lemma {:induction false} CeilingBound<T>(piece: seq<Segment<T>>)
    requires Playable(piece)
    ensures Total(piece) <= |piece| * MAX_HOLD && Ceiling(Total(piece)) <= |piece|
  {
    if piece != [] {
      CeilingBound(piece[1..]);
    }
  }

  // The fewest slots that play a waveform at all: those of its merged form, and these are attained.
  lemma WaveformOptimum<T(!new)>(wave: seq<Segment<T>>, slots: seq<Segment<T>>, d: nat)
    requires forall i | 0 <= i < |wave| :: wave[i].duration > 0
    requires Playable(slots) && 0 < d <= COARSEST && SameWave(Play(slots, d), wave)
    ensures var units := Durations(Merge(wave));
            var ticks := Ticks(units, Best(units));
            && |slots| >= SlotsNeeded(ticks) == |SlotsFor(ticks, Merge(wave))|
            && SameWave(Play(SlotsFor(ticks, Merge(wave)), Best(units)), wave)
  {
    hide DividesAll, Ticks, SlotsNeeded, Playable, Distinct, Merge;
    var merged := Merge(wave);
    var units := Durations(merged);
    MergeSameWave(wave);
    MergeDistinct(wave);
    NoFewerSlots(merged, slots, d);
    TicksExact(units, Best(units));
    SlotsForPlays(Ticks(units, Best(units)), merged, Best(units));
  }

  // ---- When the program is minimal ----

  // What the program pays for a waveform.
  function Cost<T>(wave: seq<Segment<T>>): nat {
    SlotsNeeded(Ticks(Durations(wave), Best(Durations(wave))))
  }

  // No slots in range, with any common quantum of at most 65536 timer units, play the waveform in fewer than n.
  ghost predicate NoneShorter<T(!new)>(wave: seq<Segment<T>>, n: nat) {
    forall slots: seq<Segment<T>>, d: nat {:trigger Play(slots, d)} ::
      Playable(slots) && 0 < d <= COARSEST && SameWave(Play(slots, d), wave) ==> |slots| >= n
  }

  function RunCost<T>(run: seq<Segment<T>>, d: nat): nat
    requires d > 0
  {
    SlotsNeeded(Ticks(Durations(run), d))
  }

  // The states of every run of equal neighbours need, one by one and with the quantum of the whole list, no more slots
  // than the run needs as one state with the quantum of the joined list.
  predicate RunsTight<T(==)>(wave: seq<Segment<T>>) {
    var d, e := Best(Durations(wave)), Best(Durations(Merge(wave)));
    forall i | 0 <= i < |Runs(wave)| :: RunCost(Runs(wave)[i], d) == Ceiling(Total(Runs(wave)[i]) / e)
  }

  function RunCosts<T>(runs: seq<seq<Segment<T>>>, d: nat): nat
    requires d > 0
  {
    if runs == [] then 0 else RunCost(runs[0], d) + RunCosts(runs[1..], d)
  }

  function JoinedCosts<T>(runs: seq<seq<Segment<T>>>, e: nat): nat
    requires e > 0
  {
    if runs == [] then 0 else Ceiling(Total(runs[0]) / e) + JoinedCosts(runs[1..], e)
  }

  lemma {:induction false} NeededConcat(a: seq<nat>, b: seq<nat>)
    ensures SlotsNeeded(a + b) == SlotsNeeded(a) + SlotsNeeded(b)
  {
    if a == [] {
      assert a + b == b;
    } else {
      assert (a + b)[1..] == a[1..] + b;
      NeededConcat(a[1..], b);
    }
  }

  lemma {:induction false} CostByRuns<T>(runs: seq<seq<Segment<T>>>, d: nat)
    requires d > 0
    ensures RunCost(Flatten(runs), d) == RunCosts(runs, d)
  {
    hide SlotsNeeded;
    if runs == [] {
      NoneNeeded([]);
      assert Ticks(Durations(Flatten(runs)), d)[..0] == Ticks(Durations(Flatten(runs)), d);
    } else {
      var a, b := runs[0], Flatten(runs[1..]);
      NeededConcat(Ticks(Durations(a), d), Ticks(Durations(b), d));
      assert Ticks(Durations(a + b), d) == Ticks(Durations(a), d) + Ticks(Durations(b), d);
      CostByRuns(runs[1..], d);
    }
  }

  lemma {:induction false} JoinedByRuns<T>(runs: seq<seq<Segment<T>>>, merged: seq<Segment<T>>, e: nat)
    requires e > 0 && |runs| == |merged| && forall i | 0 <= i < |runs| :: merged[i].duration == Total(runs[i])
    ensures RunCost(merged, e) == JoinedCosts(runs, e)
  {
    if runs != [] {
      JoinedByRuns(runs[1..], merged[1..], e);
      assert Ticks(Durations(merged), e)[1..] == Ticks(Durations(merged[1..]), e);
    }
  }

  lemma CeilingGrows(a: nat, b: nat)
    ensures Ceiling(a) + Ceiling(b) >= Ceiling(a + b) && (a <= b ==> Ceiling(a) <= Ceiling(b))
  {
  }

  // A run cut into its states needs at least as many slots as the run as one state with a coarser quantum.
  lemma {:induction false} RunAtLeast<T>(run: seq<Segment<T>>, d: nat)
    requires d > 0 && DividesAll(Durations(run), d)
    ensures Total(run) % d == 0 && RunCost(run, d) >= Ceiling(Total(run) / d)
  {
    hide Ceiling;
    if run == [] {
      assert Total(run) == 0;
      MultipleOf(0, d);
      CeilingBound<T>([]);
    } else {
      var u, rest := run[0].duration, Total(run[1..]);
      assert Durations(run)[0] == u && Durations(run)[1..] == Durations(run[1..]);
      assert forall i | 0 <= i < |run[1..]| :: Durations(run[1..])[i] == Durations(run)[i + 1];
      RunAtLeast(run[1..], d);
      Euclid(u, d);
      Euclid(rest, d);
      Distribute(u / d, rest / d, d);
      MultipleOf(u / d + rest / d, d);
      CeilingGrows(u / d, rest / d);
      assert Ticks(Durations(run), d)[1..] == Ticks(Durations(run[1..]), d);
    }
  }

  lemma RunAtLeastJoined<T>(run: seq<Segment<T>>, d: nat, e: nat)
    requires 0 < d <= e && DividesAll(Durations(run), d) && Total(run) % e == 0
    ensures RunCost(run, d) >= Ceiling(Total(run) / e)
  {
    hide Ceiling, SlotsNeeded, DividesAll, Ticks;
    RunAtLeast(run, d);
    Euclid(Total(run), d);
    Euclid(Total(run), e);
    Quotients(Total(run) / d, d, Total(run) / e, e);
    CeilingGrows(Total(run) / e, Total(run) / d);
  }

  // Run by run the cost is never below that of the joined run, so the sums agree exactly when every run does.
  lemma {:induction false} RunsAgree<T>(runs: seq<seq<Segment<T>>>, d: nat, e: nat)
    requires 0 < d <= e
    requires forall i | 0 <= i < |runs| :: DividesAll(Durations(runs[i]), d) && Total(runs[i]) % e == 0
    ensures RunCosts(runs, d) >= JoinedCosts(runs, e)
    ensures RunCosts(runs, d) == JoinedCosts(runs, e)
       <==> forall i | 0 <= i < |runs| :: RunCost(runs[i], d) == Ceiling(Total(runs[i]) / e)
  {
    hide Ceiling, RunCost, DividesAll;
    if runs != [] {
      RunAtLeastJoined(runs[0], d, e);
      RunsAgree(runs[1..], d, e);
      assert forall i | 0 < i < |runs| :: runs[i] == runs[1..][i - 1];
    }
  }

  // A quantum of the list divides every run of it and every run joined.
  lemma RunsDivide<T>(wave: seq<Segment<T>>, d: nat)
    requires d > 0 && DividesAll(Durations(wave), d)
    ensures forall i | 0 <= i < |Runs(wave)| :: DividesAll(Durations(Runs(wave)[i]), d)
    ensures DividesAll(Durations(Merge(wave)), d)
  {
    hide Runs, Merge;
    RunsMerge(wave);
    forall i | 0 <= i < |Runs(wave)|
      ensures DividesAll(Durations(Runs(wave)[i]), d)
    {
      forall j | 0 <= j < |Runs(wave)[i]|
        ensures Durations(Runs(wave)[i])[j] % d == 0
      {
        var k := InFlatten(Runs(wave), i, j);
        assert Durations(wave)[k] % d == 0;
      }
    }
    forall i | 0 <= i < |Merge(wave)|
      ensures Durations(Merge(wave))[i] % d == 0
    {
      RunAtLeast(Runs(wave)[i], d);
    }
  }

  lemma BestIsGreatest(units: seq<nat>, d: nat)
    requires 0 < d <= COARSEST && DividesAll(units, d)
    ensures d <= Best(units) && DividesAll(units, Best(units))
  {
  }

  // The program's count is that of the joined list exactly when the runs are tight, and never below it.
  lemma CostOfMerge<T>(wave: seq<Segment<T>>)
    ensures Cost(wave) >= Cost(Merge(wave))
    ensures Cost(wave) == Cost(Merge(wave)) <==> RunsTight(wave)
  {
    hide Best, DividesAll, Ticks, SlotsNeeded, Ceiling, Runs, Merge, RunCosts, JoinedCosts;
    var d, e := Best(Durations(wave)), Best(Durations(Merge(wave)));
    BestIsGreatest(Durations(wave), d) by { OneDivides(Durations(wave)); }
    RunsMerge(wave);
    RunsDivide(wave, d);
    BestIsGreatest(Durations(Merge(wave)), d);
    CostByRuns(Runs(wave), d);
    JoinedByRuns(Runs(wave), Merge(wave), e);
    forall i | 0 <= i < |Runs(wave)|
      ensures Total(Runs(wave)[i]) % e == 0
    {
      DividesOne(Durations(Merge(wave)), e, i);
    }
    RunsAgree(Runs(wave), d, e);
  }

  lemma OneDivides(units: seq<nat>)
    ensures DividesAll(units, Best(units))
  {
  }

  lemma DividesOne(units: seq<nat>, d: nat, i: nat)
    requires d > 0 && DividesAll(units, d) && i < |units|
    ensures units[i] % d == 0
  {
  }

  // Exactly when the count is minimal among all slots that play the waveform at all: when every run of equal
  // neighbours is tight, which a caller can check on the list.
  lemma MinimalIff<T(!new)>(wave: seq<Segment<T>>)
    requires forall i | 0 <= i < |wave| :: wave[i].duration > 0
    ensures NoneShorter(wave, Cost(wave)) <==> RunsTight(wave)
  {
    hide Best, DividesAll, Ticks, SlotsNeeded, Playable, Merge, RunsTight, SameWave;
    CostOfMerge(wave);
    var slots, d := OwnSlots(wave);
    WaveformOptimum(wave, slots, d);
    var units := Durations(Merge(wave));
    var best := SlotsFor(Ticks(units, Best(units)), Merge(wave));
    BestSlots(wave);
    if NoneShorter(wave, Cost(wave)) {
      assert SameWave(Play(best, Best(units)), wave);
    }
    forall slots: seq<Segment<T>>, d: nat {:trigger Play(slots, d)}
      | Playable(slots) && 0 < d <= COARSEST && SameWave(Play(slots, d), wave)
      ensures |slots| >= Cost(Merge(wave))
    {
      WaveformOptimum(wave, slots, d);
    }
  }

  // The program's own slots play the waveform.
  lemma OwnSlots<T(!new)>(wave: seq<Segment<T>>) returns (slots: seq<Segment<T>>, d: nat)
    ensures Playable(slots) && 0 < d <= COARSEST && SameWave(Play(slots, d), wave)
  {
    hide DividesAll, Ticks, SlotsNeeded;
    d := Best(Durations(wave));
    var ticks := Ticks(Durations(wave), d);
    TicksExact(Durations(wave), d);
    SlotsForPlays(ticks, wave, d);
    slots := SlotsFor(ticks, wave);
  }

  lemma BestSlots<T(!new)>(wave: seq<Segment<T>>)
    ensures var units := Durations(Merge(wave));
            Playable(SlotsFor(Ticks(units, Best(units)), Merge(wave)))
  {
    hide DividesAll, Ticks, SlotsNeeded, Merge;
    var units := Durations(Merge(wave));
    TicksExact(units, Best(units));
    SlotsForPlays(Ticks(units, Best(units)), Merge(wave), Best(units));
  }

  lemma BestUnique(units: seq<nat>, d: nat)
    requires 1 <= d <= COARSEST && DividesAll(units, d)
    requires forall e | d < e <= COARSEST :: !DividesAll(units, e)
    ensures Best(units) == d
  {
  }

  // ---- The program ----

  method FirstPass(states: seq<LogicState>, mhz: nat) returns (ok: bool, least: nat)
    requires Terminated(states)
    ensures ok == Representable(states, mhz)
    ensures ok ==> least in AllUnits(states, mhz) && forall u | u in AllUnits(states, mhz) :: 0 < least <= u
  {
    ghost var n, units := Count(states), AllUnits(states, mhz);
    least := 0;
    var i := 0;
    while states[i].holdNs > 0
      invariant 0 <= i <= n
      invariant forall k | 0 <= k < i :: Product(states[k].holdNs, mhz) % 1000 == 0 && 0 < least <= units[k]
      invariant i > 0 ==> least in units
      decreases n - i
    {
      var timerUnits := Units(states[i].holdNs, mhz);
      assert timerUnits == units[i];
      if Product(states[i].holdNs, mhz) % 1000 != 0 || timerUnits == 0 { return false, least; }
      if i == 0 || timerUnits < least { least := timerUnits; }
      i := i + 1;
    }
    ok := i > 0;
  }

  // Tries dividers from the coarsest possible one downwards.
  method FindDivider(states: seq<LogicState>, mhz: nat, least: nat) returns (divider: nat)
    requires Terminated(states) && least > 0 && least in AllUnits(states, mhz)
    ensures divider == Best(AllUnits(states, mhz))
  {
    ghost var units := AllUnits(states, mhz);
    var trial := if least < COARSEST then least else COARSEST;
    NoneAbove(units, least);
    while true
      invariant 1 <= trial <= COARSEST
      invariant forall e | trial < e <= COARSEST :: !DividesAll(units, e)
      decreases trial
    {
      var i := 0;
      while states[i].holdNs > 0 && Units(states[i].holdNs, mhz) % trial == 0
        invariant 0 <= i <= Count(states)
        invariant forall k | 0 <= k < i :: units[k] % trial == 0
        decreases Count(states) - i
      {
        i := i + 1;
      }
      if states[i].holdNs == 0 {
        BestUnique(units, trial);
        return trial;
      }
      assert units[i] % trial != 0;
      trial := trial - 1;
    }
  }

  lemma NoneAbove(units: seq<nat>, least: nat)
    requires least in units && least > 0
    ensures forall e | least < e <= COARSEST :: !DividesAll(units, e)
  {
    forall e | least < e <= COARSEST
      ensures !DividesAll(units, e)
    {
      var i :| 0 <= i < |units| && units[i] == least;
      Euclid(least, e);
      if least / e > 0 {
        AtLeast(least / e, e);
      }
      assert units[i] % e != 0;
    }
  }

  ghost function Quanta(states: seq<LogicState>, mhz: nat): (t: seq<nat>)
    requires Terminated(states)
    ensures |t| == Count(states)
  {
    Ticks(AllUnits(states, mhz), Best(AllUnits(states, mhz)))
  }

  lemma {:induction false} NeededSplit(ticks: seq<nat>, i: nat)
    requires i < |ticks|
    ensures SlotsNeeded(ticks[..i + 1]) == SlotsNeeded(ticks[..i]) + Ceiling(ticks[i])
  {
    if i == 0 {
      assert ticks[..1] == [ticks[0]];
    } else {
      assert ticks[..i + 1][1..] == ticks[1..][..i] && ticks[..i][1..] == ticks[1..][..i - 1];
      NeededSplit(ticks[1..], i - 1);
    }
  }

  // Slot counts are size_t values, so the sum is only known modulo 2^32.
  method CountSlots(states: seq<LogicState>, mhz: nat, divider: nat) returns (used: nat)
    requires Terminated(states) && divider == Best(AllUnits(states, mhz))
    ensures used == SlotsNeeded(Quanta(states, mhz)) % SIZE
  {
    hide Best, DividesAll, SlotsNeeded, Quanta, Units, Ceiling;
    ghost var ticks := Quanta(states, mhz);
    used := 0;
    NoneNeeded(ticks);
    var i := 0;
    while states[i].holdNs > 0
      invariant 0 <= i <= Count(states)
      invariant used == SlotsNeeded(ticks[..i]) % SIZE
      decreases Count(states) - i
    {
      QuantumAt(states, mhz, i);
      var slots := Ceiling(Units(states[i].holdNs, mhz) / divider) % SIZE;
      NeededSplit(ticks, i);
      SizeAdd(SlotsNeeded(ticks[..i]), Ceiling(ticks[i]));
      used := (used + slots) % SIZE;
      i := i + 1;
    }
    assert ticks[..i] == ticks;
  }

  lemma NoneNeeded(ticks: seq<nat>)
    ensures SlotsNeeded(ticks[..0]) == 0
  {
  }

  lemma SizeAdd(a: nat, b: nat)
    ensures (a % SIZE + b % SIZE) % SIZE == (a + b) % SIZE
  {
  }

  // The streams handed to DMA.
  datatype Program = Program(slaveA: array<nat>, slaveB: array<nat>, holdTime: array<nat>, count: nat, prescaler: nat)

  datatype Outcome = Refused | Overrun | Compiled(program: Program)

  // Separate streams of matching lengths.
  ghost predicate Shaped(p: Program) {
    && p.slaveA.Length == p.slaveB.Length == 2 * p.count && p.holdTime.Length == p.count
    && p.slaveA != p.slaveB && p.slaveA != p.holdTime && p.slaveB != p.holdTime
  }

  // One slot of a program, read back from its register words.
  ghost function SlotAt(p: Program, j: nat): Segment<bv8>
    requires Shaped(p) && j < p.count
    reads p.slaveA, p.slaveB, p.holdTime
  {
    Segment(p.holdTime[j], Decode(Words(p.slaveA[2 * j], p.slaveA[2 * j + 1], p.slaveB[2 * j], p.slaveB[2 * j + 1])))
  }

  // The slots a program plays.
  ghost function Slots(p: Program): (s: seq<Segment<bv8>>)
    requires Shaped(p)
    reads p.slaveA, p.slaveB, p.holdTime
    ensures |s| == p.count
  {
    seq(p.count, j requires 0 <= j < p.count reads p.slaveA, p.slaveB, p.holdTime => SlotAt(p, j))
  }

  ghost function Wanted(states: seq<LogicState>, mhz: nat): seq<Segment<bv8>>
    requires Terminated(states)
  {
    SlotsFor(Quanta(states, mhz), Requested(states, mhz))
  }

  // The first j slots are the wanted ones.
  ghost predicate Filled(p: Program, wanted: seq<Segment<bv8>>, j: nat)
    requires Shaped(p)
    reads p.slaveA, p.slaveB, p.holdTime
  {
    j <= p.count && j <= |wanted| && forall k | 0 <= k < j :: SlotAt(p, k) == wanted[k]
  }

  method WriteSlot(p: Program, j: nat, hold: nat, state: bv8)
    requires Shaped(p) && j < p.count
    modifies p.slaveA, p.slaveB, p.holdTime
    ensures SlotAt(p, j) == Segment(hold, state)
    ensures forall k | 0 <= k < p.count && k != j :: SlotAt(p, k) == old(SlotAt(p, k))
  {
    hide Encode, Decode;
    var w := Encode(state);
    p.slaveA[2 * j], p.slaveA[2 * j + 1] := w.a0, w.a1;
    p.slaveB[2 * j], p.slaveB[2 * j + 1] := w.b0, w.b1;
    p.holdTime[j] := hold;
    DecodeEncode(state);
  }

  // Writes the slots of one state; done is false when the streams are full first.
  method FillState(p: Program, start: nat, ticks: nat, state: bv8, ghost wanted: seq<Segment<bv8>>,
                   ghost later: seq<Segment<bv8>>) returns (j: nat, done: bool)
    requires Shaped(p) && Filled(p, wanted, start) && wanted[start..] == Chunks(ticks, state) + later
    modifies p.slaveA, p.slaveB, p.holdTime
    ensures Filled(p, wanted, j)
    ensures done ==> wanted[j..] == later
    ensures !done ==> j == p.count < |wanted|
  {
    hide SlotAt;
    var remain := ticks;
    j := start;
    while remain > 0
      invariant 0 <= remain && 0 <= j && Filled(p, wanted, j) && wanted[j..] == Chunks(remain, state) + later
      decreases remain
    {
      if j == p.count {
        assert |wanted[j..]| > 0;
        return j, false;
      }
      var hold := if remain > MAX_HOLD then MAX_HOLD else remain;
      FirstChunk(wanted, j, remain, state, later);
      WriteSlot(p, j, hold, state);
      remain := remain - hold;
      j := j + 1;
    }
    done := true;
    assert Chunks(0, state) + later == later;
  }

  lemma FirstChunk(wanted: seq<Segment<bv8>>, j: nat, remain: nat, state: bv8, later: seq<Segment<bv8>>)
    requires remain > 0 && j <= |wanted| && wanted[j..] == Chunks(remain, state) + later
    ensures j < |wanted|
    ensures var hold := if remain > MAX_HOLD then MAX_HOLD else remain;
            wanted[j] == Segment(hold, state) && wanted[j + 1..] == Chunks(remain - hold, state) + later
  {
    var hold := if remain > MAX_HOLD then MAX_HOLD else remain;
    var rest := Chunks(remain - hold, state);
    assert Chunks(remain, state) == [Segment(hold, state)] + rest;
    assert wanted[j..] == [Segment(hold, state)] + (rest + later);
    assert wanted[j..][0] == Segment(hold, state);
    assert wanted[j + 1..] == wanted[j..][1..] == rest + later;
  }

  // Fills the streams; done is false when the slots needed do not fit the slots allocated.
  method Emit(states: seq<LogicState>, mhz: nat, divider: nat, used: nat) returns (p: Program, done: bool)
    requires Terminated(states) && divider == Best(AllUnits(states, mhz))
    requires used == SlotsNeeded(Quanta(states, mhz)) % SIZE
    ensures p.count == used && p.prescaler == divider - 1 && Shaped(p)
    ensures done == (used == SlotsNeeded(Quanta(states, mhz)))
    ensures done ==> Slots(p) == Wanted(states, mhz)
  {
    hide Best, DividesAll, SlotsNeeded, Chunks, Quanta, Wanted, SlotAt;
    ghost var ticks, wave, wanted := Quanta(states, mhz), Requested(states, mhz), Wanted(states, mhz);
    var slaveA, slaveB, hold := new nat[2 * used], new nat[2 * used], new nat[used];
    p := Program(slaveA, slaveB, hold, used, divider - 1);
    WantedLength(states, mhz);
    var i, j := 0, 0;
    while states[i].holdNs > 0
      invariant 0 <= i <= Count(states)
      invariant 0 <= j && Filled(p, wanted, j) && wanted[j..] == SlotsFor(ticks[i..], wave[i..])
      decreases Count(states) - i
    {
      QuantumAt(states, mhz, i);
      SlotsForHead(ticks, wave, i);
      j, done := FillState(p, j, Units(states[i].holdNs, mhz) / divider, states[i].state, wanted,
                           SlotsFor(ticks[i + 1..], wave[i + 1..]));
      if !done { return p, false; }
      i := i + 1;
    }
    done := true;
    assert ticks[i..] == [] && wave[i..] == [];
    assert |wanted[j..]| == 0;
    assert Slots(p) == wanted;
  }

  lemma QuantumAt(states: seq<LogicState>, mhz: nat, i: nat)
    requires Terminated(states) && i < Count(states)
    ensures Quanta(states, mhz)[i] == Units(states[i].holdNs, mhz) / Best(AllUnits(states, mhz))
  {
    hide DividesAll;
  }

  lemma SlotsForHead<T>(ticks: seq<nat>, wave: seq<Segment<T>>, i: nat)
    requires i < |ticks| == |wave|
    ensures SlotsFor(ticks[i..], wave[i..]) == Chunks(ticks[i], wave[i].what) + SlotsFor(ticks[i + 1..], wave[i + 1..])
  {
    hide Chunks;
    assert ticks[i..][1..] == ticks[i + 1..] && wave[i..][1..] == wave[i + 1..];
  }

  lemma WantedLength(states: seq<LogicState>, mhz: nat)
    requires Terminated(states)
    ensures |Wanted(states, mhz)| == SlotsNeeded(Quanta(states, mhz))
    ensures SlotsFor(Quanta(states, mhz)[0..], Requested(states, mhz)[0..]) == Wanted(states, mhz)
  {
    hide DividesAll, Ticks;
    var units := AllUnits(states, mhz);
    TicksExact(units, Best(units));
    SlotsForPlays(Quanta(states, mhz), Requested(states, mhz), Best(units));
    assert Quanta(states, mhz)[0..] == Quanta(states, mhz) && Requested(states, mhz)[0..] == Requested(states, mhz);
  }

  method Lower(states: seq<LogicState>, mhz: nat) returns (r: Outcome)
    requires Terminated(states)
    ensures var needed := SlotsNeeded(Quanta(states, mhz));
            && (r.Refused? <==> !Representable(states, mhz) || needed % 0x1_0000_0000 == 0 || needed % 0x1_0000_0000 > 0x7FFF)
            && (r.Overrun? <==> Representable(states, mhz) && 0 < needed % 0x1_0000_0000 <= 0x7FFF && needed >= 0x1_0000_0000)
    ensures r.Compiled? ==>
              var p := r.program;
              var best := Best(AllUnits(states, mhz));
              && p.prescaler + 1 == best <= 65536 && 0 < p.count == SlotsNeeded(Quanta(states, mhz)) <= 0x7FFF
              && Shaped(p) && (forall j | 0 <= j < p.count :: 1 <= p.holdTime[j] <= 0xFFFF)
              && Playable(Slots(p)) && SameWave(Play(Slots(p), p.prescaler + 1), Requested(states, mhz))
              && (NoneShorter(Requested(states, mhz), p.count) <==> RunsTight(Requested(states, mhz)))
  {
    hide DividesAll, Ticks, SlotsNeeded, Playable, SlotsFor, Slots, SlotAt, RunsTight, NoneShorter;
    var ok, least := FirstPass(states, mhz);
    if !ok { return Refused; }
    var divider := FindDivider(states, mhz, least);
    var used := CountSlots(states, mhz, divider);
    if used == 0 || used > MAX_SLOTS { return Refused; }
    var p, done := Emit(states, mhz, divider, used);
    if !done { return Overrun; }
    TicksExact(AllUnits(states, mhz), divider);
    SlotsForPlays(Quanta(states, mhz), Requested(states, mhz), divider);
    RequestedCost(states, mhz);
    MinimalIff(Requested(states, mhz));
    HoldsInRange(p);
    r := Compiled(p);
  }

  lemma HoldsInRange(p: Program)
    requires Shaped(p) && Playable(Slots(p))
    ensures forall j | 0 <= j < p.count :: 1 <= p.holdTime[j] <= 0xFFFF
  {
    forall j | 0 <= j < p.count
      ensures 1 <= p.holdTime[j] <= 0xFFFF
    {
      assert Slots(p)[j] == SlotAt(p, j);
    }
  }

  lemma RequestedCost(states: seq<LogicState>, mhz: nat)
    requires Terminated(states)
    ensures Durations(Requested(states, mhz)) == AllUnits(states, mhz)
    ensures Cost(Requested(states, mhz)) == SlotsNeeded(Quanta(states, mhz))
  {
    hide Best;
    assert Durations(Requested(states, mhz)) == AllUnits(states, mhz);
  }

  // ---- Calls at the system clock of 216 MHz ----

  const MHZ := 216

  lemma TwoStates(a: LogicState, b: LogicState)
    requires a.holdNs > 0 && b.holdNs > 0
    ensures var states := [a, b, LogicState(0, 0)];
            && Terminated(states) && AllUnits(states, MHZ) == [Units(a.holdNs, MHZ), Units(b.holdNs, MHZ)]
            && Requested(states, MHZ) == [Segment(Units(a.holdNs, MHZ), a.state), Segment(Units(b.holdNs, MHZ), b.state)]
  {
    var states := [a, b, LogicState(0, 0)];
    assert states[2].holdNs == 0;
    assert Count(states) == 2;
  }

  lemma ThreeStates(a: LogicState, b: LogicState, c: LogicState)
    requires a.holdNs > 0 && b.holdNs > 0 && c.holdNs > 0
    ensures var states := [a, b, c, LogicState(0, 0)];
            && Terminated(states)
            && AllUnits(states, MHZ) == [Units(a.holdNs, MHZ), Units(b.holdNs, MHZ), Units(c.holdNs, MHZ)]
            && Requested(states, MHZ) == [Segment(Units(a.holdNs, MHZ), a.state), Segment(Units(b.holdNs, MHZ), b.state),
                                          Segment(Units(c.holdNs, MHZ), c.state)]
  {
    var states := [a, b, c, LogicState(0, 0)];
    assert states[3].holdNs == 0;
    assert Count(states) == 3;
  }

  // A pulse of 900 us followed by the terminator's two equal states: three slots, where two slots of another quantum
  // play the same waveform.
  lemma EqualNeighboursCostMore()
    ensures var states := [LogicState(900000, P_0), LogicState(10000, 0), LogicState(10000, 0), LogicState(0, 0)];
            && Terminated(states) && Representable(states, MHZ) && SlotsNeeded(Quanta(states, MHZ)) == 3
            && Playable([Segment(45, P_0), Segment(1, 0)])
            && SameWave(Play([Segment(45, P_0), Segment(1, 0)], 4320), Requested(states, MHZ))
  {
    hide Best, SameWave;
    ThreeStates(LogicState(900000, P_0), LogicState(10000, 0), LogicState(10000, 0));
    var states := [LogicState(900000, P_0), LogicState(10000, 0), LogicState(10000, 0), LogicState(0, 0)];
    var units := AllUnits(states, MHZ);
    assert units == [194400, 2160, 2160];
    NoneAbove(units, 2160) by { assert units[1] == 2160; }
    BestUnique(units, 2160);
    assert Quanta(states, MHZ) == [90, 1, 1];
    ThreeNeeded(90, 1, 1);
    var first, two: seq<Segment<bv8>> := [Segment(194400, P_0)], [Segment(2160, 0)] + [Segment(2160, 0)];
    var joined: seq<Segment<bv8>> := [Segment(2160 + 2160, 0)];
    JoinTwo(2160, 2160, 0 as bv8);
    SameItself(first);
    SwapWave(two, joined);
    SameWaveConcat(first, first, joined, two);
    assert first + two == Requested(states, MHZ);
    assert Play([Segment(45, P_0), Segment(1, 0)], 4320) == first + joined;
  }

  lemma SameItself<T(!new)>(a: seq<Segment<T>>)
    ensures SameWave(a, a)
  {
  }

  lemma SwapWave<T(!new)>(a: seq<Segment<T>>, b: seq<Segment<T>>)
    requires SameWave(a, b)
    ensures SameWave(b, a)
  {
  }

  lemma ThreeNeeded(a: nat, b: nat, c: nat)
    ensures SlotsNeeded([a, b, c]) == Ceiling(a) + Ceiling(b) + Ceiling(c)
  {
    assert [a, b, c][1..] == [b, c] && [b, c][1..] == [c] && [c][1..] == [];
    assert SlotsNeeded([b, c]) == Ceiling(b) + SlotsNeeded([c]);
  }

  lemma TwoNeeded(a: nat, b: nat)
    ensures SlotsNeeded([a, b]) == Ceiling(a) + Ceiling(b)
  {
    assert [a, b][1..] == [b] && [b][1..] == [];
    assert SlotsNeeded([b]) == Ceiling(b);
  }

  // Equal neighbours that cost nothing: each fills its slots, and the coarsest quantum is already in use.
  lemma EqualNeighboursMayBeFree(state: bv8)
    ensures RunsTight([Segment(MAX_HOLD * COARSEST, state), Segment(MAX_HOLD * COARSEST, state)])
  {
    hide Best;
    var u := MAX_HOLD * COARSEST;
    var wave := [Segment(u, state), Segment(u, state)];
    var merged := Merge(wave);
    assert Merge(wave[1..]) == [wave[1]] by { assert wave[1..][1..] == []; }
    assert merged == [Segment(2 * u, state)];
    assert Runs(wave[1..]) == [[wave[1]]] by { assert wave[1..][1..] == []; }
    assert [wave[0]] + [wave[1]] == wave && [[wave[1]]][1..] == [];
    assert Runs(wave) == [wave];
    BestUnique(Durations(wave), COARSEST);
    BestUnique(Durations(merged), COARSEST);
    assert Ticks(Durations(wave), COARSEST) == [MAX_HOLD, MAX_HOLD];
    TwoNeeded(MAX_HOLD, MAX_HOLD);
    assert Total(wave) == u + Total(wave[1..]) == 2 * u;
  }

  // A list that passes every assertion and needs more slots than the 32-bit count can tell.
  lemma CountWraps()
    ensures var states := [LogicState(125 * MAX_HOLD * SIZE, P_0), LogicState(125, 0), LogicState(0, 0)];
            && Terminated(states) && Representable(states, MHZ) && 125 * MAX_HOLD * SIZE < U64
            && SlotsNeeded(Quanta(states, MHZ)) == SIZE + 1
  {
    hide Best;
    var a, b := LogicState(125 * MAX_HOLD * SIZE, P_0), LogicState(125, 0);
    var states := [a, b, LogicState(0, 0)];
    TwoStates(a, b);
    var units := AllUnits(states, MHZ);
    assert units == [27 * MAX_HOLD * SIZE, 27];
    NoneAbove(units, 27) by { assert units[1] == 27; }
    BestUnique(units, 27);
    assert Quanta(states, MHZ) == [MAX_HOLD * SIZE, 1];
    TwoNeeded(MAX_HOLD * SIZE, 1);
    assert Ceiling(MAX_HOLD * SIZE) == SIZE;
  }
}
