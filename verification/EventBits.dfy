/**
 Event groups of event_groups.c with the bits as a set: setting bits releases
 every waiter whose condition they meet, all against one snapshot, and clears
 what the released waiters asked to have cleared.
 */
module EventBits {
  import opened KernelTypes

  datatype Waiter = Waiter(task: Task, bits: set<nat>, all: bool, clear: bool)

  datatype Group = Group(bits: set<nat>, waiters: seq<Waiter>)

  predicate Met(current: set<nat>, bits: set<nat>, all: bool) {
    if all then bits <= current else bits * current != {}
  }

  predicate Released(w: Waiter, current: set<nat>) {
    Met(current, w.bits, w.all)
  }

  function Select(waiters: seq<Waiter>, current: set<nat>, released: bool): seq<Waiter> {
    if waiters == [] then []
    else (if Released(waiters[0], current) == released then [waiters[0]] else []) + Select(waiters[1..], current, released)
  }

  // The bits the released waiters want cleared.
  function ToClear(waiters: seq<Waiter>, current: set<nat>): set<nat> {
    if waiters == [] then {}
    else (if Released(waiters[0], current) && waiters[0].clear then waiters[0].bits else {}) + ToClear(waiters[1..], current)
  }

  // ---- Operations ----

  function SetBits(g: Group, bits: set<nat>): Group {
    var now := g.bits + bits;
    Group(now - ToClear(g.waiters, now), Select(g.waiters, now, false))
  }

  datatype Outcome = Returns(bits: set<nat>) | Blocks

  function WaitBits(g: Group, t: Task, bits: set<nat>, clear: bool, all: bool, mayBlock: bool): (Group, Outcome) {
    if Met(g.bits, bits, all) then (g.(bits := if clear then g.bits - bits else g.bits), Returns(g.bits))
    else if !mayBlock then (g, Returns(g.bits))
    else (g.(waiters := g.waiters + [Waiter(t, bits, all, clear)]), Blocks)
  }

  function Sync(g: Group, t: Task, toSet: set<nat>, bits: set<nat>, mayBlock: bool): (Group, Outcome) {
    var g' := SetBits(g, toSet);
    if bits <= g.bits + toSet then (g'.(bits := g'.bits - bits), Returns(g.bits + toSet))
    else if !mayBlock then (g', Returns(g'.bits))
    else (g'.(waiters := g'.waiters + [Waiter(t, bits, true, true)]), Blocks)
  }

  function ClearBits(g: Group, bits: set<nat>): Group {
    g.(bits := g.bits - bits)
  }

  function Leave(waiters: seq<Waiter>, t: Task): seq<Waiter> {
    if waiters == [] then [] else if waiters[0].task == t then waiters[1..] else [waiters[0]] + Leave(waiters[1..], t)
  }

  // A waiter whose time is up returns the bits of the moment, and clears them if they meet its condition by now.
  function FinishTimeOut(g: Group, bits: set<nat>, clear: bool, all: bool): (Group, set<nat>) {
    (if Met(g.bits, bits, all) && clear then g.(bits := g.bits - bits) else g, g.bits)
  }

  datatype Op =
    | Set(bits: set<nat>)
    | Wait(t: Task, bits: set<nat>, clear: bool, all: bool, mayBlock: bool)
    | Rendezvous(t: Task, toSet: set<nat>, bits: set<nat>, mayBlock: bool)
    | Clear(bits: set<nat>)
    | TimeOut(t: Task)
    | Finish(bits: set<nat>, clear: bool, all: bool)

  function Next(g: Group, op: Op): Group {
    match op
    case Set(bits) => SetBits(g, bits)
    case Wait(t, bits, clear, all, mayBlock) => WaitBits(g, t, bits, clear, all, mayBlock).0
    case Rendezvous(t, toSet, bits, mayBlock) => Sync(g, t, toSet, bits, mayBlock).0
    case Clear(bits) => ClearBits(g, bits)
    case TimeOut(t) => g.(waiters := Leave(g.waiters, t))
    case Finish(bits, clear, all) => FinishTimeOut(g, bits, clear, all).0
  }

  function Run(g: Group, ops: seq<Op>): Group
    decreases |ops|
  {
    if ops == [] then g else Run(Next(g, ops[0]), ops[1..])
  }

  // ---- Quiescence ----

  // No blocked waiter's condition is met by the current bits.
  ghost predicate Quiet(g: Group) {
    forall i | 0 <= i < |g.waiters| :: !Released(g.waiters[i], g.bits)
  }

  lemma MetMonotone(fewer: set<nat>, more: set<nat>, bits: set<nat>, all: bool)
    requires fewer <= more && Met(fewer, bits, all)
    ensures Met(more, bits, all)
  {
    if !all {
      var b :| b in bits * fewer;
      assert b in bits * more;
    }
  }

  lemma {:induction false} SelectMembers(waiters: seq<Waiter>, current: set<nat>, released: bool)
    ensures forall w :: w in Select(waiters, current, released) <==> w in waiters && Released(w, current) == released
  {
    hide Released;
    if waiters != [] {
      SelectMembers(waiters[1..], current, released);
      assert waiters == [waiters[0]] + waiters[1..];
    }
  }

  lemma {:induction false} SelectSplits(waiters: seq<Waiter>, current: set<nat>)
    ensures multiset(Select(waiters, current, true)) + multiset(Select(waiters, current, false)) == multiset(waiters)
  {
    hide Released;
    if waiters != [] {
      SelectSplits(waiters[1..], current);
      assert waiters == [waiters[0]] + waiters[1..];
    }
  }

  // The cleared bits are exactly those waited for by released waiters that clear on exit.
  lemma {:induction false} ClearsExactly(waiters: seq<Waiter>, current: set<nat>, b: nat)
    ensures b in ToClear(waiters, current) <==>
            exists i :: 0 <= i < |waiters| && Released(waiters[i], current) && waiters[i].clear && b in waiters[i].bits
  {
    if waiters != [] {
      ClearsExactly(waiters[1..], current, b);
      if i :| 0 <= i < |waiters| && Released(waiters[i], current) && waiters[i].clear && b in waiters[i].bits {
        assert i > 0 ==> waiters[1..][i - 1] == waiters[i];
      }
      if j :| 0 <= j < |waiters[1..]| && Released(waiters[1..][j], current) && waiters[1..][j].clear && b in waiters[1..][j].bits {
        assert waiters[j + 1] == waiters[1..][j];
      }
    }
  }

  // One set call releases the waiters its snapshot satisfies, in order, keeps the others, and clears exactly the union of
  // the bits of released clear-on-exit waiters.
  lemma SetBitsSpec(g: Group, bits: set<nat>)
    ensures var now, g', out := g.bits + bits, SetBits(g, bits), Select(g.waiters, g.bits + bits, true);
            && multiset(out) + multiset(g'.waiters) == multiset(g.waiters)
            && (forall w | w in out :: Met(now, w.bits, w.all))
            && (forall w | w in g'.waiters :: !Met(now, w.bits, w.all))
            && g'.bits == now - set w, b | w in out && w.clear && b in w.bits :: b
  {
    var now := g.bits + bits;
    SelectSplits(g.waiters, now);
    SelectMembers(g.waiters, now, true);
    SelectMembers(g.waiters, now, false);
    forall b
      ensures b in ToClear(g.waiters, now) <==> exists w :: w in Select(g.waiters, now, true) && w.clear && b in w.bits
    {
      ClearsExactly(g.waiters, now, b);
      if w :| w in Select(g.waiters, now, true) && w.clear && b in w.bits {
        var i :| 0 <= i < |g.waiters| && g.waiters[i] == w;
      }
    }
  }

  lemma SetBitsQuiet(g: Group, bits: set<nat>)
    ensures Quiet(SetBits(g, bits)) && SetBits(g, bits).bits <= g.bits + bits
    ensures forall w | w in SetBits(g, bits).waiters :: w in g.waiters
  {
    var now, g' := g.bits + bits, SetBits(g, bits);
    SelectMembers(g.waiters, now, false);
    forall i | 0 <= i < |g'.waiters|
      ensures !Released(g'.waiters[i], g'.bits)
    {
      var w := g'.waiters[i];
      assert w in Select(g.waiters, now, false);
      if Released(w, g'.bits) {
        MetMonotone(g'.bits, now, w.bits, w.all);
        assert false;
      }
    }
  }

  lemma FewerBitsQuiet(g: Group, fewer: set<nat>)
    requires Quiet(g) && fewer <= g.bits
    ensures Quiet(g.(bits := fewer))
  {
    forall i | 0 <= i < |g.waiters|
      ensures !Released(g.waiters[i], fewer)
    {
      if Released(g.waiters[i], fewer) {
        MetMonotone(fewer, g.bits, g.waiters[i].bits, g.waiters[i].all);
        assert false;
      }
    }
  }

  lemma {:induction false} LeaveSub(waiters: seq<Waiter>, t: Task)
    ensures forall w | w in Leave(waiters, t) :: w in waiters
  {
    if waiters != [] {
      LeaveSub(waiters[1..], t);
    }
  }

  lemma SyncQuiet(g: Group, t: Task, toSet: set<nat>, bits: set<nat>, mayBlock: bool)
    ensures Quiet(Sync(g, t, toSet, bits, mayBlock).0)
  {
    var g' := SetBits(g, toSet);
    SetBitsQuiet(g, toSet);
    if bits <= g.bits + toSet {
      FewerBitsQuiet(g', g'.bits - bits);
    } else if Met(g'.bits, bits, true) {
      assert false;
    }
  }

  // Set, wait, rendezvous, clear and time-out calls all leave no satisfied waiter behind.
  lemma StepQuiet(g: Group, op: Op)
    requires Quiet(g)
    ensures Quiet(Next(g, op))
  {
    hide Select, ToClear;
    match op
    case Set(bits) => SetBitsQuiet(g, bits);
    case Wait(t, bits, clear, all, mayBlock) => FewerBitsQuiet(g, g.bits - bits);
    case Rendezvous(t, toSet, bits, mayBlock) => SyncQuiet(g, t, toSet, bits, mayBlock);
    case Clear(bits) => FewerBitsQuiet(g, g.bits - bits);
    case TimeOut(t) =>
      LeaveSub(g.waiters, t);
      var r := Leave(g.waiters, t);
      forall i | 0 <= i < |r|
        ensures !Released(r[i], g.bits)
      {
        assert r[i] in g.waiters;
      }
    case Finish(bits, clear, all) => FewerBitsQuiet(g, g.bits - bits);
  }

  lemma {:induction false} AlwaysQuiet(ops: seq<Op>, g: Group)
    requires Quiet(g)
    ensures Quiet(Run(g, ops))
    decreases |ops|
  {
    if ops != [] {
      StepQuiet(g, ops[0]);
      AlwaysQuiet(ops[1..], Next(g, ops[0]));
    }
  }

  // ---- What every call does to the bits, one by one ----

  // The bits the call sets before anything else.
  function Setting(op: Op): set<nat> {
    if op.Set? then op.bits else if op.Rendezvous? then op.toSet else {}
  }

  // A waiter blocked before the call is let go by it, and asked for the bit to be cleared.
  ghost predicate ClearedForWaiter(g: Group, op: Op, b: nat) {
    var now := g.bits + Setting(op);
    (op.Set? || op.Rendezvous?) &&
    exists w :: w in g.waiters && w.clear && b in w.bits
                && if w.all then forall x | x in w.bits :: x in now else exists x :: x in w.bits && x in now
  }

  // The caller's own condition is met, and it asked for the bit to be cleared.
  ghost predicate ClearedForCaller(g: Group, op: Op, b: nat) {
    match op
    case Wait(_, bits, clear, all, _) =>
      clear && b in bits && if all then forall x | x in bits :: x in g.bits else exists x :: x in bits && x in g.bits
    case Rendezvous(_, toSet, bits, _) => b in bits && forall x | x in bits :: x in g.bits || x in toSet
    case Finish(bits, clear, all) =>
      clear && b in bits && if all then forall x | x in bits :: x in g.bits else exists x :: x in bits && x in g.bits
    case _ => false
  }

  lemma MetPlain(current: set<nat>, bits: set<nat>, all: bool)
    ensures Met(current, bits, all)
       <==> if all then forall x | x in bits :: x in current else exists x :: x in bits && x in current
  {
    if !all && exists x :: x in bits && x in current {
      var x :| x in bits && x in current;
      assert x in bits * current;
    }
    if !all && bits * current != {} {
      var x :| x in bits * current;
    }
  }

  lemma ToClearPlain(waiters: seq<Waiter>, now: set<nat>, b: nat)
    ensures b in ToClear(waiters, now) <==>
            exists w :: w in waiters && w.clear && b in w.bits
                        && if w.all then forall x | x in w.bits :: x in now else exists x :: x in w.bits && x in now
  {
    ClearsExactly(waiters, now, b);
    forall w | w in waiters
      ensures Released(w, now)
         <==> if w.all then forall x | x in w.bits :: x in now else exists x :: x in w.bits && x in now
    {
      MetPlain(now, w.bits, w.all);
    }
    if b in ToClear(waiters, now) {
      var i :| 0 <= i < |waiters| && Released(waiters[i], now) && waiters[i].clear && b in waiters[i].bits;
      assert waiters[i] in waiters;
    }
    if w :| w in waiters && w.clear && b in w.bits
            && if w.all then forall x | x in w.bits :: x in now else exists x :: x in w.bits && x in now {
      var i :| 0 <= i < |waiters| && waiters[i] == w;
    }
  }

  // A bit is set after a call if and only if it was set before or by it, and was not cleared for a waiter let go, for the
  // caller itself, or by a clear call that names it.
  lemma BitsAfter(g: Group, op: Op, b: nat)
    ensures b in Next(g, op).bits <==>
              && (b in g.bits || b in Setting(op))
              && !ClearedForWaiter(g, op, b) && !ClearedForCaller(g, op, b) && !(op.Clear? && b in op.bits)
  {
    hide ToClear, Select, Met;
    var now := g.bits + Setting(op);
    ToClearPlain(g.waiters, now, b);
    match op
    case Wait(_, bits, _, all, _) => MetPlain(g.bits, bits, all);
    case Finish(bits, _, all) => MetPlain(g.bits, bits, all);
    case _ =>
  }

  // A call returns at once exactly when its condition is met or it may not block, and then with the bits before its own
  // clearing; otherwise the caller waits, behind the others, for exactly what it asked for.
  lemma CallReturns(g: Group, t: Task, bits: set<nat>, clear: bool, all: bool, mayBlock: bool)
    ensures var (g', out) := WaitBits(g, t, bits, clear, all, mayBlock);
            var met := if all then forall x | x in bits :: x in g.bits else exists x :: x in bits && x in g.bits;
            if met || !mayBlock then out == Returns(g.bits) && g'.waiters == g.waiters
            else out == Blocks && g' == Group(g.bits, g.waiters + [Waiter(t, bits, all, clear)])
  {
    MetPlain(g.bits, bits, all);
  }

  // A caller whose time is up returns the bits before its own clearing, and leaves the waiters alone.
  lemma TimedOutReturns(g: Group, bits: set<nat>, clear: bool, all: bool)
    ensures var (g', value) := FinishTimeOut(g, bits, clear, all); value == g.bits && g'.waiters == g.waiters
  {
  }

  // At a rendezvous likewise, with the bits as they were once the caller's were set, if that completes them.
  lemma RendezvousReturns(g: Group, t: Task, toSet: set<nat>, bits: set<nat>, mayBlock: bool)
    ensures var (g', out) := Sync(g, t, toSet, bits, mayBlock);
            if forall x | x in bits :: x in g.bits || x in toSet then out == Returns(g.bits + toSet)
            else if !mayBlock then out == Returns(g'.bits)
            else out == Blocks && g'.waiters != [] && g'.waiters[|g'.waiters| - 1] == Waiter(t, bits, true, true)
  {
    assert (forall x | x in bits :: x in g.bits || x in toSet) <==> bits <= g.bits + toSet;
  }

  // Who waits after a call: those who did and are not let go or timed out, in their order, and perhaps the caller.
  lemma WaitersAfter(g: Group, op: Op, w: Waiter)
    requires !(op.Wait? && w.task == op.t) && !(op.Rendezvous? && w.task == op.t) && !(op.TimeOut? && w.task == op.t)
    ensures var now := g.bits + Setting(op);
            w in Next(g, op).waiters <==>
              && w in g.waiters
              && !((op.Set? || op.Rendezvous?)
                   && if w.all then forall x | x in w.bits :: x in now else exists x :: x in w.bits && x in now)
  {
    hide ToClear, Select, Met;
    var now := g.bits + Setting(op);
    SelectMembers(g.waiters, now, false);
    MetPlain(now, w.bits, w.all);
    if op.TimeOut? {
      LeaveOthers(g.waiters, op.t, w);
    }
  }

  lemma {:induction false} LeaveOthers(waiters: seq<Waiter>, t: Task, w: Waiter)
    requires w.task != t
    ensures w in Leave(waiters, t) <==> w in waiters
  {
    if waiters != [] {
      LeaveOthers(waiters[1..], t, w);
      assert waiters == [waiters[0]] + waiters[1..];
    }
  }

  // A time-out takes one waiter of the task away, if there is one.
  lemma {:induction false} LeavesOnce(waiters: seq<Waiter>, t: Task)
    ensures |Leave(waiters, t)| == |waiters| - if exists w :: w in waiters && w.task == t then 1 else 0
    decreases |waiters|
  {
    if waiters != [] {
      LeavesOnce(waiters[1..], t);
      assert waiters == [waiters[0]] + waiters[1..];
    }
  }
}
