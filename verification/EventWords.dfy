/**
 Event bits as they are stored: a 32-bit word with 24 event bits and a control
 byte. The word operations are the set operations on the event bits.
 */
module EventWords {

  const CLEAR_EVENTS_ON_EXIT: bv32 := 0x0100_0000
  const UNBLOCKED_DUE_TO_BIT_SET: bv32 := 0x0200_0000
  const WAIT_FOR_ALL: bv32 := 0x0400_0000
  const CONTROL: bv32 := 0xFF00_0000

  // A word without control bits.
  predicate Plain(x: bv32) {
    x & CONTROL == 0
  }

  predicate Low(x: bv32) {
    x & 1 == 1
  }

  function Half(x: bv32): bv32 {
    x >> 1
  }

  function Or(a: bv32, b: bv32): bv32 {
    a | b
  }

  function And(a: bv32, b: bv32): bv32 {
    a & b
  }

  predicate Bit(x: bv32, i: nat)
    decreases i
  {
    if i == 0 then Low(x) else Bit(Half(x), i - 1)
  }

  function BitsOf(x: bv32): set<nat> {
    set i | 0 <= i < 24 && Bit(x, i)
  }

  lemma OrWords(a: bv32, b: bv32)
    ensures Low(Or(a, b)) <==> Low(a) || Low(b)
    ensures Half(Or(a, b)) == Or(Half(a), Half(b))
  {
  }

  lemma AndWords(a: bv32, b: bv32)
    ensures Low(And(a, b)) <==> Low(a) && Low(b)
    ensures Half(And(a, b)) == And(Half(a), Half(b))
  {
  }

  lemma {:induction false} BitOr(a: bv32, b: bv32, i: nat)
    ensures Bit(Or(a, b), i) <==> Bit(a, i) || Bit(b, i)
    decreases i
  {
    hide Low, Half, Or;
    OrWords(a, b);
    if i > 0 {
      BitOr(Half(a), Half(b), i - 1);
    }
  }

  lemma {:induction false} BitAnd(a: bv32, b: bv32, i: nat)
    ensures Bit(And(a, b), i) <==> Bit(a, i) && Bit(b, i)
    decreases i
  {
    hide Low, Half, And;
    AndWords(a, b);
    if i > 0 {
      BitAnd(Half(a), Half(b), i - 1);
    }
  }

  lemma BitsOr(a: bv32, b: bv32)
    ensures BitsOf(a | b) == BitsOf(a) + BitsOf(b)
  {
    hide Bit;
    assert Or(a, b) == a | b;
    forall i: nat { BitOr(a, b, i); }
  }

  lemma BitsAnd(a: bv32, b: bv32)
    ensures BitsOf(a & b) == BitsOf(a) * BitsOf(b)
  {
    hide Bit;
    assert And(a, b) == a & b;
    forall i: nat { BitAnd(a, b, i); }
  }

  lemma SplitWord(a: bv32, b: bv32)
    ensures (a & b) | (a & !b) == a && (a & !b) & b == 0
  {
  }

  // The event bits without those of a mask.
  lemma BitsWithout(a: bv32, b: bv32)
    ensures BitsOf(a & !b) == BitsOf(a) - BitsOf(b)
  {
    hide BitsOf;
    SplitWord(a, b);
    BitsOr(a & b, a & !b);
    BitsAnd(a, b);
    BitsAnd(a & !b, b);
    BitsOfZero();
    assert BitsOf(a) == BitsOf(a) * BitsOf(b) + BitsOf(a & !b);
    assert BitsOf(a & !b) * BitsOf(b) == {};
    forall i: nat
      ensures i in BitsOf(a & !b) <==> i in BitsOf(a) - BitsOf(b)
    {
      assert i in BitsOf(a) <==> i in BitsOf(a) * BitsOf(b) + BitsOf(a & !b);
      assert i in BitsOf(a & !b) && i in BitsOf(b) ==> i in BitsOf(a & !b) * BitsOf(b);
    }
  }

  lemma BitsOfZero()
    ensures BitsOf(0) == {}
  {
    forall i: nat
      ensures !Bit(0, i)
    {
      ZeroBit(i);
    }
  }

  lemma {:induction false} ZeroBit(i: nat)
    ensures !Bit(0, i)
    decreases i
  {
    assert Half(0) == 0 && !Low(0);
    if i > 0 {
      ZeroBit(i - 1);
    }
  }

  function Shifted(x: bv32, n: nat): bv32
    decreases n
  {
    if n == 0 then x else Shifted(Half(x), n - 1)
  }

  lemma NotBothZero(x: bv32)
    requires x != 0
    ensures Low(x) || Half(x) != 0
  {
  }

  lemma {:induction false} SomeBit(x: bv32, n: nat) returns (i: nat)
    requires x != 0 && Shifted(x, n) == 0
    ensures i < n && Bit(x, i)
    decreases n
  {
    hide Low, Half;
    NotBothZero(x);
    if Low(x) {
      i := 0;
    } else {
      i := SomeBit(Half(x), n - 1);
      i := i + 1;
    }
  }

  function Nibble(x: bv32): bv32 {
    x >> 4
  }

  lemma ShiftedFour(x: bv32, n: nat)
    ensures Shifted(x, n + 4) == Shifted(Nibble(x), n)
  {
    assert Shifted(x, n + 4) == Shifted(Half(x), n + 3) == Shifted(Half(Half(x)), n + 2)
        == Shifted(Half(Half(Half(x))), n + 1) == Shifted(Half(Half(Half(Half(x)))), n);
    assert Half(Half(Half(Half(x)))) == x >> 4;
  }

  lemma SixNibbles(x: bv32)
    requires Plain(x)
    ensures Nibble(Nibble(Nibble(Nibble(Nibble(Nibble(x)))))) == 0
  {
  }

  lemma PlainShifted(x: bv32)
    requires Plain(x)
    ensures Shifted(x, 24) == 0
  {
    hide Nibble, Plain, Half, Shifted;
    var x1 := Nibble(x);
    var x2 := Nibble(x1);
    var x3 := Nibble(x2);
    var x4 := Nibble(x3);
    var x5 := Nibble(x4);
    ShiftedFour(x, 20);
    ShiftedFour(x1, 16);
    ShiftedFour(x2, 12);
    ShiftedFour(x3, 8);
    ShiftedFour(x4, 4);
    ShiftedFour(x5, 0);
    SixNibbles(x);
    ShiftedNone(Nibble(x5));
  }

  lemma ShiftedNone(x: bv32)
    ensures Shifted(x, 0) == x
  {
  }

  // A word of event bits is zero exactly when it has none.
  lemma NoBits(x: bv32)
    requires Plain(x)
    ensures x == 0 <==> BitsOf(x) == {}
  {
    BitsOfZero();
    if x != 0 {
      PlainShifted(x);
      var i := SomeBit(x, 24);
      assert i in BitsOf(x);
    }
  }

  lemma TestAny(now: bv32, wanted: bv32)
    requires Plain(wanted)
    ensures now & wanted != 0 <==> BitsOf(wanted) * BitsOf(now) != {}
  {
    assert Plain(now & wanted);
    NoBits(now & wanted);
    BitsAnd(now, wanted);
  }

  lemma AllWords(now: bv32, wanted: bv32)
    ensures (now & wanted) ^ wanted == wanted & !now
    ensures Plain(wanted) ==> Plain(wanted & !now)
  {
  }

  lemma SameWord(a: bv32, b: bv32)
    ensures a ^ b == 0 <==> a == b
  {
  }

  lemma TestAll(now: bv32, wanted: bv32)
    requires Plain(wanted)
    ensures now & wanted == wanted <==> BitsOf(wanted) <= BitsOf(now)
  {
    hide BitsOf, Plain;
    AllWords(now, wanted);
    SameWord(now & wanted, wanted);
    NoBits(wanted & !now);
    BitsWithout(wanted, now);
    var a, b := BitsOf(wanted), BitsOf(now);
    if a - b == {} {
      forall i | i in a
        ensures i in b
      {
        assert i !in a - b;
      }
    }
  }

  // What a waiter's event list item holds: the bits it wants, and how it wants them.
  function ItemValue(wanted: bv32, all: bool, clear: bool): bv32 {
    wanted | (if clear then CLEAR_EVENTS_ON_EXIT else 0) | (if all then WAIT_FOR_ALL else 0)
  }

  lemma ItemDecodes(wanted: bv32, all: bool, clear: bool)
    requires Plain(wanted)
    ensures var v := ItemValue(wanted, all, clear);
            && v & !CONTROL == wanted && (v & WAIT_FOR_ALL != 0 <==> all) && (v & CLEAR_EVENTS_ON_EXIT != 0 <==> clear)
            && v & UNBLOCKED_DUE_TO_BIT_SET == 0
  {
  }
}
