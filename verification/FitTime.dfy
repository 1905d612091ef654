/**
 fit_time of algos.c and its use by basic_pulse_cmd of uart_cli.c: a duration
 in nanoseconds is played as a number of RAM elements of one common rate,
 counted in periods of 4 ns.
 */
module FitTime {
  import opened Division

  const MAX_RATE := 0xFFFF
  const MAX_ELEMENTS := 1023
  const RAM_WORDS := 1024

  // t nanoseconds are exactly n elements of some rate the profile register can hold.
  ghost predicate Exact(t: nat, n: nat) {
    exists rate: nat :: 1 <= rate <= MAX_RATE && 4 * (rate * n) == t
  }

  predicate Accepted(t: nat, n: nat)
    requires n > 0
  {
    t / 4 / n <= MAX_RATE && t % (4 * n) == 0
  }

  lemma RateOf(t: nat, n: nat)
    requires n > 0 && t % (4 * n) == 0
    ensures 4 * (t / 4 / n * n) == t
  {
    var q := t / (4 * n);
    Euclid(t, 4 * n);
    assert t == q * (4 * n) == 4 * (q * n);
    MultipleOf(q, n);
    assert t / 4 == q * n;
  }

  // The test the loop makes on a positive duration is exactness.
  lemma AcceptedIffExact(t: nat, n: nat)
    requires t > 0 && n > 0
    ensures Accepted(t, n) <==> Exact(t, n)
  {
    if Accepted(t, n) {
      RateOf(t, n);
    }
    if Exact(t, n) {
      var rate: nat :| 1 <= rate <= MAX_RATE && 4 * (rate * n) == t;
      MultipleOf(rate, n);
      assert t == rate * (4 * n);
      MultipleOf(rate, 4 * n);
    }
  }

  method FitTime(t: nat) returns (r: nat)
    ensures r == 0 <==> forall n | 1 <= n <= MAX_ELEMENTS :: !Exact(t, n)
    ensures r > 0 ==> exists n | 1 <= n <= MAX_ELEMENTS :: 4 * (r * n) == t && forall m | 1 <= m < n :: !Exact(t, m)
    ensures r <= MAX_RATE
  {
    hide Accepted, Exact;
    if t % 4 != 0 {
      NeverExact(t);
      return 0;
    }
    var n := 1;
    while !Accepted(t, n)
      invariant 1 <= n <= MAX_ELEMENTS
      invariant forall m | 1 <= m < n :: !Accepted(t, m)
      decreases MAX_ELEMENTS - n
    {
      n := n + 1;
      if n > MAX_ELEMENTS {
        RejectedNotExact(t, n);
        return 0;
      }
    }
    r := t / 4 / n;
    Found(t, n);
    RejectedNotExact(t, n);
  }

  lemma NeverExact(t: nat)
    requires t % 4 != 0 || t == 0
    ensures forall n | 1 <= n <= MAX_ELEMENTS :: !Exact(t, n)
  {
    forall n, rate: nat | 1 <= n <= MAX_ELEMENTS && 1 <= rate <= MAX_RATE
      ensures 4 * (rate * n) != t
    {
      AtLeast(n, rate);
    }
  }

  lemma RejectedNotExact(t: nat, n: nat)
    requires n >= 1 && forall m | 1 <= m < n :: !Accepted(t, m)
    ensures forall m | 1 <= m < n :: !Exact(t, m)
  {
    forall m | 1 <= m < n
      ensures !Exact(t, m)
    {
      if t == 0 {
        AtLeast(1, 4 * m);
        MultipleOf(0, 4 * m);
        assert Accepted(t, 1);
      } else {
        AcceptedIffExact(t, m);
      }
    }
  }

  lemma Found(t: nat, n: nat)
    requires 1 <= n <= MAX_ELEMENTS && t % 4 == 0 && Accepted(t, n)
    ensures var r := t / 4 / n;
            && r <= MAX_RATE && 4 * (r * n) == t
            && (r > 0 ==> Exact(t, n))
            && (r == 0 ==> forall m | 1 <= m <= MAX_ELEMENTS :: !Exact(t, m))
  {
    RateOf(t, n);
    if t / 4 / n == 0 {
      NeverExact(t);
    }
  }

  // The caller: the element count recovered from the rate, and the RAM words written.
  method PulseElements(t: nat) returns (rate: nat, elements: nat, words: nat)
    ensures rate == 0 <==> forall n | 1 <= n <= MAX_ELEMENTS :: !Exact(t, n)
    ensures rate > 0 ==>
              && 4 * (rate * elements) == t && rate <= MAX_RATE
              && (forall n | 1 <= n < elements :: !Exact(t, n))
              && words == elements + 1 <= RAM_WORDS
  {
    hide Exact;
    rate := FitTime(t);
    elements, words := 0, 0;
    if rate > 0 {
      elements := t / 4 / rate;
      ghost var n :| 1 <= n <= MAX_ELEMENTS && 4 * (rate * n) == t && forall m | 1 <= m < n :: !Exact(t, m);
      MultipleOf(n, rate);
      assert t / 4 == n * rate;
      words := elements + 1;
    }
  }
}
