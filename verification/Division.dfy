/** The few facts about division by a variable that the other modules use. */
module Division {

  lemma Euclid(m: nat, d: nat)
    requires d > 0
    ensures m / d * d + m % d == m && m % d < d
  {
  }

  lemma AtLeast(a: nat, d: nat)
    requires a > 0
    ensures a * d >= d
  {
    assert (a - 1) * d >= 0;
  }

  // Quotient and remainder are the only ones in range.
  lemma Unique(m: nat, d: nat, q: nat, r: nat)
    requires d > 0 && m == q * d + r && r < d
    ensures m / d == q && m % d == r
  {
    var p := m / d;
    Euclid(m, d);
    if q > p {
      AtLeast(q - p, d);
    } else if q < p {
      AtLeast(p - q, d);
    }
  }

  lemma MultipleOf(k: nat, d: nat)
    requires d > 0
    ensures k * d % d == 0 && k * d / d == k
  {
    Unique(k * d, d, k, 0);
  }

  lemma Distribute(a: int, b: int, p: int)
    ensures (a + b) * p == a * p + b * p
  {
  }
}
