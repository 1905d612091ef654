/** Facts about sequences that several modules use. */
module Sequences {

  lemma Regroup<T>(a: seq<T>, b: seq<T>, c: seq<T>)
    ensures (a + b) + c == a + (b + c)
  {
  }

  // The list without the first occurrence of an element.
  function Without<T(==)>(list: seq<T>, x: T): seq<T> {
    if list == [] then [] else if list[0] == x then list[1..] else [list[0]] + Without(list[1..], x)
  }

  lemma {:induction false} WithoutItems<T>(list: seq<T>, x: T)
    ensures multiset(Without(list, x)) == multiset(list) - multiset{x}
  {
    if list != [] {
      var first, rest := list[0], list[1..];
      WithoutItems(rest, x);
      assert list == [first] + rest;
      if first != x {
        assert multiset([first] + Without(rest, x)) == multiset{first} + multiset(Without(rest, x));
      }
    }
  }

  lemma WithoutSubset<T>(list: seq<T>, x: T)
    ensures forall y | y in Without(list, x) :: y in list
    ensures forall y | y in list && y != x :: y in Without(list, x)
  {
    WithoutItems(list, x);
    forall y: T
      ensures y in Without(list, x) ==> y in list
      ensures y in list && y != x ==> y in Without(list, x)
    {
      assert multiset(Without(list, x))[y] == (multiset(list) - multiset{x})[y];
    }
  }

  lemma {:induction false} WithoutAt<T>(list: seq<T>, x: T, i: nat)
    requires i < |list| && list[i] == x && x !in list[..i]
    ensures Without(list, x) == list[..i] + list[i + 1..]
  {
    if i > 0 {
      assert list[0] == list[..i][0] != x;
      assert list[1..][..i - 1] == list[..i][1..];
      WithoutAt(list[1..], x, i - 1);
    }
  }

  lemma {:induction false} WithoutAbsent<T>(list: seq<T>, x: T)
    requires x !in list
    ensures Without(list, x) == list
  {
    if list != [] {
      WithoutAbsent(list[1..], x);
    }
  }
}
