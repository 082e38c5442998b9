/** Facts about numbers, sets and sequences that several modules share. */
module Collections {
  function Min(a: int, b: int): int { if a < b then a else b }

  function Max(a: int, b: int): int { if a < b then b else a }

  function Elements<T>(s: seq<T>): (r: set<T>) { set x | x in s }

  lemma {:induction false} SetOfSeq<T>(s: seq<T>)
    ensures |Elements(s)| <= |s|
  {
    if s == [] {
      assert Elements(s) == {};
    } else {
      SetOfSeq(s[1..]);
      assert s == [s[0]] + s[1..];
      assert Elements(s) == Elements(s[1..]) + {s[0]};
    }
  }

  lemma SubsetSize<T>(a: set<T>, b: set<T>)
    requires a <= b
    ensures |a| <= |b|
  {
    assert b == a + (b - a);
  }

  lemma TwoParts<T>(all: set<T>, a: set<T>, b: set<T>)
    requires (forall x :: x in all <==> x in a || x in b) && forall x :: x in a ==> x !in b
    ensures |all| == |a| + |b|
  {
    assert all == a + b && a !! b;
  }

  // The numbers from lo to hi - 1.
  function Span(lo: nat, hi: nat): (r: set<nat>)
    requires lo <= hi
    ensures |r| == hi - lo && forall q :: q in r <==> lo <= q < hi
    decreases hi
  {
    if lo == hi then {} else Span(lo, hi - 1) + {hi - 1}
  }
}
