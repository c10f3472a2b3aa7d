/** Counting distinct naturals, and remainders of the ring arithmetic. */
module Counting {
  function Below(n: nat): (r: set<nat>)
    ensures forall i :: i in r <==> 0 <= i < n
    ensures |r| == n
  {
    if n == 0 then {} else Below(n - 1) + {n - 1}
  }

  function Elements(xs: seq<nat>): (r: set<nat>)
    ensures forall x :: x in r <==> x in xs
  {
    if xs == [] then {} else {xs[0]} + Elements(xs[1..])
  }

  ghost predicate NoDup<T>(xs: seq<T>) {
    forall i, j :: 0 <= i < j < |xs| ==> xs[i] != xs[j]
  }

  lemma {:induction false} DistinctSize(xs: seq<nat>)
    requires NoDup(xs)
    ensures |Elements(xs)| == |xs|
  {
    if xs != [] {
      DistinctSize(xs[1..]);
      assert xs[0] !in xs[1..];
    }
  }

  lemma {:induction false} SubsetSize(a: set<nat>, b: set<nat>)
    requires a <= b
    ensures |a| <= |b|
  {
    if a != {} {
      var x :| x in a;
      SubsetSize(a - {x}, b - {x});
    }
  }

  /** Distinct naturals below `bound` that all miss one of them number fewer than `bound`. */
  lemma Pigeonhole(xs: seq<nat>, bound: nat, missed: nat)
    requires missed < bound && NoDup(xs)
    requires forall i :: 0 <= i < |xs| ==> xs[i] < bound && xs[i] != missed
    ensures |xs| < bound
  {
    DistinctSize(xs);
    SubsetSize(Elements(xs), Below(bound) - {missed});
  }

  lemma ModUnique(x: int, q: int, r: int, c: nat)
    requires 0 < c && x == q * c + r && 0 <= r < c
    ensures x % c == r
  {
    var d := x / c - q;
    assert x == (x / c) * c + x % c;
    assert d * c == r - x % c;
  }

  lemma ModDistinct(a: int, b: int, c: nat)
    requires 0 < c && 0 < a - b < c
    ensures a % c != b % c
  {
    var q, r := b / c, b % c;
    assert b == q * c + r;
    if r + (a - b) < c {
      ModUnique(a, q, r + (a - b), c);
    } else {
      assert (q + 1) * c == q * c + c;
      ModUnique(a, q + 1, r + (a - b) - c, c);
    }
  }

  lemma ModShift(w: int, k: int, c: nat)
    requires 0 < c
    ensures (k * c + w) % c == w % c
  {
    var q := w / c;
    assert w == q * c + w % c;
    assert (k + q) * c == k * c + q * c;
    ModUnique(k * c + w, k + q, w % c, c);
  }

  lemma ModAdd(a: int, b: int, c: nat)
    requires 0 < c
    ensures (a % c + b) % c == (a + b) % c
  {
    var q := a / c;
    assert a + b == q * c + (a % c + b);
    ModShift(a % c + b, q, c);
  }
}
