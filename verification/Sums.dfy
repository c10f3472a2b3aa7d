/** Sums of integer sequences. Thread systems in the other modules weigh every
    program counter with an integer and reason about the total. */
module Sums {
  function Sum(s: seq<int>): int {
    if s == [] then 0 else s[0] + Sum(s[1..])
  }

  ghost predicate NonNeg(s: seq<int>) {
    forall i :: 0 <= i < |s| ==> 0 <= s[i]
  }

  lemma {:induction false} SumUpdate(s: seq<int>, i: nat, v: int)
    requires i < |s|
    ensures Sum(s[i := v]) == Sum(s) - s[i] + v
  {
    if i == 0 {
      assert s[i := v][1..] == s[1..];
    } else {
      assert s[i := v][1..] == s[1..][i - 1 := v];
      SumUpdate(s[1..], i - 1, v);
    }
  }

  lemma {:induction false} SumNonNeg(s: seq<int>)
    requires NonNeg(s)
    ensures 0 <= Sum(s)
  {
    if s != [] {
      SumNonNeg(s[1..]);
    }
  }

  /** No entry exceeds the total. */
  lemma {:induction false} SumAtLeast(s: seq<int>, i: nat)
    requires NonNeg(s) && i < |s|
    ensures s[i] <= Sum(s)
  {
    if i == 0 {
      SumNonNeg(s[1..]);
    } else {
      SumAtLeast(s[1..], i - 1);
    }
  }

  lemma {:induction false} SumAtMost(s: seq<int>, bound: nat)
    requires forall i :: 0 <= i < |s| ==> s[i] <= bound
    ensures Sum(s) <= |s| * bound
  {
    if s != [] {
      SumAtMost(s[1..], bound);
      assert |s| * bound == bound + |s[1..]| * bound;
    }
  }

  lemma {:induction false} SumZero(s: seq<int>)
    requires forall i :: 0 <= i < |s| ==> s[i] == 0
    ensures Sum(s) == 0
  {
    if s != [] {
      SumZero(s[1..]);
    }
  }

  lemma {:induction false} SumAppend(s: seq<int>, v: int)
    ensures Sum(s + [v]) == Sum(s) + v
  {
    if s == [] {
      assert s + [v] == [v];
    } else {
      assert (s + [v])[1..] == s[1..] + [v];
      SumAppend(s[1..], v);
    }
  }
}
