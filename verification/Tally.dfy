/**
 Sums over a sequence of thread states. Every protocol below counts threads by
 their program counter (how many wait, how many hold a token, ...), and every
 atomic step changes the state of one thread only.
 */
module Tally {

  function Sum<T>(s: seq<T>, f: T -> nat): (n: nat)
  {
    if s == [] then 0 else f(s[0]) + Sum(s[1..], f)
  }

  lemma {:induction false} SumUpdate<T>(s: seq<T>, f: T -> nat, i: nat, x: T)
    requires i < |s|
    ensures Sum(s[i := x], f) == Sum(s, f) - f(s[i]) + f(x)
  {
    if i == 0 {
      assert s[0 := x][1..] == s[1..];
    } else {
      assert s[i := x][1..] == s[1..][i - 1 := x];
      SumUpdate(s[1..], f, i - 1, x);
    }
  }

  lemma {:induction false} SumAppend<T>(s: seq<T>, f: T -> nat, x: T)
    ensures Sum(s + [x], f) == Sum(s, f) + f(x)
  {
    if s == [] {
      assert s + [x] == [x];
    } else {
      assert (s + [x])[1..] == s[1..] + [x];
      SumAppend(s[1..], f, x);
    }
  }

  lemma {:induction false} SumAtLeast<T>(s: seq<T>, f: T -> nat, i: nat)
    requires i < |s|
    ensures f(s[i]) <= Sum(s, f)
  {
    if i > 0 {
      SumAtLeast(s[1..], f, i - 1);
    }
  }

  lemma {:induction false} SumAtLeastTwo<T>(s: seq<T>, f: T -> nat, i: nat, j: nat)
    requires i < j < |s|
    ensures f(s[i]) + f(s[j]) <= Sum(s, f)
  {
    if i == 0 {
      SumAtLeast(s[1..], f, j - 1);
    } else {
      SumAtLeastTwo(s[1..], f, i - 1, j - 1);
    }
  }

  lemma {:induction false} SumWitness<T>(s: seq<T>, f: T -> nat) returns (i: nat)
    requires Sum(s, f) > 0
    ensures i < |s| && f(s[i]) > 0
  {
    if f(s[0]) > 0 {
      i := 0;
    } else {
      i := SumWitness(s[1..], f);
      i := i + 1;
    }
  }

  lemma {:induction false} SumZero<T>(s: seq<T>, f: T -> nat)
    requires forall i :: 0 <= i < |s| ==> f(s[i]) == 0
    ensures Sum(s, f) == 0
  {
    if s != [] {
      SumZero(s[1..], f);
    }
  }

  // A pointwise bound carries over to the sums.
  lemma {:induction false} SumBelow<T>(s: seq<T>, f: T -> nat, g: T -> nat)
    requires forall i :: 0 <= i < |s| ==> f(s[i]) <= g(s[i])
    ensures Sum(s, f) <= Sum(s, g)
  {
    if s != [] {
      SumBelow(s[1..], f, g);
    }
  }

  // What an update at index i does to a sum; the old entry was part of it.
  ghost predicate Shifted<T>(s: seq<T>, i: nat, x: T, f: T -> nat)
    requires i < |s|
  {
    f(s[i]) <= Sum(s, f) && Sum(s[i := x], f) == Sum(s, f) - f(s[i]) + f(x)
  }

  lemma SumShifted<T>(s: seq<T>, i: nat, x: T, f: T -> nat)
    requires i < |s|
    ensures Shifted(s, i, x, f)
  {
    SumUpdate(s, f, i, x);
    SumAtLeast(s, f, i);
  }

  lemma {:induction false} SumSame<T>(s: seq<T>, s': seq<T>, f: T -> nat)
    requires |s| == |s'| && forall i :: 0 <= i < |s| ==> f(s[i]) == f(s'[i])
    ensures Sum(s, f) == Sum(s', f)
  {
    if s != [] {
      SumSame(s[1..], s'[1..], f);
    }
  }
}
