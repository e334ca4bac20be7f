/** Counting and summing over sequences of tasks, with the effect of changing one entry. */
module Counting {

  function Count<T>(xs: seq<T>, p: T -> bool): nat {
    if xs == [] then 0 else (if p(xs[0]) then 1 else 0) + Count(xs[1..], p)
  }

  function Sum<T>(xs: seq<T>, f: T -> nat): nat {
    if xs == [] then 0 else f(xs[0]) + Sum(xs[1..], f)
  }

  function Max(a: nat, b: nat): nat {
    if a < b then b else a
  }

  lemma {:induction false} CountUpdate<T>(xs: seq<T>, i: nat, x: T, p: T -> bool)
    requires i < |xs|
    ensures Count(xs[i := x], p) + (if p(xs[i]) then 1 else 0) == Count(xs, p) + (if p(x) then 1 else 0)
  {
    if i == 0 {
      assert xs[i := x][1..] == xs[1..];
    } else {
      assert xs[i := x][1..] == xs[1..][i - 1 := x];
      CountUpdate(xs[1..], i - 1, x, p);
    }
  }

  lemma {:induction false} CountAppend<T>(xs: seq<T>, x: T, p: T -> bool)
    ensures Count(xs + [x], p) == Count(xs, p) + (if p(x) then 1 else 0)
  {
    if xs == [] {
      assert xs + [x] == [x];
    } else {
      assert (xs + [x])[1..] == xs[1..] + [x];
      CountAppend(xs[1..], x, p);
    }
  }

  lemma {:induction false} CountWitness<T>(xs: seq<T>, p: T -> bool) returns (i: nat)
    requires Count(xs, p) > 0
    ensures i < |xs| && p(xs[i])
  {
    if p(xs[0]) {
      i := 0;
    } else {
      i := CountWitness(xs[1..], p);
      i := i + 1;
    }
  }

  lemma {:induction false} CountMonotone<T(!new)>(xs: seq<T>, p: T -> bool, q: T -> bool)
    requires forall x :: p(x) ==> q(x)
    ensures Count(xs, p) <= Count(xs, q)
  {
    if xs != [] {
      CountMonotone(xs[1..], p, q);
    }
  }

  lemma {:induction false} CountNone<T>(xs: seq<T>, p: T -> bool)
    requires forall i :: 0 <= i < |xs| ==> !p(xs[i])
    ensures Count(xs, p) == 0
  {
    if xs != [] {
      assert !p(xs[0]);
      CountNone(xs[1..], p);
    }
  }

  /** At most one entry satisfies `p` when any two that do are the same entry. */
  lemma {:induction false} CountAtMostOne<T>(xs: seq<T>, p: T -> bool)
    requires forall i, j :: 0 <= i < |xs| && 0 <= j < |xs| && p(xs[i]) && p(xs[j]) ==> i == j
    ensures Count(xs, p) <= 1
  {
    if xs != [] {
      if p(xs[0]) {
        forall i | 0 <= i < |xs[1..]| ensures !p(xs[1..][i]) {
          assert xs[1..][i] == xs[i + 1];
        }
        CountNone(xs[1..], p);
      } else {
        forall i, j | 0 <= i < |xs[1..]| && 0 <= j < |xs[1..]| && p(xs[1..][i]) && p(xs[1..][j])
          ensures i == j
        {
          assert p(xs[i + 1]) && p(xs[j + 1]);
        }
        CountAtMostOne(xs[1..], p);
      }
    }
  }

  lemma {:induction false} SumUpdate<T>(xs: seq<T>, i: nat, x: T, f: T -> nat)
    requires i < |xs|
    ensures Sum(xs[i := x], f) + f(xs[i]) == Sum(xs, f) + f(x)
  {
    if i == 0 {
      assert xs[i := x][1..] == xs[1..];
    } else {
      assert xs[i := x][1..] == xs[1..][i - 1 := x];
      SumUpdate(xs[1..], i - 1, x, f);
    }
  }

  lemma {:induction false} SumAppend<T>(xs: seq<T>, x: T, f: T -> nat)
    ensures Sum(xs + [x], f) == Sum(xs, f) + f(x)
  {
    if xs == [] {
      assert xs + [x] == [x];
    } else {
      assert (xs + [x])[1..] == xs[1..] + [x];
      SumAppend(xs[1..], x, f);
    }
  }

  lemma {:induction false} CountSplit<T(!new)>(xs: seq<T>, p: T -> bool, q: T -> bool, r: T -> bool)
    requires forall x :: p(x) <==> q(x) || r(x)
    requires forall x :: !(q(x) && r(x))
    ensures Count(xs, p) == Count(xs, q) + Count(xs, r)
  {
    if xs != [] {
      CountSplit(xs[1..], p, q, r);
    }
  }
}
