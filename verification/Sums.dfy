/** Sums of a weight over a sequence, and how one element changes them. */
module Sums {

  function Sum<T>(weight: T -> nat, xs: seq<T>): nat {
    if xs == [] then 0 else weight(xs[0]) + Sum(weight, xs[1..])
  }

  lemma {:induction false} SumUpdate<T>(weight: T -> nat, xs: seq<T>, i: nat, x: T)
    requires i < |xs|
    ensures Sum(weight, xs[i := x]) + weight(xs[i]) == Sum(weight, xs) + weight(x)
  {
    if i == 0 {
      assert xs[i := x][1..] == xs[1..];
    } else {
      assert xs[i := x][1..] == xs[1..][i - 1 := x];
      SumUpdate(weight, xs[1..], i - 1, x);
    }
  }

  lemma {:induction false} SumAtLeast<T>(weight: T -> nat, xs: seq<T>, i: nat)
    requires i < |xs|
    ensures weight(xs[i]) <= Sum(weight, xs)
  {
    if i > 0 {
      SumAtLeast(weight, xs[1..], i - 1);
    }
  }

  lemma {:induction false} SumMonotone<T>(light: T -> nat, heavy: T -> nat, xs: seq<T>)
    requires forall i :: 0 <= i < |xs| ==> light(xs[i]) <= heavy(xs[i])
    ensures Sum(light, xs) <= Sum(heavy, xs)
  {
    if xs != [] {
      SumMonotone(light, heavy, xs[1..]);
    }
  }

  lemma {:induction false} SumZero<T>(weight: T -> nat, xs: seq<T>)
    requires forall i :: 0 <= i < |xs| ==> weight(xs[i]) == 0
    ensures Sum(weight, xs) == 0
  {
    if xs != [] {
      SumZero(weight, xs[1..]);
    }
  }

  /** A positive sum has a positive term. */
  lemma {:induction false} SumPositive<T>(weight: T -> nat, xs: seq<T>) returns (i: nat)
    requires Sum(weight, xs) > 0
    ensures i < |xs| && weight(xs[i]) > 0
  {
    if weight(xs[0]) > 0 {
      i := 0;
    } else {
      var j := SumPositive(weight, xs[1..]);
      i := j + 1;
    }
  }

  /** Replacing every element by one that weighs no more cannot raise the sum,
      and lowers it when some element gets lighter. */
  lemma {:induction false} SumPointwise<T>(weight: T -> nat, xs: seq<T>, ys: seq<T>)
    requires |xs| == |ys|
    requires forall i :: 0 <= i < |xs| ==> weight(ys[i]) <= weight(xs[i])
    ensures Sum(weight, ys) <= Sum(weight, xs)
    ensures (exists i :: 0 <= i < |xs| && weight(ys[i]) < weight(xs[i])) ==> Sum(weight, ys) < Sum(weight, xs)
  {
    if xs != [] {
      SumPointwise(weight, xs[1..], ys[1..]);
      if i :| 0 < i < |xs| && weight(ys[i]) < weight(xs[i]) {
        assert weight(ys[1..][i - 1]) < weight(xs[1..][i - 1]);
      }
    }
  }

  lemma {:induction false} SumSame<T>(weight: T -> nat, xs: seq<T>, ys: seq<T>)
    requires |xs| == |ys|
    requires forall i :: 0 <= i < |xs| ==> weight(ys[i]) == weight(xs[i])
    ensures Sum(weight, ys) == Sum(weight, xs)
  {
    if xs != [] {
      SumSame(weight, xs[1..], ys[1..]);
    }
  }
}
