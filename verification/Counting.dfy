/** Counting and summing over sequences of process states, and sizes of finite sets. */
module Counting {

  datatype Option<+T> = None | Some(value: T)

  /** How many elements of xs satisfy p. */
  function Count<T>(xs: seq<T>, p: T -> bool): nat
  {
    if xs == [] then 0 else (if p(xs[0]) then 1 else 0) + Count(xs[1..], p)
  }

  /** Changing one element changes the count by the difference at that element. */
  lemma {:induction false} CountUpdate<T>(xs: seq<T>, i: nat, x: T, p: T -> bool)
    requires i < |xs|
    ensures Count(xs[i := x], p) + (if p(xs[i]) then 1 else 0) == Count(xs, p) + (if p(x) then 1 else 0)
  {
    var ys := xs[i := x];
    if i == 0 {
      assert ys[1..] == xs[1..];
    } else {
      assert ys[1..] == xs[1..][i - 1 := x];
      CountUpdate(xs[1..], i - 1, x, p);
    }
  }

  /** A count is at most the length, and equal to it exactly when every element counts. */
  lemma {:induction false} CountFull<T>(xs: seq<T>, p: T -> bool)
    ensures Count(xs, p) <= |xs|
    ensures Count(xs, p) == |xs| <==> forall i :: 0 <= i < |xs| ==> p(xs[i])
  {
    if xs != [] {
      CountFull(xs[1..], p);
      assert forall i :: 0 < i < |xs| ==> xs[i] == xs[1..][i - 1];
      assert forall i :: 0 <= i < |xs| - 1 ==> xs[1..][i] == xs[i + 1];
    }
  }

  /** A count is zero exactly when no element counts. */
  lemma {:induction false} CountNone<T>(xs: seq<T>, p: T -> bool)
    ensures Count(xs, p) == 0 <==> forall i :: 0 <= i < |xs| ==> !p(xs[i])
  {
    if xs != [] {
      CountNone(xs[1..], p);
      assert forall i :: 0 < i < |xs| ==> xs[i] == xs[1..][i - 1];
      assert forall i :: 0 <= i < |xs| - 1 ==> xs[1..][i] == xs[i + 1];
    }
  }

  lemma {:induction false} CountLast<T>(front: seq<T>, last: T, p: T -> bool)
    ensures Count(front + [last], p) == Count(front, p) + (if p(last) then 1 else 0)
  {
    if front != [] {
      assert (front + [last])[1..] == front[1..] + [last];
      CountLast(front[1..], last, p);
    }
  }

  /** Elementwise agreement on p gives equal counts. */
  lemma {:induction false} SameCount<T>(xs: seq<T>, ys: seq<T>, p: T -> bool)
    requires |xs| == |ys| && forall i :: 0 <= i < |xs| ==> p(xs[i]) == p(ys[i])
    ensures Count(xs, p) == Count(ys, p)
  {
    if xs != [] {
      SameCount(xs[1..], ys[1..], p);
    }
  }

  function Sum(xs: seq<int>): int
  {
    if xs == [] then 0 else xs[0] + Sum(xs[1..])
  }

  lemma {:induction false} SumUpdate(xs: seq<int>, i: nat, x: int)
    requires i < |xs|
    ensures Sum(xs[i := x]) == Sum(xs) - xs[i] + x
  {
    var ys := xs[i := x];
    if i == 0 {
      assert ys[1..] == xs[1..];
    } else {
      assert ys[1..] == xs[1..][i - 1 := x];
      SumUpdate(xs[1..], i - 1, x);
    }
  }

  lemma {:induction false} SumBounds(xs: seq<int>, hi: int)
    requires forall i :: 0 <= i < |xs| ==> 0 <= xs[i] <= hi
    ensures 0 <= Sum(xs) <= hi * |xs|
  {
    if xs != [] {
      SumBounds(xs[1..], hi);
    }
  }

  lemma {:induction false} SumNonnegative(xs: seq<int>)
    requires forall i :: 0 <= i < |xs| ==> xs[i] >= 0
    ensures Sum(xs) >= 0
  {
    if xs != [] {
      SumNonnegative(xs[1..]);
    }
  }

  lemma {:induction false} SumZero(xs: seq<int>)
    requires forall i :: 0 <= i < |xs| ==> xs[i] == 0
    ensures Sum(xs) == 0
  {
    if xs != [] {
      SumZero(xs[1..]);
    }
  }

  /** The numbers below n. */
  ghost function Everyone(n: nat): (r: set<nat>)
    ensures forall j: nat :: j < n ==> j in r
  {
    if n == 0 then {} else Everyone(n - 1) + {n - 1}
  }

  /** An injective image of a finite set inside another bounds its size. */
  lemma {:induction false} InjectionBound<S(!new), T(!new)>(a: set<S>, b: set<T>, f: S -> T)
    requires forall x :: x in a ==> f(x) in b
    requires forall x, y :: x in a && y in a && f(x) == f(y) ==> x == y
    ensures |a| <= |b|
    decreases |a|
  {
    if a != {} {
      var x :| x in a;
      InjectionBound(a - {x}, b - {f(x)}, f);
    }
  }
}
