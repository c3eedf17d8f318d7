/** Permutations of 0..n-1, inversions, and the shuffle both lab programs use. */
module Permutations {
  import opened Counting

  /** s holds each of 0..|s|-1 exactly once. */
  ghost predicate Permutation(s: seq<int>)
  {
    && (forall i :: 0 <= i < |s| ==> 0 <= s[i] < |s|)
    && (forall i, j :: 0 <= i < j < |s| ==> s[i] != s[j])
  }

  predicate Identity(s: seq<int>)
  {
    forall i :: 0 <= i < |s| ==> s[i] == i
  }

  function Swapped<T>(s: seq<T>, x: nat, y: nat): seq<T>
    requires x < |s| && y < |s|
  {
    s[x := s[y]][y := s[x]]
  }

  function Ordered(n: nat): set<(nat, nat)>
  {
    set i: nat, j: nat | i < n && j < n && i < j :: (i, j)
  }

  /** The inverted pairs of s. */
  function Inversions(s: seq<int>): set<(nat, nat)>
  {
    set i: nat, j: nat | i < |s| && j < |s| && i < j && s[i] > s[j] :: (i, j)
  }

  function Redirect(x: nat, y: nat, k: nat): nat
  {
    if k == x then y else if k == y then x else k
  }

  /** An inversion of the swapped sequence, traced back to an inversion before the swap. */
  function TraceBack(x: nat, y: nat, p: (nat, nat)): (nat, nat)
  {
    var a, b := Redirect(x, y, p.0), Redirect(x, y, p.1);
    if a < b then (a, b) else p
  }

  /** Swapping any inverted pair, adjacent or not, strictly lowers the number of inversions. */
  lemma SwapLowersInversions(s: seq<int>, x: nat, y: nat)
    requires x < y < |s| && s[x] > s[y]
    ensures |Inversions(Swapped(s, x, y))| < |Inversions(s)|
  {
    var t := Swapped(s, x, y);
    var target := Inversions(s) - {(x, y)};
    var f := (p: (nat, nat)) => TraceBack(x, y, p);
    forall p | p in Inversions(t)
      ensures f(p) in target
    {
      assert t[p.0] == s[Redirect(x, y, p.0)] && t[p.1] == s[Redirect(x, y, p.1)];
    }
    InjectionBound(Inversions(t), target, f);
    assert (x, y) in Inversions(s);
  }

  lemma {:induction false} OrderedSize(n: nat)
    ensures |Ordered(n)| == n * (n - 1) / 2
  {
    if n == 0 {
      assert Ordered(0) == {};
    } else {
      OrderedSize(n - 1);
      OrderedGrows(n - 1);
      Triangle(n);
    }
  }

  lemma Triangle(n: int)
    ensures (n - 1) * (n - 2) / 2 + (n - 1) == n * (n - 1) / 2
  {
    assert n * (n - 1) == (n - 1) * (n - 2) + 2 * (n - 1);
  }

  lemma OrderedGrows(n: nat)
    ensures Ordered(n + 1) == Ordered(n) + Column(n, n)
    ensures |Ordered(n + 1)| == |Ordered(n)| + n
  {
    forall p: (nat, nat)
      ensures p in Ordered(n + 1) <==> p in Ordered(n) + Column(n, n)
    {
      assert p == (p.0, p.1);
    }
    assert Ordered(n) !! Column(n, n);
  }

  /** The pairs (i, c) with i < k. */
  function Column(k: nat, c: nat): (r: set<(nat, nat)>)
    ensures |r| == k
    ensures forall p: (nat, nat) :: p in r <==> p.0 < k && p.1 == c
  {
    if k == 0 then {} else Column(k - 1, c) + {(k - 1, c)}
  }

  lemma InversionsBound(s: seq<int>)
    ensures |Inversions(s)| <= |s| * (|s| - 1) / 2
  {
    OrderedSize(|s|);
    var f := (p: (nat, nat)) => p;
    InjectionBound(Inversions(s), Ordered(|s|), f);
  }

  /** A permutation other than the identity has an inverted pair. */
  lemma Unsorted(s: seq<int>) returns (x: nat, y: nat)
    requires Permutation(s) && !Identity(s)
    ensures x < y < |s| && s[x] > s[y]
  {
    if forall i, j :: 0 <= i < j < |s| ==> s[i] <= s[j] {
      forall i | 0 <= i < |s|
        ensures s[i] == i
      {
        IncreasingIsIdentity(s, i);
      }
      assert false;
    } else {
      x, y :| x < y < |s| && s[x] > s[y];
    }
  }

  lemma IncreasingIsIdentity(s: seq<int>, i: nat)
    requires Permutation(s) && i < |s|
    requires forall i, j :: 0 <= i < j < |s| ==> s[i] <= s[j]
    ensures s[i] == i
  {
    AtLeastIndex(s, i);
    AtMostIndex(s, i);
  }

  lemma {:induction false} AtLeastIndex(s: seq<int>, i: nat)
    requires Permutation(s) && i < |s|
    requires forall i, j :: 0 <= i < j < |s| ==> s[i] <= s[j]
    ensures s[i] >= i
  {
    if i > 0 {
      AtLeastIndex(s, i - 1);
    }
  }

  lemma {:induction false} AtMostIndex(s: seq<int>, i: nat)
    requires Permutation(s) && i < |s|
    requires forall i, j :: 0 <= i < j < |s| ==> s[i] <= s[j]
    ensures s[i] <= i
    decreases |s| - i
  {
    if i < |s| - 1 {
      AtMostIndex(s, i + 1);
    }
  }

  /** Swapping keeps a permutation a permutation. */
  lemma SwapKeepsPermutation(s: seq<int>, x: nat, y: nat)
    requires Permutation(s) && x < |s| && y < |s|
    ensures Permutation(Swapped(s, x, y))
  {
    var t := Swapped(s, x, y);
    assert forall k :: 0 <= k < |s| ==> t[k] == s[Redirect(x, y, k)];
  }

  // ---- shuffle: for i = n-1 downto 1, swap position i with a random position j <= i ----

  /** The effect of the shuffle's remaining rounds i..1 when round k draws rolls[k]. */
  ghost function Shuffled<T>(s: seq<T>, i: nat, rolls: seq<nat>): (r: seq<T>)
    requires i < |s| || (i == 0 && s == [])
    requires |rolls| == |s| && forall k :: 0 <= k < |rolls| ==> rolls[k] <= k
    ensures |r| == |s|
    decreases i
  {
    if i == 0 then s else Shuffled(Swapped(s, i, rolls[i]), i - 1, rolls)
  }

  /** Whatever is drawn, the shuffle only rearranges. */
  lemma {:induction false} ShuffleRearranges<T>(s: seq<T>, i: nat, rolls: seq<nat>)
    requires i < |s| || (i == 0 && s == [])
    requires |rolls| == |s| && forall k :: 0 <= k < |rolls| ==> rolls[k] <= k
    ensures multiset(Shuffled(s, i, rolls)) == multiset(s)
    ensures forall k :: i < k < |s| ==> Shuffled(s, i, rolls)[k] == s[k]
    decreases i
  {
    if i > 0 {
      var t := Swapped(s, i, rolls[i]);
      assert multiset(t) == multiset(s);
      ShuffleRearranges(t, i - 1, rolls);
    }
  }

  /** Every arrangement of the same elements is the outcome of some draws. */
  lemma {:induction false} ShuffleReaches<T>(s: seq<T>, goal: seq<T>, i: nat) returns (rolls: seq<nat>)
    requires |goal| == |s| && (i < |s| || (i == 0 && s == []))
    requires forall k :: i < k < |s| ==> goal[k] == s[k]
    requires multiset(goal) == multiset(s)
    ensures |rolls| == |s| && forall k :: 0 <= k < |rolls| ==> rolls[k] <= k
    ensures Shuffled(s, i, rolls) == goal
    decreases i
  {
    if i == 0 {
      rolls := seq(|s|, k => 0);
      if s != [] {
        var j := SourceOf(s, goal, 0);
      }
    } else {
      var j := SourceOf(s, goal, i);
      var t := Swapped(s, i, j);
      assert multiset(t) == multiset(s);
      var rest := ShuffleReaches(t, goal, i - 1);
      rolls := rest[i := j];
      SameDraws(t, i - 1, rest, rolls);
    }
  }

  /** Where in the unsettled prefix the element wanted at position i is. */
  lemma SourceOf<T>(s: seq<T>, goal: seq<T>, i: nat) returns (j: nat)
    requires |goal| == |s| && i < |s|
    requires forall k :: i < k < |s| ==> goal[k] == s[k]
    requires multiset(goal) == multiset(s)
    ensures j <= i && s[j] == goal[i]
  {
    assert s == s[..i + 1] + s[i + 1..];
    assert goal == goal[..i + 1] + goal[i + 1..];
    assert s[i + 1..] == goal[i + 1..];
    calc {
      multiset(s[..i + 1]);
      multiset(s[..i + 1] + s[i + 1..]) - multiset(s[i + 1..]);
      multiset(goal[..i + 1] + goal[i + 1..]) - multiset(goal[i + 1..]);
      multiset(goal[..i + 1]);
    }
    assert goal[i] == goal[..i + 1][i];
    assert goal[i] in multiset(goal[..i + 1]);
    assert goal[i] in s[..i + 1];
    j :| j <= i && s[..i + 1][j] == goal[i];
  }

  lemma {:induction false} SameDraws<T>(s: seq<T>, i: nat, r1: seq<nat>, r2: seq<nat>)
    requires i < |s| && |r1| == |s| && |r2| == |s|
    requires forall k :: 0 <= k < |s| ==> r1[k] <= k && r2[k] <= k
    requires forall k :: 0 <= k <= i ==> r1[k] == r2[k]
    ensures Shuffled(s, i, r1) == Shuffled(s, i, r2)
    decreases i
  {
    if i > 0 {
      SameDraws(Swapped(s, i, r1[i]), i - 1, r1, r2);
    }
  }

  /** The loop itself, in place; rolls[i] is the draw of rand() % (i + 1). */
  method Shuffle<T>(a: array<T>, rolls: seq<nat>)
    requires |rolls| == a.Length && forall k :: 0 <= k < |rolls| ==> rolls[k] <= k
    modifies a
    ensures a.Length > 0 ==> a[..] == Shuffled(old(a[..]), a.Length - 1, rolls)
    ensures multiset(a[..]) == multiset(old(a[..]))
  {
    if a.Length == 0 {
      return;
    }
    ghost var was := a[..];
    var i := a.Length - 1;
    while i > 0
      invariant 0 <= i < a.Length
      invariant Shuffled(was, a.Length - 1, rolls) == Shuffled(a[..], i, rolls)
    {
      ghost var before := a[..];
      a[i], a[rolls[i]] := a[rolls[i]], a[i];
      assert a[..] == Swapped(before, i, rolls[i]);
      i := i - 1;
    }
    ShuffleRearranges(was, a.Length - 1, rolls);
  }

  /** A rearrangement of 0..n-1 is a permutation. */
  lemma SameElementsPermute(s: seq<int>, t: seq<int>)
    requires s == seq(|s|, i => i) && multiset(t) == multiset(s)
    ensures Permutation(t)
  {
    assert |t| == |multiset(t)| == |s|;
    forall i | 0 <= i < |t|
      ensures 0 <= t[i] < |t|
    {
      assert t[i] in multiset(t);
      assert t[i] in s;
    }
    forall i, j | 0 <= i < j < |t|
      ensures t[i] != t[j]
    {
      if t[i] == t[j] {
        TwiceInMultiset(t, i, j);
        OnceInMultiset(s, t[i]);
      }
    }
  }

  lemma TwiceInMultiset(t: seq<int>, i: nat, j: nat)
    requires i < j < |t| && t[i] == t[j]
    ensures multiset(t)[t[i]] >= 2
  {
    assert t == t[..j] + t[j..];
    assert t[i] == t[..j][i] && t[j] == t[j..][0];
    assert t[i] in multiset(t[..j]) && t[i] in multiset(t[j..]);
  }

  lemma {:induction false} OnceInMultiset(s: seq<int>, v: int)
    requires forall i, j :: 0 <= i < j < |s| ==> s[i] != s[j]
    ensures multiset(s)[v] <= 1
  {
    if s != [] {
      assert s == s[..|s| - 1] + [s[|s| - 1]];
      OnceInMultiset(s[..|s| - 1], v);
      if v == s[|s| - 1] {
        assert v !in s[..|s| - 1];
        assert v !in multiset(s[..|s| - 1]);
      }
    }
  }
}
