/** What the shelves hold: a permutation under the locks, few swaps, and sorted once flagged. */
module ShopShelves {
  import opened Permutations
  import opened Shop
  import opened ShopLocks
  import opened ShopProgress

  /** Some worker has overwritten log[x] and still owes the write to log[k]. */
  ghost predicate HalfSwapped(s: State, k: nat)
  {
    exists w :: 0 <= w < |s.workers| && s.workers[w].WriteY? && s.workers[w].job.y == k
  }

  ghost predicate WorkerSees(s: State, w: nat)
    requires Shape(s) && w < |s.workers|
  {
    var ws := s.workers[w];
    && (ws.WriteX? ==> (assert WorkerOk(ws, s.N()); s.shelves[ws.job.Lo()] > s.shelves[ws.job.Hi()]))
    && (ws.WriteY? ==> (assert WorkerOk(ws, s.N()); ws.kept == s.shelves[ws.job.y]))
  }

  /** log agrees with the completed shelves except where a swap is half done. */
  ghost predicate ShelfInv(s: State)
  {
    && Shape(s)
    && (forall w :: 0 <= w < |s.workers| ==> WorkerSees(s, w))
    && (forall k :: 0 <= k < s.N() ==> HalfSwapped(s, k) || s.log[k] == s.shelves[k])
  }

  /** A worker never meets a half-done swap on a shelf it holds, nor does the manager. */
  lemma HeldIsWhole(s: State, p: Proc, k: nat)
    requires LockInv(s) && ShelfInv(s) && ValidProc(s, p) && k < s.N() && Owns(s, p, k)
    requires p.Worker? ==> !s.workers[p.id].WriteY?
    ensures s.log[k] == s.shelves[k]
  {
    assert LockAt(s, k);
    if HalfSwapped(s, k) {
      var w :| 0 <= w < |s.workers| && s.workers[w].WriteY? && s.workers[w].job.y == k;
      assert WorkerOk(s.workers[w], s.N());
      assert Owns(s, Worker(w), k);
    }
  }

  /** Two workers past their locks work on disjoint shelves. */
  lemma Disjoint(s: State, w: nat, v: nat, k: nat)
    requires LockInv(s) && w < |s.workers| && v < |s.workers| && w != v && k < s.N()
    requires WorkerOwns(s.workers[w], k, s.N())
    ensures !WorkerOwns(s.workers[v], k, s.N())
  {
    assert LockAt(s, k);
    assert Owns(s, Worker(w), k);
    if WorkerOwns(s.workers[v], k, s.N()) {
      assert Owns(s, Worker(v), k);
    }
  }

  /** Only the first write of a swap touches the completed shelves; everything else a worker does, log included. */
  lemma WorkerEffect(s: State, w: nat, c: Choice)
    requires Shape(s) && w < |s.workers| && WorkerNext(s, w, c).Some?
    ensures var t := WorkerNext(s, w, c).value; var ws := s.workers[w];
      && Shape(t) && |t.workers| == |s.workers| && t.N() == s.N() && t.manager == s.manager && t.sorted == s.sorted
      && (forall v :: 0 <= v < |s.workers| && v != w ==> t.workers[v] == s.workers[v])
      && (!ws.WriteX? ==> t.shelves == s.shelves && t.swaps == s.swaps && !t.workers[w].WriteY?)
      && (!ws.WriteX? && !ws.WriteY? ==> t.log == s.log)
      && (t.workers[w].WriteX? ==> ws.Compare? && t.workers[w].job == ws.job)
  {
    WorkerShape(s, w, c);
    assert WorkerOk(s.workers[w], s.N());
  }

  lemma OwnSees(s: State, w: nat, c: Choice)
    requires LockInv(s) && ShelfInv(s) && w < |s.workers| && WorkerNext(s, w, c).Some?
    ensures Shape(WorkerNext(s, w, c).value) && |WorkerNext(s, w, c).value.workers| == |s.workers|
    ensures WorkerSees(WorkerNext(s, w, c).value, w)
  {
    WorkerEffect(s, w, c);
    var ws := s.workers[w];
    assert WorkerOk(ws, s.N()) && WorkerSees(s, w);
    if ws.Compare? {
      HeldIsWhole(s, Worker(w), ws.job.x);
      HeldIsWhole(s, Worker(w), ws.job.y);
    } else if ws.WriteX? {
      HeldIsWhole(s, Worker(w), ws.job.x);
    }
  }

  lemma OtherSees(s: State, w: nat, c: Choice, v: nat)
    requires LockInv(s) && ShelfInv(s) && w < |s.workers| && WorkerNext(s, w, c).Some? && v < |s.workers| && v != w
    ensures Shape(WorkerNext(s, w, c).value) && |WorkerNext(s, w, c).value.workers| == |s.workers|
    ensures WorkerSees(WorkerNext(s, w, c).value, v)
  {
    WorkerEffect(s, w, c);
    var ws := s.workers[w];
    assert WorkerOk(ws, s.N()) && WorkerOk(s.workers[v], s.N()) && WorkerSees(s, v);
    if ws.WriteX? && (s.workers[v].WriteX? || s.workers[v].WriteY?) {
      Disjoint(s, w, v, ws.job.x);
      Disjoint(s, w, v, ws.job.y);
    }
  }

  lemma WholeStep(s: State, w: nat, c: Choice, k: nat)
    requires LockInv(s) && ShelfInv(s) && w < |s.workers| && WorkerNext(s, w, c).Some? && k < s.N()
    ensures var t := WorkerNext(s, w, c).value;
      |t.log| == |t.shelves| == s.N() && (HalfSwapped(t, k) || t.log[k] == t.shelves[k])
  {
    var t := WorkerNext(s, w, c).value;
    WorkerEffect(s, w, c);
    var ws := s.workers[w];
    assert WorkerOk(ws, s.N()) && WorkerSees(s, w);
    if HalfSwapped(s, k) && (ws.WriteY? ==> k != ws.job.y) {
      var v :| 0 <= v < |s.workers| && s.workers[v].WriteY? && s.workers[v].job.y == k;
      assert t.workers[v] == s.workers[v];
    } else if ws.WriteX? {
      HeldIsWhole(s, Worker(w), ws.job.x);
      HeldIsWhole(s, Worker(w), ws.job.y);
      assert t.workers[w].WriteY?;
    }
  }

  lemma ShelfStep(s: State, p: Proc, c: Choice)
    requires LockInv(s) && ShelfInv(s) && Next(s, p, c).Some?
    ensures ShelfInv(Next(s, p, c).value)
  {
    var t := Next(s, p, c).value;
    if p.Worker? {
      forall v | 0 <= v < |t.workers|
        ensures WorkerSees(t, v)
      {
        if v == p.id {
          OwnSees(s, v, c);
        } else {
          OtherSees(s, p.id, c, v);
        }
      }
      forall k | 0 <= k < t.N()
        ensures HalfSwapped(t, k) || t.log[k] == t.shelves[k]
      {
        WholeStep(s, p.id, c, k);
      }
    } else {
      assert t.log == s.log && t.shelves == s.shelves && t.workers == s.workers;
      forall v | 0 <= v < |t.workers|
        ensures WorkerSees(t, v)
      {
        assert WorkerSees(s, v);
      }
      forall k | 0 <= k < t.N()
        ensures HalfSwapped(t, k) || t.log[k] == t.shelves[k]
      {
        assert HalfSwapped(s, k) ==> HalfSwapped(t, k);
      }
    }
  }

  // ---- the swap bound ----

  ghost predicate SwapInv(s: State)
  {
    Permutation(s.shelves) && s.swaps + |Inversions(s.shelves)| <= s.N() * (s.N() - 1) / 2
  }

  /** The first write of a swap exchanges an inverted pair of the completed shelves. */
  lemma WriteXSwaps(s: State, w: nat, c: Choice)
    requires ShelfInv(s) && w < |s.workers| && s.workers[w].WriteX?
    ensures JobOk(s.workers[w].job, s.N())
    ensures var t := WorkerNext(s, w, c).value; var j := s.workers[w].job;
      && s.shelves[j.Lo()] > s.shelves[j.Hi()]
      && t.shelves == Swapped(s.shelves, j.Lo(), j.Hi()) && t.swaps == s.swaps + 1 && t.N() == s.N()
  {
    assert WorkerOk(s.workers[w], s.N()) && WorkerSees(s, w);
  }

  /** Every step leaves the shelves alone or swaps one inverted pair of them. */
  lemma SwapStep(s: State, p: Proc, c: Choice)
    requires LockInv(s) && ShelfInv(s) && SwapInv(s) && Next(s, p, c).Some?
    ensures SwapInv(Next(s, p, c).value)
  {
    if p.Worker? {
      WorkerEffect(s, p.id, c);
      if s.workers[p.id].WriteX? {
        var j := s.workers[p.id].job;
        WriteXSwaps(s, p.id, c);
        SwapKeepsPermutation(s.shelves, j.Lo(), j.Hi());
        SwapLowersInversions(s.shelves, j.Lo(), j.Hi());
      }
    }
  }

  // ---- the sorted flag ----

  /** The manager has found every shelf in place in the sweep it is finishing. */
  predicate Convinced(ms: ManagerState)
  {
    match ms
    case Release(_, ok) => ok
    case TakeCount(ok) => ok
    case TestCount(ok) => ok
    case DropCount(ok, _) => ok
    case TakeSorted => true
    case SetSorted => true
    case DropSorted => true
    case Done(allDied) => !allDied
    case _ => false
  }

  ghost predicate NoHalfSwap(s: State)
  {
    forall w :: 0 <= w < |s.workers| ==> !s.workers[w].WriteY?
  }

  ghost predicate FlagInv(s: State)
  {
    && (Convinced(s.manager) || s.sorted ==> Identity(s.shelves) && NoHalfSwap(s))
    && (s.manager.Inspect? ==> s.manager.i <= s.N() == |s.shelves| && forall k :: 0 <= k < s.manager.i ==> s.shelves[k] == k)
    && (s.sorted <==> s.manager.DropSorted? || s.manager == Done(false))
  }

  /** A worker between its locks and its unlocks keeps the manager from holding every shelf. */
  lemma InspectShutsOut(s: State, w: nat)
    requires LockInv(s) && s.manager.Inspect? && w < |s.workers|
    ensures !s.workers[w].WriteX? && !s.workers[w].WriteY?
  {
    if s.workers[w].WriteX? || s.workers[w].WriteY? {
      var x := s.workers[w].job.x;
      assert WorkerOk(s.workers[w], s.N());
      assert LockAt(s, x) && Owns(s, Worker(w), x) && Owns(s, Manager, x);
      assert false;
    }
  }

  lemma FlagWorkerStep(s: State, w: nat, c: Choice)
    requires LockInv(s) && ShelfInv(s) && FlagInv(s) && w < |s.workers| && WorkerNext(s, w, c).Some?
    ensures FlagInv(WorkerNext(s, w, c).value)
  {
    WorkerEffect(s, w, c);
    var ws := s.workers[w];
    assert WorkerOk(ws, s.N()) && WorkerSees(s, w);
    if s.manager.Inspect? {
      InspectShutsOut(s, w);
    }
  }

  lemma FlagManagerStep(s: State)
    requires LockInv(s) && ShelfInv(s) && FlagInv(s) && ManagerNext(s).Some?
    ensures FlagInv(ManagerNext(s).value)
  {
    ManagerShape(s);
    var t := ManagerNext(s).value;
    assert t.shelves == s.shelves && t.workers == s.workers;
    if s.manager.Inspect? {
      if s.manager.i < s.N() {
        HeldIsWhole(s, Manager, s.manager.i);
      }
      forall w | 0 <= w < |s.workers|
        ensures !s.workers[w].WriteY?
      {
        InspectShutsOut(s, w);
      }
    }
  }

  lemma FlagStep(s: State, p: Proc, c: Choice)
    requires LockInv(s) && ShelfInv(s) && FlagInv(s) && Next(s, p, c).Some?
    ensures FlagInv(Next(s, p, c).value)
  {
    if p.Manager? {
      FlagManagerStep(s);
    } else {
      FlagWorkerStep(s, p.id, c);
    }
  }

  // ---- every run ----

  ghost predicate GoodShelves(s: State)
  {
    LockInv(s) && ShelfInv(s) && SwapInv(s) && FlagInv(s)
  }

  lemma InitShelves(s: State)
    requires Start(s)
    ensures GoodShelves(s)
  {
    InitLocks(s);
    InversionsBound(s.shelves);
  }

  lemma {:induction false} RunShelves(s: State, turns: seq<Turn>)
    requires Start(s)
    ensures GoodShelves(Run(s, turns))
  {
    if turns == [] {
      InitShelves(s);
    } else {
      RunShelves(s, turns[..|turns| - 1]);
      var u := Run(s, turns[..|turns| - 1]);
      var last := turns[|turns| - 1];
      if Next(u, last.p, last.c).Some? {
        GoodStep(u, last.p, last.c);
      }
    }
  }

  /** Any run performs at most N(N-1)/2 swaps, however the pairs are drawn and whoever dies. */
  lemma SwapBound(s: State, turns: seq<Turn>)
    requires Start(s)
    ensures Run(s, turns).swaps <= s.N() * (s.N() - 1) / 2
  {
    RunShelves(s, turns);
  }

  /** Whenever the manager holds every shelf, the array it reads is a permutation. */
  lemma ManagerSeesPermutation(s: State, turns: seq<Turn>)
    requires Start(s) && Run(s, turns).manager.Inspect?
    ensures Permutation(Run(s, turns).log)
  {
    RunShelves(s, turns);
    var t := Run(s, turns);
    forall k | 0 <= k < t.N()
      ensures t.log[k] == t.shelves[k]
    {
      HeldIsWhole(t, Manager, k);
    }
    assert t.log == t.shelves;
  }

  /** No death lands between the two writes of a swap: once nobody is inside one, nothing is lost. */
  lemma QuietIsPermutation(s: State, turns: seq<Turn>)
    requires Start(s)
    requires forall w :: 0 <= w < |s.workers| ==> !Run(s, turns).workers[w].WriteY?
    ensures Permutation(Run(s, turns).log) && Run(s, turns).log == Run(s, turns).shelves
  {
    RunShelves(s, turns);
    var t := Run(s, turns);
    forall k | 0 <= k < t.N()
      ensures t.log[k] == t.shelves[k]
    {
      assert !HalfSwapped(t, k);
    }
    assert t.log == t.shelves;
  }

  lemma FlaggedIsIdentity(s: State)
    requires GoodShelves(s) && s.sorted
    ensures Identity(s.log)
  {
    forall k | 0 <= k < s.N()
      ensures s.log[k] == s.shelves[k]
    {
      assert !HalfSwapped(s, k);
    }
  }

  lemma GoodStep(s: State, p: Proc, c: Choice)
    requires GoodShelves(s) && Next(s, p, c).Some?
    ensures GoodShelves(Next(s, p, c).value) && (s.sorted ==> Next(s, p, c).value.sorted)
  {
    LocksStep(s, p, c);
    ShelfStep(s, p, c);
    SwapStep(s, p, c);
    FlagStep(s, p, c);
    if p.Worker? {
      WorkerEffect(s, p.id, c);
    }
  }

  lemma {:induction false} FlaggedRun(s: State, more: seq<Turn>)
    requires GoodShelves(s) && s.sorted
    ensures GoodShelves(Run(s, more)) && Run(s, more).sorted
  {
    if more != [] {
      FlaggedRun(s, more[..|more| - 1]);
      var u := Run(s, more[..|more| - 1]);
      var last := more[|more| - 1];
      if Next(u, last.p, last.c).Some? {
        GoodStep(u, last.p, last.c);
      }
    }
  }

  /** Once the flag is up the array is the identity, and stays so for the rest of the run. */
  lemma SortedIsStable(s: State, turns: seq<Turn>, more: seq<Turn>)
    requires Start(s) && Run(s, turns).sorted
    ensures var t := Run(s, turns); var u := Run(t, more);
      u.sorted && Identity(t.log) && Identity(u.log)
  {
    RunShelves(s, turns);
    FlaggedIsIdentity(Run(s, turns));
    FlaggedRun(Run(s, turns), more);
    FlaggedIsIdentity(Run(Run(s, turns), more));
  }
}
