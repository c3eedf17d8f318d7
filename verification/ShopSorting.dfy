/** Exactly when a night shift can still end with the shelves sorted: while somebody lives. */
module ShopSorting {
  import opened Counting
  import opened Permutations
  import opened Shop
  import opened ShopLocks
  import opened ShopProgress
  import opened ShopShelves
  import opened ShopDeaths
  import opened ShopEnding

  // ---- every run ----

  /** Who goes home has seen the flag. */
  ghost predicate HomeInv(s: State)
  {
    forall w :: 0 <= w < |s.workers| && GoingHome(s.workers[w]) ==> s.sorted
  }

  predicate GoingHome(ws: WorkerState) { ws.Home? || (ws.DropFlag? && ws.stop) }

  /** Past its test the manager, if it has found everything in place. */
  predicate AboutToFlag(ms: ManagerState)
  {
    (ms.DropCount? && ms.ok && !ms.stop) || ms.TakeSorted? || ms.SetSorted?
  }

  /** Once the manager has found everything in place nobody dies any more, so its test is about those who have died before. */
  ghost predicate TestInv(s: State)
  {
    && (Convinced(s.manager) ==> forall k :: 0 <= k < |s.mutex| ==> !s.mutex[k].OwnerDead?)
    && (AboutToFlag(s.manager) ==> !EveryoneDead(s))
  }

  ghost predicate Good(s: State)
  {
    GoodShelves(s) && CountInv(s) && QuitInv(s) && HomeInv(s) && TestInv(s)
  }

  lemma WorkerHome(s: State, w: nat, c: Choice)
    requires Shape(s) && w < |s.workers| && HomeInv(s) && WorkerNext(s, w, c).Some?
    ensures var t := WorkerNext(s, w, c).value; w < |t.workers| && t.sorted == s.sorted && (GoingHome(t.workers[w]) ==> s.sorted)
  {
    assert WorkerOk(s.workers[w], s.N());
  }

  lemma HomeStep(s: State, p: Proc, c: Choice)
    requires LockInv(s) && HomeInv(s) && Next(s, p, c).Some?
    ensures HomeInv(Next(s, p, c).value)
  {
    LocksStep(s, p, c);
    if p.Worker? {
      WorkerHome(s, p.id, c);
    }
  }

  /** Two shelves that are in place are not swapped. */
  lemma NoSwap(s: State, w: nat, c: Choice)
    requires Shape(s) && w < |s.workers| && s.workers[w].Compare? && JobOk(s.workers[w].job, s.N())
    requires var j := s.workers[w].job; s.log[j.x] == j.x && s.log[j.y] == j.y
    ensures WorkerNext(s, w, c) == Some(s.At(w, DropSecond(s.workers[w].job)))
  {
  }

  /** Where the shelves are in place no worker dies. */
  lemma NobodyDies(s: State, p: Proc, c: Choice)
    requires GoodShelves(s) && Convinced(s.manager)
    ensures !Dies(s, p, c)
  {
    if p.Worker? && p.id < |s.workers| && s.workers[p.id].Compare? {
      assert WorkerOk(s.workers[p.id], s.N());
      var j := s.workers[p.id].job;
      HeldIsWhole(s, p, j.x);
      HeldIsWhole(s, p, j.y);
      NoSwap(s, p.id, c);
      assert s.At(p.id, DropSecond(j)).workers[p.id] != Dead;
    }
  }

  lemma WorkerTest(s: State, w: nat, c: Choice)
    requires GoodShelves(s) && TestInv(s) && Next(s, Worker(w), c).Some?
    ensures TestInv(Next(s, Worker(w), c).value)
  {
    LocksStep(s, Worker(w), c);
    if Convinced(s.manager) {
      NobodyDies(s, Worker(w), c);
      OneMutex(s, Worker(w), c);
      LivesOn(s, w, c);
    }
  }

  lemma NotKilled(s: State, w: nat, c: Choice)
    requires Shape(s) && w < |s.workers| && WorkerNext(s, w, c).Some? && !Dies(s, Worker(w), c)
    ensures w < |WorkerNext(s, w, c).value.workers| && !WorkerNext(s, w, c).value.workers[w].Dead?
  {
    assert WorkerOk(s.workers[w], s.N());
  }

  /** A step that is no death kills nobody. */
  lemma LivesOn(s: State, w: nat, c: Choice)
    requires LockInv(s) && Next(s, Worker(w), c).Some? && !Dies(s, Worker(w), c)
    ensures EveryoneDead(Next(s, Worker(w), c).value) ==> EveryoneDead(s)
  {
    LocksStep(s, Worker(w), c);
    NotKilled(s, w, c);
  }

  /** The manager that holds every shelf leaves none owner-dead. */
  lemma NoneOwnerDead(s: State)
    requires LockInv(s) && s.manager.Inspect?
    ensures forall k :: 0 <= k < |s.mutex| ==> !s.mutex[k].OwnerDead?
  {
    forall k | 0 <= k < |s.mutex|
      ensures !s.mutex[k].OwnerDead?
    {
      assert LockAt(s, k);
      assert k < s.N() ==> Owns(s, Manager, k);
    }
  }

  /** A test that fails although no recovery is outstanding has found somebody alive. */
  lemma SomebodyLives(s: State)
    requires CountInv(s) && s.manager.TestCount? && !AllDeadTest(s) && forall k :: 0 <= k < |s.mutex| ==> !s.mutex[k].OwnerDead?
    ensures !EveryoneDead(s)
  {
    if EveryoneDead(s) {
      TestExactly(s);
      CountNone(s.mutex, IsOwnerDead);
      CountNone(s.workers, WorkerOwes);
    }
  }

  lemma ManagerTest(s: State)
    requires LockInv(s) && CountInv(s) && TestInv(s) && ManagerNext(s).Some?
    ensures TestInv(ManagerNext(s).value)
  {
    OneMutex(s, Manager, SAFE);
    if s.manager.Inspect? {
      NoneOwnerDead(s);
    } else if s.manager.TestCount? && s.manager.ok && !AllDeadTest(s) {
      SomebodyLives(s);
    }
  }

  lemma GoodNext(s: State, p: Proc, c: Choice)
    requires Good(s) && Next(s, p, c).Some?
    ensures Good(Next(s, p, c).value) && (s.sorted ==> Next(s, p, c).value.sorted)
  {
    GoodStep(s, p, c);
    CountStep(s, p, c);
    QuitStep(s, p, c);
    HomeStep(s, p, c);
    if p.Manager? {
      ManagerTest(s);
    } else {
      WorkerTest(s, p.id, c);
    }
  }

  lemma {:induction false} GoodRun(s: State, turns: seq<Turn>)
    requires Good(s)
    ensures Good(Run(s, turns))
  {
    if turns != [] {
      var u := Run(s, turns[..|turns| - 1]);
      var last := turns[|turns| - 1];
      GoodRun(s, turns[..|turns| - 1]);
      if Next(u, last.p, last.c).Some? {
        GoodNext(u, last.p, last.c);
      }
    }
  }

  lemma StartIsGood(s: State)
    requires Start(s)
    ensures Good(s)
  {
    InitShelves(s);
    InitCount(s);
  }

  // ---- reachability ----

  ghost predicate Reaches(s: State, t: State)
    requires Shape(s)
  {
    exists turns :: Run(s, turns) == t
  }

  lemma {:induction false} RunConcat(s: State, first: seq<Turn>, second: seq<Turn>)
    requires Shape(s)
    ensures Run(s, first + second) == Run(Run(s, first), second)
  {
    if second == [] {
      assert first + second == first;
    } else {
      var front := second[..|second| - 1];
      RunConcat(s, first, front);
      assert (first + second)[..|first + second| - 1] == first + front;
    }
  }

  lemma ReachesThrough(s: State, t: State, u: State)
    requires Shape(s) && Shape(t) && Reaches(s, t) && Reaches(t, u)
    ensures Reaches(s, u)
  {
    var first :| Run(s, first) == t;
    var second :| Run(t, second) == u;
    RunConcat(s, first, second);
  }

  lemma ReachesNext(s: State, t: State, p: Proc, c: Choice)
    requires Shape(s) && Next(s, p, c) == Some(t)
    ensures Shape(t) && Reaches(s, t)
  {
    var turns := [Turn(p, c)];
    assert turns[..0] == [];
    assert Run(s, turns) == t;
  }

  // ---- everybody comes to rest ----

  /** At the top of its loop, or out of it. */
  predicate Rested(s: State, p: Proc)
    requires ValidProc(s, p)
  {
    match p
    case Worker(w) => s.workers[w].CheckFlag? || s.workers[w].Home? || s.workers[w].Dead?
    case Manager => s.manager == Sweep(0) || s.manager.Done?
  }

  ghost predicate AllRested(s: State) { forall p | ValidProc(s, p) :: Rested(s, p) }

  /** p is the next to move on its way to rest. */
  ghost predicate Tends(s: State, p: Proc)
  {
    Good(s) && ValidProc(s, p) && !Rested(s, p) && Next(s, p, SAFE).Some?
  }

  /** Steps a worker needs to the top of its loop, at most. */
  function ToTop(ws: WorkerState): int
  {
    match ws
    case Home => 0
    case Dead => 0
    case CheckFlag => 0
    case TakeFlag => 21
    case TestFlag => 20
    case DropFlag(_) => 19
    case Draw => 18
    case TakeShelf(_, side) => if side.First? then 17 else 11
    case Repairing(_, side, stage) => (if side.First? then 11 else 5) + RepairRank(stage)
    case Compare(_) => 5
    case WriteX(_) => 4
    case WriteY(_, _) => 3
    case DropSecond(_) => 2
    case DropFirst(_) => 1
  }

  /** Steps the manager needs to the start of a sweep or out of its loop, at most. */
  function ToSweep(ms: ManagerState, n: nat): int
  {
    match ms
    case Sweep(i) => if i == 0 then 0 else 6 * (n - i) + 2 * n + 12
    case Mending(i, stage) => 6 * (n - i - 1) + 2 * n + 12 + RepairRank(stage)
    case Inspect(i) => (n - i) + n + 10
    case Release(i, _) => (n - i) + 8
    case TakeCount(_) => 7
    case TestCount(_) => 6
    case DropCount(_, _) => 5
    case TakeSorted => 3
    case SetSorted => 2
    case DropSorted => 1
    case Done(_) => 0
  }

  function ToTops(s: State): (r: seq<int>)
    ensures |r| == |s.workers|
  {
    seq(|s.workers|, w requires 0 <= w < |s.workers| => ToTop(s.workers[w]))
  }

  function ToRest(s: State): int { Sum(ToTops(s)) + ToSweep(s.manager, s.N()) }

  lemma ToRestNonnegative(s: State)
    requires Shape(s)
    ensures ToRest(s) >= 0
  {
    SumNonnegative(ToTops(s));
  }

  lemma WorkerNears(s: State, w: nat)
    requires Shape(s) && w < |s.workers| && !Rested(s, Worker(w)) && WorkerNext(s, w, SAFE).Some?
    ensures var t := WorkerNext(s, w, SAFE).value; w < |t.workers| && ToTop(t.workers[w]) < ToTop(s.workers[w])
  {
    assert WorkerOk(s.workers[w], s.N());
  }

  lemma ManagerNears(s: State)
    requires Shape(s) && !Rested(s, Manager) && ManagerNext(s).Some?
    ensures ToSweep(ManagerNext(s).value.manager, s.N()) < ToSweep(s.manager, s.N())
  {
  }

  lemma MoveNears(s: State, p: Proc)
    requires Tends(s, p)
    ensures ToRest(Next(s, p, SAFE).value) < ToRest(s)
  {
    var t := Next(s, p, SAFE).value;
    LocksStep(s, p, SAFE);
    if p.Worker? {
      WorkerNears(s, p.id);
      SumUpdate(ToTops(s), p.id, ToTop(t.workers[p.id]));
      assert ToTops(t) == ToTops(s)[p.id := ToTop(t.workers[p.id])];
    } else {
      ManagerNears(s);
      assert ToTops(t) == ToTops(s);
    }
  }

  /** Whoever rests holds nothing, so following the chain of who waits for whom one does not come to it. */
  lemma RestlessMoves(s: State, p: Proc) returns (q: Proc)
    requires Good(s) && ValidProc(s, p) && !Rested(s, p)
    ensures Tends(s, q)
  {
    q := SomeoneMoves(s, p);
  }

  /** Letting the restless move, one by one, brings everybody to rest; what their moves keep holds at the end. */
  lemma {:induction false} Settles(s: State, keep: State -> bool) returns (t: State)
    requires Good(s) && keep(s)
    requires forall u, p :: keep(u) && Tends(u, p) ==> keep(Next(u, p, SAFE).value)
    ensures Good(t) && keep(t) && AllRested(t) && Reaches(s, t)
    decreases ToRest(s)
  {
    if AllRested(s) {
      t := s;
      assert Run(s, []) == s;
    } else {
      var p :| ValidProc(s, p) && !Rested(s, p);
      var q := RestlessMoves(s, p);
      var u := Next(s, q, SAFE).value;
      GoodNext(s, q, SAFE);
      MoveNears(s, q);
      ToRestNonnegative(u);
      t := Settles(u, keep);
      ReachesNext(s, u, q, SAFE);
      ReachesThrough(s, u, t);
    }
  }

  // ---- what the moves keep ----

  /** Worker w lives. */
  predicate Lives(s: State, w: nat) { w < |s.workers| && !s.workers[w].Dead? }

  lemma LivesKept(s: State, w: nat, p: Proc)
    requires Lives(s, w) && Tends(s, p)
    ensures Lives(Next(s, p, SAFE).value, w)
  {
    if p == Worker(w) {
      NotKilled(s, w, SAFE);
    } else {
      LocksStep(s, p, SAFE);
    }
  }

  ghost predicate OthersRest(s: State, p: Proc) { forall q | ValidProc(s, q) && q != p :: Rested(s, q) }

  lemma OthersStillRest(s: State, p: Proc)
    requires LockInv(s) && ValidProc(s, p) && OthersRest(s, p) && Next(s, p, SAFE).Some?
    ensures OthersRest(Next(s, p, SAFE).value, p)
  {
    var t := Next(s, p, SAFE).value;
    LocksStep(s, p, SAFE);
    forall q | ValidProc(t, q) && q != p
      ensures Rested(t, q)
    {
      assert Rested(s, q);
    }
  }

  /** Before its swap worker w is on its way to an inverted pair. */
  predicate OnJob(ws: WorkerState, j: Job)
  {
    match ws
    case TakeShelf(job, _) => job == j
    case Repairing(job, _, _) => job == j
    case Compare(job) => job == j
    case WriteX(job) => job == j
    case _ => false
  }

  /** The flag is up, or a swap more has been made than in s, or worker w alone is at its job. */
  ghost predicate Works(s: State, w: nat, j: Job, t: State)
  {
    && Lives(t, w) && t.N() == s.N()
    && (|| t.sorted || t.swaps > s.swaps
        || (t.log == s.log && t.swaps == s.swaps && OthersRest(t, Worker(w)) && OnJob(t.workers[w], j)))
  }

  predicate Inverted(log: seq<int>, j: Job)
  {
    j.x < j.y < |log| && log[j.x] > log[j.y]
  }

  lemma SwapsGrow(s: State, p: Proc, c: Choice)
    requires Good(s) && Next(s, p, c).Some?
    ensures s.swaps <= Next(s, p, c).value.swaps
  {
    if p.Worker? {
      WorkerEffect(s, p.id, c);
      if s.workers[p.id].WriteX? {
        WriteXSwaps(s, p.id, c);
      }
    }
  }

  lemma OnJobMoves(t: State, w: nat, j: Job)
    requires Shape(t) && w < |t.workers| && OnJob(t.workers[w], j) && Inverted(t.log, j) && WorkerNext(t, w, SAFE).Some?
    ensures var v := WorkerNext(t, w, SAFE).value;
      w < |v.workers| && (v.swaps > t.swaps || (v.log == t.log && v.swaps == t.swaps && OnJob(v.workers[w], j)))
  {
    assert WorkerOk(t.workers[w], t.N());
  }

  lemma WorksKept(s: State, w: nat, j: Job, t: State, p: Proc)
    requires Inverted(s.log, j) && Works(s, w, j, t) && Tends(t, p)
    ensures Works(s, w, j, Next(t, p, SAFE).value)
  {
    LivesKept(t, w, p);
    if t.sorted {
      GoodNext(t, p, SAFE);
    } else if t.swaps > s.swaps {
      SwapsGrow(t, p, SAFE);
    } else {
      assert p == Worker(w);
      OnJobMoves(t, w, j);
      OthersStillRest(t, p);
    }
  }

  /** The flag is up, or the manager alone is sweeping over shelves that are in place. */
  ghost predicate Sweeps(n: nat, w: nat, t: State)
  {
    Lives(t, w) && t.N() == n && (t.sorted || (Identity(t.log) && OthersRest(t, Manager) && Sweeping(t.manager)))
  }

  predicate Sweeping(ms: ManagerState)
  {
    match ms
    case Sweep(i) => i > 0
    case Mending(_, _) => true
    case Inspect(_) => true
    case Release(_, ok) => ok
    case TakeCount(ok) => ok
    case TestCount(ok) => ok
    case DropCount(ok, stop) => ok && !stop
    case TakeSorted => true
    case SetSorted => true
    case _ => false
  }

  lemma SweepsKept(n: nat, w: nat, t: State, p: Proc)
    requires Sweeps(n, w, t) && Tends(t, p)
    ensures Sweeps(n, w, Next(t, p, SAFE).value)
  {
    LivesKept(t, w, p);
    if t.sorted {
      GoodNext(t, p, SAFE);
    } else {
      assert p == Manager;
      assert !EveryoneDead(t);
      TestExactly(t);
      SweepingMoves(t);
      OthersStillRest(t, p);
    }
  }

  lemma SweepingMoves(t: State)
    requires Shape(t) && Identity(t.log) && Sweeping(t.manager) && !AllDeadTest(t) && ManagerNext(t).Some?
    ensures var v := ManagerNext(t).value; v.log == t.log && (v.sorted || Sweeping(v.manager))
  {
  }

  // ---- one job, or the last sweep ----

  lemma RestedOwnsNothing(s: State, p: Proc, k: nat)
    requires ValidProc(s, p) && Rested(s, p)
    ensures !Owns(s, p, k)
  {
  }

  /** Where everybody rests no mutex is held. */
  lemma NothingHeld(s: State)
    requires Good(s) && AllRested(s)
    ensures forall k :: 0 <= k < |s.mutex| ==> !s.mutex[k].Held? && (k >= s.N() ==> s.mutex[k].Free?)
    ensures s.log == s.shelves && Permutation(s.log)
  {
    forall k | 0 <= k < |s.mutex|
      ensures !s.mutex[k].Held? && (k >= s.N() ==> s.mutex[k].Free?)
    {
      assert LockAt(s, k);
      if s.mutex[k].Held? {
        RestedOwnsNothing(s, s.mutex[k].owner, k);
      }
    }
    forall w | 0 <= w < |s.workers|
      ensures !s.workers[w].WriteY?
    {
      assert Rested(s, Worker(w));
    }
    forall k | 0 <= k < s.N()
      ensures s.log[k] == s.shelves[k]
    {
      assert !HalfSwapped(s, k);
    }
  }

  /** One turn of worker w, from s at a to t at b. */
  lemma Goes(s: State, w: nat, a: WorkerState, t: State, b: WorkerState, c: Choice)
    requires w < |s.workers| == |t.workers| && Shape(s.At(w, a))
    requires WorkerNext(s.At(w, a), w, c) == Some(t.At(w, a).At(w, b))
    ensures Shape(t.At(w, b)) && Reaches(s.At(w, a), t.At(w, b))
  {
    assert t.At(w, a).At(w, b) == t.At(w, b);
    ReachesNext(s.At(w, a), t.At(w, b), Worker(w), c);
  }

  /** From the top of its loop worker w can come to draw. */
  lemma ToDraw(s: State, w: nat)
    requires Shape(s) && !s.sorted && w < |s.workers| && s.workers[w] == CheckFlag && s.mutex[s.SortedMx()] == Free
    ensures Shape(s.At(w, Draw)) && Reaches(s, s.At(w, Draw))
  {
    var held := s.(mutex := s.mutex[s.SortedMx() := Held(Worker(w), false)]);
    assert s.At(w, CheckFlag) == s;
    assert held.mutex[s.SortedMx() := Free] == s.mutex;
    Goes(s, w, CheckFlag, s, TakeFlag, SAFE);
    Goes(s, w, TakeFlag, held, TestFlag, SAFE);
    Goes(held, w, TestFlag, held, DropFlag(false), SAFE);
    Goes(held, w, DropFlag(false), s, Draw, SAFE);
    ReachesThrough(s, s.At(w, TakeFlag), held.At(w, TestFlag));
    ReachesThrough(s, held.At(w, TestFlag), held.At(w, DropFlag(false)));
    ReachesThrough(s, held.At(w, DropFlag(false)), s.At(w, Draw));
  }

  lemma GoodReaches(s: State, t: State)
    requires Good(s) && Reaches(s, t)
    ensures Good(t)
  {
    var turns :| Run(s, turns) == t;
    GoodRun(s, turns);
  }

  /** And go for any pair. */
  lemma ToJob(s: State, w: nat, j: Job) returns (t: State)
    requires Good(s) && AllRested(s) && !s.sorted && w < |s.workers| && s.workers[w] == CheckFlag && JobOk(j, s.N())
    ensures Good(t) && Reaches(s, t) && t == s.At(w, TakeShelf(j, First))
  {
    NothingHeld(s);
    t := s.At(w, TakeShelf(j, First));
    ToDraw(s, w);
    Goes(s, w, Draw, s, TakeShelf(j, First), Choice(j.x, j.y, false));
    ReachesThrough(s, s.At(w, Draw), t);
    GoodReaches(s, t);
  }

  lemma RestBut(s: State, u: State, w: nat)
    requires AllRested(s) && w < |s.workers| && |u.workers| == |s.workers| && u == s.At(w, u.workers[w])
    ensures OthersRest(u, Worker(w))
  {
    forall q | ValidProc(u, q) && q != Worker(w)
      ensures Rested(u, q)
    {
      assert Rested(s, q);
    }
  }

  lemma WorksToRest(s: State, w: nat, j: Job, u: State) returns (t: State)
    requires Inverted(s.log, j) && Good(u) && Works(s, w, j, u)
    ensures Good(t) && AllRested(t) && Reaches(u, t) && Works(s, w, j, t)
  {
    forall v, p | Works(s, w, j, v) && Tends(v, p)
      ensures Works(s, w, j, Next(v, p, SAFE).value)
    {
      WorksKept(s, w, j, v, p);
    }
    t := Settles(u, v => Works(s, w, j, v));
  }

  /** One more swap, or the flag. */
  lemma OneJob(s: State, w: nat, j: Job) returns (t: State)
    requires Good(s) && AllRested(s) && !s.sorted && w < |s.workers| && s.workers[w] == CheckFlag && Inverted(s.log, j)
    ensures Good(t) && Reaches(s, t) && Lives(t, w) && t.N() == s.N() && (t.sorted || t.swaps > s.swaps)
  {
    var u := ToJob(s, w, j);
    RestBut(s, u, w);
    t := WorksToRest(s, w, j, u);
    assert Rested(t, Worker(w));
    ReachesThrough(s, u, t);
  }

  /** The manager finds the shelves in place and raises the flag. */
  lemma LastSweep(s: State, w: nat) returns (t: State)
    requires Good(s) && AllRested(s) && Lives(s, w) && Identity(s.log) && s.manager == Sweep(0)
    ensures Good(t) && Reaches(s, t) && t.sorted && Lives(t, w) && t.N() == s.N()
  {
    NothingHeld(s);
    var u := Next(s, Manager, SAFE).value;
    GoodNext(s, Manager, SAFE);
    ReachesNext(s, u, Manager, SAFE);
    forall q | ValidProc(u, q) && q != Manager
      ensures Rested(u, q)
    {
      assert Rested(s, q);
    }
    forall v, p | Sweeps(s.N(), w, v) && Tends(v, p)
      ensures Sweeps(s.N(), w, Next(v, p, SAFE).value)
    {
      SweepsKept(s.N(), w, v, p);
    }
    t := Settles(u, v => Sweeps(s.N(), w, v));
    assert Rested(t, Manager);
    ReachesThrough(s, u, t);
  }

  /** Worker w lives, and no swap has been undone. */
  ghost predicate LivesAfter(s: State, w: nat, t: State) { Lives(t, w) && t.swaps >= s.swaps && t.N() == s.N() }

  lemma Rests(s: State, w: nat) returns (t: State)
    requires Good(s) && Lives(s, w)
    ensures Good(t) && AllRested(t) && Reaches(s, t) && LivesAfter(s, w, t)
  {
    forall v, p | LivesAfter(s, w, v) && Tends(v, p)
      ensures LivesAfter(s, w, Next(v, p, SAFE).value)
    {
      LivesKept(v, w, p);
      SwapsGrow(v, p, SAFE);
    }
    t := Settles(s, v => LivesAfter(s, w, v));
  }

  /** From rest: one more swap, or the flag. */
  lemma Advances(s: State, w: nat) returns (t: State)
    requires Good(s) && AllRested(s) && Lives(s, w) && !s.sorted
    ensures Good(t) && Reaches(s, t) && Lives(t, w) && t.N() == s.N() && (t.sorted || t.swaps > s.swaps)
  {
    assert Rested(s, Worker(w)) && Rested(s, Manager);
    assert !GoingHome(s.workers[w]) && !EveryoneDead(s);
    NothingHeld(s);
    if Identity(s.log) {
      t := LastSweep(s, w);
    } else {
      var x, y := Unsorted(s.log);
      t := OneJob(s, w, Job(x, y));
    }
  }

  /** How many swaps there can still be. */
  function SwapsLeft(s: State): int { s.N() * (s.N() - 1) / 2 - s.swaps }

  lemma FewerLeft(s: State, t: State, left: nat)
    requires Good(s) && Good(t) && t.N() == s.N() && t.swaps > s.swaps && SwapsLeft(s) <= left
    ensures left > 0 && SwapsLeft(t) <= left - 1
  {
  }

  /** To rest, and one more swap or the flag. */
  lemma OneMore(s: State, w: nat, u: State) returns (t: State)
    requires Good(s) && Good(u) && AllRested(u) && Reaches(s, u) && LivesAfter(s, w, u) && !u.sorted
    ensures Good(t) && Reaches(s, t) && Lives(t, w) && (t.sorted || (t.N() == s.N() && t.swaps > s.swaps))
  {
    t := Advances(u, w);
    ReachesThrough(s, u, t);
  }

  /** Job after job, until the shelves are in place. */
  lemma {:induction false} Sorts(s: State, w: nat, left: nat) returns (t: State)
    requires Good(s) && Lives(s, w) && SwapsLeft(s) <= left
    ensures Good(t) && Reaches(s, t) && t.sorted
    decreases left
  {
    t := Rests(s, w);
    if !t.sorted {
      var u := OneMore(s, w, t);
      t := u;
      if !u.sorted {
        FewerLeft(s, u, left);
        t := Sorts(u, w, left - 1);
        ReachesThrough(s, u, t);
      }
    }
  }

  /** While any worker lives, whatever has happened, some continuation ends with the shelves sorted and the flag up. */
  lemma SomeRunSorts(s: State, turns: seq<Turn>) returns (t: State)
    requires Start(s) && !EveryoneDead(Run(s, turns))
    ensures Reaches(Run(s, turns), t) && t.sorted && Identity(t.log)
  {
    StartIsGood(s);
    GoodRun(s, turns);
    var w :| 0 <= w < |Run(s, turns).workers| && !Run(s, turns).workers[w].Dead?;
    var left := SwapsLeft(Run(s, turns));
    t := Sorts(Run(s, turns), w, if left < 0 then 0 else left);
    FlaggedIsIdentity(t);
  }

  // ---- and otherwise none does ----

  lemma DeadStep(s: State, p: Proc, c: Choice)
    requires Good(s) && EveryoneDead(s) && !s.sorted && Next(s, p, c).Some?
    ensures EveryoneDead(Next(s, p, c).value) && !Next(s, p, c).value.sorted
  {
  }

  lemma {:induction false} DeadForGood(s: State, more: seq<Turn>)
    requires Good(s) && EveryoneDead(s) && !s.sorted
    ensures Good(Run(s, more)) && EveryoneDead(Run(s, more)) && !Run(s, more).sorted
  {
    if more != [] {
      var u := Run(s, more[..|more| - 1]);
      var last := more[|more| - 1];
      DeadForGood(s, more[..|more| - 1]);
      if Next(u, last.p, last.c).Some? {
        GoodNext(u, last.p, last.c);
        DeadStep(u, last.p, last.c);
      }
    }
  }

  /** In any run: the night can still end with the flag up, over sorted shelves, if and only if it is up or some worker lives. */
  lemma SortsExactly(s: State, turns: seq<Turn>)
    requires Start(s)
    ensures var t := Run(s, turns);
      (exists more :: Run(t, more).sorted) <==> t.sorted || !EveryoneDead(t)
  {
    StartIsGood(s);
    GoodRun(s, turns);
    var t := Run(s, turns);
    if t.sorted {
      assert Run(t, []).sorted;
    } else if !EveryoneDead(t) {
      var u := SomeRunSorts(s, turns);
      var more :| Run(t, more) == u;
      assert Run(t, more).sorted;
    } else {
      forall more
        ensures !Run(t, more).sorted
      {
        DeadForGood(t, more);
      }
    }
  }
}
