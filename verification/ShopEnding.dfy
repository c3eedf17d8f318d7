/** How a night shift ends: once the flag is up everyone goes home. */
module ShopEnding {
  import opened Counting
  import opened Permutations
  import opened Shop
  import opened ShopLocks
  import opened ShopProgress
  import opened ShopShelves

  // ---- after the flag ----

  function RepairRank(stage: Repair): nat
  {
    match stage case TakeDead => 5 case ReadDead => 4 case WriteDead(_) => 3 case DropDead => 2 case Mend => 1
  }

  /** Steps a worker still needs to get home once the flag is up. */
  function WorkerRank(ws: WorkerState): int
  {
    match ws
    case Home => 0
    case Dead => 0
    case CheckFlag => 1
    case TakeFlag => 3
    case TestFlag => 2
    case DropFlag(stop) => if stop then 1 else 18
    case Draw => 17
    case TakeShelf(_, side) => if side.First? then 16 else 10
    case Repairing(_, side, stage) => (if side.First? then 10 else 4) + RepairRank(stage)
    case Compare(_) => 4
    case WriteX(_) => 5
    case WriteY(_, _) => 4
    case DropSecond(_) => 3
    case DropFirst(_) => 2
  }

  function Ranks(s: State): seq<int>
  {
    seq(|s.workers|, w requires 0 <= w < |s.workers| => WorkerRank(s.workers[w]))
  }

  function Rank(s: State): int
  {
    Sum(Ranks(s)) + (if s.manager.Done? then 0 else 1)
  }

  lemma FlaggedWorkerDescends(s: State, w: nat, c: Choice)
    requires GoodShelves(s) && s.sorted && w < |s.workers| && WorkerNext(s, w, c).Some?
    ensures |WorkerNext(s, w, c).value.workers| == |s.workers|
    ensures WorkerRank(WorkerNext(s, w, c).value.workers[w]) < WorkerRank(s.workers[w])
  {
    var ws := s.workers[w];
    assert WorkerOk(ws, s.N()) && WorkerSees(s, w);
    if ws.Compare? {
      HeldIsWhole(s, Worker(w), ws.job.x);
      HeldIsWhole(s, Worker(w), ws.job.y);
    }
  }

  /** Once the flag is up every step of every process brings the end nearer. */
  lemma FlaggedStepDescends(s: State, p: Proc, c: Choice)
    requires GoodShelves(s) && s.sorted && Next(s, p, c).Some?
    ensures Rank(Next(s, p, c).value) < Rank(s)
  {
    var t := Next(s, p, c).value;
    if p.Worker? {
      FlaggedWorkerDescends(s, p.id, c);
      WorkerEffect(s, p.id, c);
      SumUpdate(Ranks(s), p.id, WorkerRank(t.workers[p.id]));
      assert Ranks(t) == Ranks(s)[p.id := WorkerRank(t.workers[p.id])];
    } else {
      assert Ranks(t) == Ranks(s);
    }
  }

  /** How many of the turns made their process move. */
  function Moves(s: State, turns: seq<Turn>): nat
    requires Shape(s)
  {
    if turns == [] then 0
    else
      var u := Run(s, turns[..|turns| - 1]);
      var last := turns[|turns| - 1];
      Moves(s, turns[..|turns| - 1]) + (if Next(u, last.p, last.c).Some? then 1 else 0)
  }

  lemma {:induction false} MovesSpendRank(s: State, more: seq<Turn>)
    requires GoodShelves(s) && s.sorted
    ensures Moves(s, more) + Rank(Run(s, more)) <= Rank(s)
  {
    if more != [] {
      var front := more[..|more| - 1];
      MovesSpendRank(s, front);
      FlaggedRun(s, front);
      var u := Run(s, front);
      var last := more[|more| - 1];
      if Next(u, last.p, last.c).Some? {
        FlaggedStepDescends(u, last.p, last.c);
      }
    }
  }

  lemma RankBounded(s: State)
    requires Shape(s)
    ensures 0 <= Rank(s) <= 18 * |s.workers| + 1
  {
    SumBounds(Ranks(s), 18);
  }

  lemma StuckIsFinished(s: State)
    requires LockInv(s) && forall p :: Next(s, p, SAFE).None?
    ensures forall p | ValidProc(s, p) :: Finished(s, p)
  {
    if p :| ValidProc(s, p) && !Finished(s, p) {
      var q := SomeoneMoves(s, p);
    }
  }

  /**
   After the flag is up at most 18 M + 1 more moves happen, whatever the schedule, and a state in which
   nobody can move is one in which the manager and every worker has finished over sorted shelves.
   */
  lemma EveryoneGoesHome(s: State, turns: seq<Turn>, more: seq<Turn>)
    requires Start(s) && Run(s, turns).sorted
    ensures Moves(Run(s, turns), more) <= 18 * |s.workers| + 1
    ensures var u := Run(Run(s, turns), more);
      Identity(u.log) && ((forall p :: Next(u, p, SAFE).None?) ==> forall p | ValidProc(u, p) :: Finished(u, p))
  {
    RunShelves(s, turns);
    var t := Run(s, turns);
    MovesSpendRank(t, more);
    RankBounded(t);
    RankBounded(Run(t, more));
    SortedIsStable(s, turns, more);
    FlaggedRun(t, more);
    if forall p :: Next(Run(t, more), p, SAFE).None? {
      StuckIsFinished(Run(t, more));
    }
  }
}
