/** The death count: every death is counted exactly twice, once for each shelf the dead worker held. */
module ShopDeaths {
  import opened Counting
  import opened Shop
  import opened ShopLocks
  import opened ShopProgress

  predicate IsDead(ws: WorkerState) { ws.Dead? }

  /** Got EOWNERDEAD and has not yet written the incremented count. */
  predicate Owes(stage: Repair) { stage.TakeDead? || stage.ReadDead? || stage.WriteDead? }

  predicate WorkerOwes(ws: WorkerState) { ws.Repairing? && Owes(ws.stage) }

  function ManagerOwes(ms: ManagerState): nat { if ms.Mending? && Owes(ms.stage) then 1 else 0 }

  function Uncounted(s: State): nat
  {
    Count(s.mutex, IsOwnerDead) + Count(s.workers, WorkerOwes) + ManagerOwes(s.manager)
  }

  /** p has read the count and is about to write it back incremented. */
  predicate Writing(s: State, p: Proc, seen: int)
    requires ValidProc(s, p)
  {
    match p
    case Worker(w) => s.workers[w].Repairing? && s.workers[w].stage == WriteDead(seen)
    case Manager => s.manager.Mending? && s.manager.stage == WriteDead(seen)
  }

  /** The value read under mxDead is still current when it is written back. */
  ghost predicate CountInv(s: State)
  {
    && s.dead >= 0
    && s.dead + Uncounted(s) == 2 * Count(s.workers, IsDead)
    && (forall p, seen | ValidProc(s, p) && Writing(s, p, seen) :: seen == s.dead)
  }

  /** Nobody else is inside the mxDead section while p is. */
  lemma AloneInCount(s: State, p: Proc, q: Proc)
    requires LockInv(s) && ValidProc(s, p) && ValidProc(s, q) && p != q && Owns(s, p, s.DeadMx())
    ensures !Owns(s, q, s.DeadMx())
  {
    assert LockAt(s, s.DeadMx());
  }

  function One(b: bool): nat { if b then 1 else 0 }

  /** Every step but a death changes at most the one mutex its program counter names. */
  function StepMutex(s: State, p: Proc): nat
    requires ValidProc(s, p)
  {
    var n := s.N();
    match p
    case Worker(w) =>
      (match s.workers[w]
       case TakeShelf(j, side) => j.On(side)
       case Repairing(j, side, stage) => if stage.Mend? then j.On(side) else n
       case DropSecond(j) => j.Hi()
       case DropFirst(j) => j.Lo()
       case _ => n + 1)
    case Manager =>
      (match s.manager
       case Sweep(i) => i
       case Mending(i, stage) => if stage.Mend? then i else n
       case Release(i, _) => i
       case TakeCount(_) => n
       case DropCount(_, _) => n
       case _ => n + 1)
  }

  predicate Dies(s: State, p: Proc, c: Choice)
  {
    && p.Worker? && p.id < |s.workers| && s.workers[p.id].Compare? && c.die
    && Shape(s) && WorkerOk(s.workers[p.id], s.N())
    && WorkerNext(s, p.id, c) == Some(Die(s, p.id, s.workers[p.id].job))
  }

  lemma OneMutex(s: State, p: Proc, c: Choice)
    requires LockInv(s) && Next(s, p, c).Some? && !Dies(s, p, c)
    ensures ValidProc(s, p)
    ensures var t := Next(s, p, c).value; var k := StepMutex(s, p);
      k < |s.mutex| && t.mutex == s.mutex[k := t.mutex[k]] && (t.mutex[k].OwnerDead? ==> t.mutex == s.mutex)
  {
    if p.Worker? {
      assert WorkerOk(s.workers[p.id], s.N());
    }
  }

  /** How many owner-dead mutexes a step adds or removes. */
  lemma MutexCount(s: State, p: Proc, c: Choice)
    requires LockInv(s) && Next(s, p, c).Some? && !Dies(s, p, c)
    ensures ValidProc(s, p)
    ensures var t := Next(s, p, c).value; var k := StepMutex(s, p);
      k < |s.mutex| &&
      Count(t.mutex, IsOwnerDead) == Count(s.mutex, IsOwnerDead) - One(s.mutex[k].OwnerDead? && !t.mutex[k].OwnerDead?)
  {
    OneMutex(s, p, c);
    var k := StepMutex(s, p);
    var t := Next(s, p, c).value;
    CountUpdate(s.mutex, k, t.mutex[k], IsOwnerDead);
  }

  lemma DeathCount(s: State, w: nat, c: Choice)
    requires LockInv(s) && CountInv(s) && Dies(s, Worker(w), c)
    ensures var t := WorkerNext(s, w, c).value; t.dead + Uncounted(t) == 2 * Count(t.workers, IsDead)
  {
    var j := s.workers[w].job;
    assert WorkerOk(s.workers[w], s.N());
    assert LockAt(s, j.Lo()) && LockAt(s, j.Hi()) && Owns(s, Worker(w), j.Lo()) && Owns(s, Worker(w), j.Hi());
    CountUpdate(s.mutex, j.Lo(), OwnerDead, IsOwnerDead);
    CountUpdate(s.mutex[j.Lo() := OwnerDead], j.Hi(), OwnerDead, IsOwnerDead);
    CountUpdate(s.workers, w, Dead, WorkerOwes);
    CountUpdate(s.workers, w, Dead, IsDead);
  }

  lemma WritesCurrent(s: State, p: Proc)
    requires CountInv(s) && ValidProc(s, p)
    ensures match p
      case Worker(w) => s.workers[w].Repairing? && s.workers[w].stage.WriteDead? ==> s.workers[w].stage.seen == s.dead
      case Manager => s.manager.Mending? && s.manager.stage.WriteDead? ==> s.manager.stage.seen == s.dead
  {
    match p
    case Worker(w) =>
      if s.workers[w].Repairing? && s.workers[w].stage.WriteDead? {
        assert Writing(s, p, s.workers[w].stage.seen);
      }
    case Manager =>
      if s.manager.Mending? && s.manager.stage.WriteDead? {
        assert Writing(s, p, s.manager.stage.seen);
      }
  }

  /** A worker's step keeps the books: a recovered mutex becomes a debt, a debt becomes a count. */
  ghost predicate WorkerBooks(s: State, w: nat, t: State)
    requires w < |s.workers|
  {
    var k := StepMutex(s, Worker(w));
    && k < |s.mutex| == |t.mutex| && |t.workers| == |s.workers| && !t.workers[w].Dead?
    && t.workers == s.workers[w := t.workers[w]] && t.manager == s.manager
    && (t.dead - s.dead) + One(WorkerOwes(t.workers[w]))
       == One(WorkerOwes(s.workers[w])) + One(s.mutex[k].OwnerDead? && !t.mutex[k].OwnerDead?)
  }

  lemma ShelfLedger(s: State, w: nat, c: Choice)
    requires LockInv(s) && CountInv(s) && w < |s.workers| && WorkerNext(s, w, c).Some? && !Dies(s, Worker(w), c)
    requires s.workers[w].TakeShelf? || s.workers[w].Repairing?
    ensures WorkerBooks(s, w, WorkerNext(s, w, c).value)
  {
    WritesCurrent(s, Worker(w));
    var k := StepMutex(s, Worker(w));
    assert WorkerOk(s.workers[w], s.N());
    OneMutex(s, Worker(w), c);
    assert LockAt(s, k);
    assert Owns(s, Worker(w), k) <==> (s.mutex[k].Held? && s.mutex[k].owner == Worker(w));
  }

  lemma QuietLedger(s: State, w: nat, c: Choice)
    requires LockInv(s) && CountInv(s) && w < |s.workers| && WorkerNext(s, w, c).Some? && !Dies(s, Worker(w), c)
    requires !s.workers[w].TakeShelf? && !s.workers[w].Repairing?
    ensures WorkerBooks(s, w, WorkerNext(s, w, c).value)
  {
    WritesCurrent(s, Worker(w));
    var k := StepMutex(s, Worker(w));
    assert WorkerOk(s.workers[w], s.N());
    OneMutex(s, Worker(w), c);
    assert LockAt(s, k);
    assert Owns(s, Worker(w), k) <==> (s.mutex[k].Held? && s.mutex[k].owner == Worker(w));
  }

  lemma ManagerLedger(s: State)
    requires LockInv(s) && CountInv(s) && ManagerNext(s).Some?
    ensures var t := ManagerNext(s).value; var k := StepMutex(s, Manager);
      && k < |s.mutex| && t.workers == s.workers
      && (t.dead - s.dead) + ManagerOwes(t.manager) == ManagerOwes(s.manager) + One(s.mutex[k].OwnerDead? && !t.mutex[k].OwnerDead?)
  {
    var k := StepMutex(s, Manager);
    WritesCurrent(s, Manager);
    OneMutex(s, Manager, SAFE);
    assert LockAt(s, k);
    assert Owns(s, Manager, k) <==> (s.mutex[k].Held? && s.mutex[k].owner == Manager);
  }

  lemma WorkerCount(s: State, w: nat, c: Choice)
    requires LockInv(s) && CountInv(s) && w < |s.workers| && WorkerNext(s, w, c).Some?
    ensures var t := WorkerNext(s, w, c).value; t.dead + Uncounted(t) == 2 * Count(t.workers, IsDead)
  {
    if Dies(s, Worker(w), c) {
      DeathCount(s, w, c);
    } else {
      if s.workers[w].TakeShelf? || s.workers[w].Repairing? {
        ShelfLedger(s, w, c);
      } else {
        QuietLedger(s, w, c);
      }
      var now := WorkerNext(s, w, c).value.workers[w];
      MutexCount(s, Worker(w), c);
      CountUpdate(s.workers, w, now, WorkerOwes);
      CountUpdate(s.workers, w, now, IsDead);
    }
  }

  lemma ManagerCount(s: State)
    requires LockInv(s) && CountInv(s) && ManagerNext(s).Some?
    ensures var t := ManagerNext(s).value; t.dead + Uncounted(t) == 2 * Count(t.workers, IsDead)
  {
    ManagerLedger(s);
    MutexCount(s, Manager, SAFE);
  }

  lemma WriterOwns(s: State, p: Proc, c: Choice)
    requires LockInv(s) && Next(s, p, c).Some? && Next(s, p, c).value.dead != s.dead
    ensures var t := Next(s, p, c).value; ValidProc(t, p) && t.DeadMx() < |t.mutex| && Owns(t, p, t.DeadMx()) && !Writing(t, p, t.dead - 1)
    ensures forall seen :: !Writing(Next(s, p, c).value, p, seen)
  {
  }

  /** While p writes the count, nobody else has read it with intent to write. */
  lemma WriterAlone(s: State, p: Proc, c: Choice, q: Proc, seen: int)
    requires LockInv(s) && CountInv(s) && Next(s, p, c).Some? && Next(s, p, c).value.dead != s.dead
    requires ValidProc(Next(s, p, c).value, q)
    ensures !Writing(Next(s, p, c).value, q, seen)
  {
    var t := Next(s, p, c).value;
    LocksStep(s, p, c);
    WriterOwns(s, p, c);
    if Writing(t, q, seen) && p != q {
      AloneInCount(t, p, q);
    }
  }

  /** What p has just read is current. */
  lemma WorkerJustRead(s: State, w: nat, c: Choice, seen: int)
    requires Shape(s) && w < |s.workers| && WorkerNext(s, w, c).Some?
    requires var now := WorkerNext(s, w, c).value.workers[w]; now.Repairing? && now.stage == WriteDead(seen)
    ensures seen == WorkerNext(s, w, c).value.dead == s.dead
  {
  }

  lemma ManagerJustRead(s: State, seen: int)
    requires Shape(s) && ManagerNext(s).Some?
    requires var now := ManagerNext(s).value.manager; now.Mending? && now.stage == WriteDead(seen)
    ensures seen == ManagerNext(s).value.dead == s.dead
  {
  }

  lemma SeenCurrent(s: State, p: Proc, c: Choice, q: Proc, seen: int)
    requires LockInv(s) && CountInv(s) && Next(s, p, c).Some?
    requires ValidProc(Next(s, p, c).value, q) && Writing(Next(s, p, c).value, q, seen)
    ensures seen == Next(s, p, c).value.dead
  {
    LocksStep(s, p, c);
    if p == q {
      if p.Manager? {
        ManagerJustRead(s, seen);
      } else {
        WorkerJustRead(s, p.id, c, seen);
      }
    } else if Next(s, p, c).value.dead != s.dead {
      WriterAlone(s, p, c, q, seen);
    } else {
      assert Writing(s, q, seen);
    }
  }

  lemma WorkerDeadGrows(s: State, w: nat, c: Choice)
    requires Shape(s) && CountInv(s) && w < |s.workers| && WorkerNext(s, w, c).Some?
    ensures s.dead <= WorkerNext(s, w, c).value.dead
  {
    WritesCurrent(s, Worker(w));
  }

  lemma ManagerDeadGrows(s: State)
    requires Shape(s) && CountInv(s) && ManagerNext(s).Some?
    ensures s.dead <= ManagerNext(s).value.dead
  {
    WritesCurrent(s, Manager);
  }

  lemma DeadGrows(s: State, p: Proc, c: Choice)
    requires LockInv(s) && CountInv(s) && Next(s, p, c).Some?
    ensures s.dead <= Next(s, p, c).value.dead
  {
    if p.Manager? {
      ManagerDeadGrows(s);
    } else {
      WorkerDeadGrows(s, p.id, c);
    }
  }

  lemma CountStep(s: State, p: Proc, c: Choice)
    requires LockInv(s) && CountInv(s) && Next(s, p, c).Some?
    ensures CountInv(Next(s, p, c).value)
  {
    var t := Next(s, p, c).value;
    forall q, seen | ValidProc(t, q) && Writing(t, q, seen)
      ensures seen == t.dead
    {
      SeenCurrent(s, p, c, q, seen);
    }
    DeadGrows(s, p, c);
    if p.Manager? {
      ManagerCount(s);
    } else {
      WorkerCount(s, p.id, c);
    }
  }

  lemma InitCount(s: State)
    requires Init(s)
    ensures CountInv(s)
  {
    CountNone(s.mutex, IsOwnerDead);
    CountNone(s.workers, WorkerOwes);
    CountNone(s.workers, IsDead);
  }

  lemma {:induction false} RunCount(s: State, turns: seq<Turn>)
    requires Init(s)
    ensures LockInv(Run(s, turns)) && CountInv(Run(s, turns))
  {
    RunLocks(s, turns);
    if turns == [] {
      InitCount(s);
    } else {
      var u := Run(s, turns[..|turns| - 1]);
      var last := turns[|turns| - 1];
      RunCount(s, turns[..|turns| - 1]);
      if Next(u, last.p, last.c).Some? {
        CountStep(u, last.p, last.c);
      }
    }
  }

  /** dead, plus the shelves the dead still block, plus the recoveries not yet counted, is twice the deaths. */
  lemma DeathsCountedTwice(s: State, turns: seq<Turn>)
    requires Init(s)
    ensures var t := Run(s, turns);
      t.dead + Count(t.mutex, IsOwnerDead) + Count(t.workers, WorkerOwes) + ManagerOwes(t.manager)
      == 2 * Count(t.workers, IsDead)
  {
    RunCount(s, turns);
  }

  ghost predicate EveryoneDead(s: State) { forall w :: 0 <= w < |s.workers| ==> s.workers[w].Dead? }

  /** The manager's "all workers died" test holds exactly when all are dead and every death is fully counted. */
  lemma AllDeadExactly(s: State, turns: seq<Turn>)
    requires Init(s)
    ensures var t := Run(s, turns);
      AllDeadTest(t) <==> EveryoneDead(t) && Uncounted(t) == 0
  {
    RunCount(s, turns);
    TestExactly(Run(s, turns));
  }

  lemma TestExactly(s: State)
    requires CountInv(s)
    ensures AllDeadTest(s) <==> EveryoneDead(s) && Uncounted(s) == 0
  {
    CountFull(s.workers, IsDead);
  }

  /** A manager that leaves because of the test has seen everybody die. */
  ghost predicate QuitInv(s: State)
  {
    (s.manager.DropCount? && s.manager.stop) || s.manager == Done(true) ==> EveryoneDead(s)
  }

  lemma QuitStep(s: State, p: Proc, c: Choice)
    requires LockInv(s) && CountInv(s) && QuitInv(s) && Next(s, p, c).Some?
    ensures QuitInv(Next(s, p, c).value)
  {
    LocksStep(s, p, c);
    if p.Manager? {
      TestExactly(s);
    }
  }

  lemma {:induction false} RunQuits(s: State, turns: seq<Turn>)
    requires Init(s)
    ensures QuitInv(Run(s, turns))
  {
    if turns != [] {
      var u := Run(s, turns[..|turns| - 1]);
      var last := turns[|turns| - 1];
      RunQuits(s, turns[..|turns| - 1]);
      RunCount(s, turns[..|turns| - 1]);
      if Next(u, last.p, last.c).Some? {
        QuitStep(u, last.p, last.c);
      }
    }
  }

  /** The "all workers died" exit is taken only if they have. */
  lemma OnlyAllDeadQuits(s: State, turns: seq<Turn>)
    requires Init(s) && Run(s, turns).manager == Done(true)
    ensures EveryoneDead(Run(s, turns))
  {
    RunQuits(s, turns);
  }

  /** All workers are dead and the manager is in a sweep that began after the last death. */
  ghost predicate FinalSweep(s: State)
  {
    && LockInv(s) && CountInv(s) && EveryoneDead(s)
    && match s.manager
       case Sweep(_) => true
       case Mending(_, _) => true
       case Inspect(_) => Uncounted(s) == 0
       case Release(_, _) => Uncounted(s) == 0
       case TakeCount(_) => Uncounted(s) == 0
       case TestCount(_) => Uncounted(s) == 0
       case DropCount(_, stop) => stop
       case Done(allDied) => allDied
       case _ => false
  }

  /** How many more steps the manager takes in such a sweep, at most. */
  function SweepSteps(ms: ManagerState, n: nat): int
  {
    match ms
    case Sweep(i) => 6 * (n - i) + 2 * n + 6
    case Mending(i, stage) =>
      6 * (n - i - 1) + 2 * n + 6
      + (match stage case TakeDead => 5 case ReadDead => 4 case WriteDead(_) => 3 case DropDead => 2 case Mend => 1)
    case Inspect(i) => (n - i) + n + 5
    case Release(i, _) => (n - i) + 4
    case TakeCount(_) => 3
    case TestCount(_) => 2
    case DropCount(_, _) => 1
    case _ => 0
  }

  /** Once the manager has swept every shelf, nothing the dead left is still uncounted. */
  lemma SweptClean(s: State)
    requires LockInv(s) && EveryoneDead(s) && s.manager == Sweep(s.N())
    ensures Uncounted(s) == 0
  {
    forall k | 0 <= k < |s.mutex|
      ensures !IsOwnerDead(s.mutex[k])
    {
      assert LockAt(s, k);
      assert k < s.N() ==> Owns(s, Manager, k);
    }
    CountNone(s.mutex, IsOwnerDead);
    CountNone(s.workers, WorkerOwes);
  }

  lemma FinalSweepShrinks(s: State, c: Choice)
    requires FinalSweep(s) && Next(s, Manager, c).Some?
    requires s.manager.TestCount? ==> AllDeadTest(s)
    ensures var t := Next(s, Manager, c).value;
      SweepSteps(t.manager, t.N()) < SweepSteps(s.manager, s.N())
  {
  }

  lemma FinalSweepKept(s: State, c: Choice)
    requires FinalSweep(s) && Next(s, Manager, c).Some?
    ensures FinalSweep(Next(s, Manager, c).value)
    ensures s.manager.TestCount? ==> AllDeadTest(s)
  {
    var t := Next(s, Manager, c).value;
    LocksStep(s, Manager, c);
    CountStep(s, Manager, c);
    if s.manager == Sweep(s.N()) {
      SweptClean(s);
    }
    CountFull(s.workers, IsDead);
    MutexCount(s, Manager, c);
  }

  /** If the sweep starts after the last death, it ends in the "all workers died" exit, whatever the shelves hold. */
  lemma {:induction false} FinalSweepQuits(s: State, turns: seq<Turn>)
    requires FinalSweep(s) && forall i :: 0 <= i < |turns| ==> turns[i].p == Manager
    ensures FinalSweep(Run(s, turns))
    ensures |turns| >= SweepSteps(s.manager, s.N()) ==> Run(s, turns).manager == Done(true)
    ensures Run(s, turns).manager == Done(true) || SweepSteps(Run(s, turns).manager, s.N()) + |turns| <= SweepSteps(s.manager, s.N())
  {
    if turns != [] {
      var u := Run(s, turns[..|turns| - 1]);
      var last := turns[|turns| - 1];
      FinalSweepQuits(s, turns[..|turns| - 1]);
      if Next(u, Manager, last.c).Some? {
        FinalSweepKept(u, last.c);
        FinalSweepShrinks(u, last.c);
      } else if !u.manager.Done? {
        var q := SomeoneMoves(u, Manager);
        assert false;
      }
    }
  }

  /** If all workers are dead when a sweep starts, that sweep takes the "all workers died" exit. */
  lemma AllDeadSweepQuits(s: State, turns: seq<Turn>, more: seq<Turn>)
    requires Init(s)
    requires EveryoneDead(Run(s, turns)) && Run(s, turns).manager == Sweep(0)
    requires forall i :: 0 <= i < |more| ==> more[i].p == Manager
    requires |more| >= 8 * s.N() + 6
    ensures Run(Run(s, turns), more).manager == Done(true)
  {
    RunCount(s, turns);
    FinalSweepQuits(Run(s, turns), more);
  }
}
