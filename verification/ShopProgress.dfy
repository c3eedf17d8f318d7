/** No deadlock, with crashes: some process can always move until all have finished. */
module ShopProgress {
  import opened Counting
  import opened Shop
  import opened ShopLocks

  /** The mutex that p's next step locks, if it locks one. */
  function Wants(s: State, p: Proc): Option<nat>
    requires ValidProc(s, p)
  {
    match p
    case Worker(w) =>
      (match s.workers[w]
       case TakeFlag => Some(s.SortedMx())
       case TakeShelf(j, side) => Some(j.On(side))
       case Repairing(_, _, stage) => if stage.TakeDead? then Some(s.DeadMx()) else None
       case _ => None)
    case Manager =>
      (match s.manager
       case Sweep(i) => if i < s.N() then Some(i) else None
       case Mending(_, stage) => if stage.TakeDead? then Some(s.DeadMx()) else None
       case TakeCount(_) => Some(s.DeadMx())
       case TakeSorted => Some(s.SortedMx())
       case _ => None)
  }

  /** A process that wants nothing, or wants a mutex nobody holds, can move. */
  lemma CanMove(s: State, p: Proc)
    requires Shape(s) && ValidProc(s, p) && !Finished(s, p)
    ensures Wants(s, p).Some? ==> Wants(s, p).value < |s.mutex|
    ensures Wants(s, p).None? || !s.mutex[Wants(s, p).value].Held? ==> Next(s, p, SAFE).Some?
  {
    if p.Worker? {
      assert WorkerOk(s.workers[p.id], s.N());
    }
  }

  /** Locks are taken in rank order: shelves by index, then mxDead, and mxSorted with nothing held. */
  lemma HeldBelowWanted(s: State, p: Proc, k: nat)
    requires Shape(s) && ValidProc(s, p) && Owns(s, p, k)
    ensures !Finished(s, p)
    ensures Wants(s, p).Some? ==> k < Wants(s, p).value
  {
    if p.Worker? {
      assert WorkerOk(s.workers[p.id], s.N());
    }
  }

  /** Follow the chain from a waiting process to the holder of what it wants; ranks only grow. */
  lemma {:induction false} SomeoneMoves(s: State, p: Proc) returns (q: Proc)
    requires LockInv(s) && ValidProc(s, p) && !Finished(s, p)
    ensures ValidProc(s, q) && Next(s, q, SAFE).Some? && (q == p || exists k :: Owns(s, q, k))
    decreases if Wants(s, p).Some? then 1 + |s.mutex| - Wants(s, p).value else 0
  {
    CanMove(s, p);
    var want := Wants(s, p);
    if want.None? || !s.mutex[want.value].Held? {
      q := p;
    } else {
      assert LockAt(s, want.value);
      var holder := s.mutex[want.value].owner;
      assert Owns(s, holder, want.value);
      HeldBelowWanted(s, holder, want.value);
      CanMove(s, holder);
      q := SomeoneMoves(s, holder);
    }
  }

  lemma InitLocks(s: State)
    requires Init(s)
    ensures LockInv(s)
  {
    forall k | 0 <= k < |s.mutex|
      ensures LockAt(s, k)
    {
      forall p | ValidProc(s, p)
        ensures !Owns(s, p, k)
      {
      }
    }
  }

  lemma {:induction false} RunLocks(s: State, turns: seq<Turn>)
    requires Init(s)
    ensures LockInv(Run(s, turns))
  {
    if turns == [] {
      InitLocks(s);
    } else {
      RunLocks(s, turns[..|turns| - 1]);
      var u := Run(s, turns[..|turns| - 1]);
      var last := turns[|turns| - 1];
      if Next(u, last.p, last.c).Some? {
        LocksStep(u, last.p, last.c);
      }
    }
  }

  /** In every reachable state, either all processes have finished or one of them can move, and without dying. */
  lemma DeadlockFree(s: State, turns: seq<Turn>)
    requires Init(s)
    ensures var t := Run(s, turns);
      || (forall p | ValidProc(t, p) :: Finished(t, p))
      || (exists p :: Next(t, p, SAFE).Some?)
  {
    RunLocks(s, turns);
    var t := Run(s, turns);
    if !(forall p | ValidProc(t, p) :: Finished(t, p)) {
      var p :| ValidProc(t, p) && !Finished(t, p);
      var q := SomeoneMoves(t, p);
    }
  }

  /** No shelf is ever lost: no mutex becomes unrecoverable, and only shelf mutexes are left by the dead. */
  lemma NoLockLost(s: State, turns: seq<Turn>, k: nat)
    requires Init(s) && k < |s.mutex|
    ensures var t := Run(s, turns); |t.mutex| == |s.mutex| && !t.mutex[k].Unrecoverable? && (t.mutex[k].OwnerDead? ==> k < t.N())
  {
    RunLocks(s, turns);
    assert LockAt(Run(s, turns), k);
  }
}
