/** Who holds which mutex, in every reachable state; and why somebody can always move. */
module ShopLocks {
  import opened Shop

  // ---- what a program counter says its process holds ----

  predicate WorkerOwns(ws: WorkerState, k: nat, n: nat)
  {
    match ws
    case TestFlag => k == n + 1
    case DropFlag(_) => k == n + 1
    case TakeShelf(j, side) => side.Second? && k == j.Lo()
    case Repairing(j, side, stage) =>
      || k == j.Lo()
      || (side.Second? && k == j.Hi())
      || (k == n && HoldsCount(stage))
    case Compare(j) => k == j.Lo() || k == j.Hi()
    case WriteX(j) => k == j.Lo() || k == j.Hi()
    case WriteY(j, _) => k == j.Lo() || k == j.Hi()
    case DropSecond(j) => k == j.Lo() || k == j.Hi()
    case DropFirst(j) => k == j.Lo()
    case _ => false
  }

  predicate HoldsCount(stage: Repair) { stage.ReadDead? || stage.WriteDead? || stage.DropDead? }

  predicate ManagerOwns(ms: ManagerState, k: nat, n: nat)
  {
    match ms
    case Sweep(i) => k < i
    case Mending(i, stage) => k <= i || (k == n && HoldsCount(stage))
    case Inspect(_) => k < n
    case Release(i, _) => i <= k < n
    case TestCount(_) => k == n
    case DropCount(_, _) => k == n
    case SetSorted => k == n + 1
    case DropSorted => k == n + 1
    case _ => false
  }

  predicate Owns(s: State, p: Proc, k: nat)
    requires ValidProc(s, p)
  {
    match p
    case Worker(w) => WorkerOwns(s.workers[w], k, s.N())
    case Manager => ManagerOwns(s.manager, k, s.N())
  }

  /** p got EOWNERDEAD on k and has not yet made it consistent. */
  predicate Mends(s: State, p: Proc, k: nat)
    requires ValidProc(s, p)
  {
    match p
    case Worker(w) => s.workers[w].Repairing? && k == s.workers[w].job.On(s.workers[w].side)
    case Manager => s.manager.Mending? && k == s.manager.i
  }

  /** Mutex k is held exactly by the process whose program counter says so. */
  ghost predicate LockAt(s: State, k: nat)
    requires k < |s.mutex|
  {
    && !s.mutex[k].Unrecoverable?
    && (s.mutex[k].OwnerDead? ==> k < s.N())
    && (s.mutex[k].Held? ==>
         (ValidProc(s, s.mutex[k].owner) && s.mutex[k].inconsistent == Mends(s, s.mutex[k].owner, k)))
    && (forall p | ValidProc(s, p) :: Owns(s, p, k) <==> (s.mutex[k].Held? && s.mutex[k].owner == p))
  }

  ghost predicate LockInv(s: State)
  {
    && Shape(s)
    && forall k :: 0 <= k < |s.mutex| ==> LockAt(s, k)
  }

  // ---- preservation ----

  /** Every process other than p is where it was. */
  ghost predicate OthersStay(s: State, t: State, p: Proc)
  {
    && |t.workers| == |s.workers| && |t.mutex| == |s.mutex| && t.N() == s.N()
    && (p != Manager ==> t.manager == s.manager)
    && (forall w :: 0 <= w < |s.workers| && p != Worker(w) ==> t.workers[w] == s.workers[w])
  }

  /** A mutex nobody touched stays right as long as p's claim on it is unchanged. */
  lemma LockAtFrame(s: State, t: State, p: Proc, k: nat)
    requires ValidProc(s, p) && OthersStay(s, t, p) && k < |s.mutex| && LockAt(s, k)
    requires t.mutex[k] == s.mutex[k]
    requires Owns(t, p, k) == Owns(s, p, k) && (Owns(s, p, k) ==> Mends(t, p, k) == Mends(s, p, k))
    ensures LockAt(t, k)
  {
    forall q | ValidProc(t, q)
      ensures Owns(t, q, k) == Owns(s, q, k)
    {
    }
  }

  /** A mutex that p took, gave up or mended is right if it now says what p's program counter says. */
  lemma LockAtChanged(s: State, t: State, p: Proc, k: nat)
    requires ValidProc(s, p) && OthersStay(s, t, p) && k < |s.mutex| && LockAt(s, k)
    requires s.mutex[k].Held? ==> s.mutex[k].owner == p
    requires t.mutex[k].Held? ==> t.mutex[k].owner == p && t.mutex[k].inconsistent == Mends(t, p, k)
    requires Owns(t, p, k) == t.mutex[k].Held?
    requires !t.mutex[k].Unrecoverable? && (t.mutex[k].OwnerDead? ==> k < s.N())
    ensures LockAt(t, k)
  {
    forall q | ValidProc(t, q) && q != p
      ensures !Owns(t, q, k)
    {
      assert Owns(t, q, k) == Owns(s, q, k);
    }
  }

  /** What a step of p must do to mutex k for LockAt to survive. */
  ghost predicate FairTo(s: State, t: State, p: Proc, k: nat)
    requires ValidProc(s, p) && OthersStay(s, t, p) && k < |s.mutex|
  {
    if t.mutex[k] == s.mutex[k] then
      Owns(t, p, k) == Owns(s, p, k) && (Owns(s, p, k) ==> Mends(t, p, k) == Mends(s, p, k))
    else
      && (s.mutex[k].Held? ==> s.mutex[k].owner == p)
      && (t.mutex[k].Held? ==> t.mutex[k].owner == p && t.mutex[k].inconsistent == Mends(t, p, k))
      && Owns(t, p, k) == t.mutex[k].Held?
      && !t.mutex[k].Unrecoverable? && (t.mutex[k].OwnerDead? ==> k < s.N())
  }

  lemma LocksKept(s: State, t: State, p: Proc)
    requires LockInv(s) && Shape(t) && ValidProc(s, p) && OthersStay(s, t, p)
    requires forall k :: 0 <= k < |s.mutex| ==> FairTo(s, t, p, k)
    ensures LockInv(t)
  {
    forall k | 0 <= k < |s.mutex|
      ensures LockAt(t, k)
    {
      assert FairTo(s, t, p, k) && LockAt(s, k);
      if t.mutex[k] == s.mutex[k] {
        LockAtFrame(s, t, p, k);
      } else {
        LockAtChanged(s, t, p, k);
      }
    }
  }

  lemma RepairFair(s: State, w: nat, c: Choice, k: nat)
    requires LockInv(s) && w < |s.workers| && k < |s.mutex| && WorkerNext(s, w, c).Some?
    requires var ws := s.workers[w]; ws.Repairing?
    ensures OthersStay(s, WorkerNext(s, w, c).value, Worker(w))
    ensures FairTo(s, WorkerNext(s, w, c).value, Worker(w), k)
  {
    assert WorkerOk(s.workers[w], s.N()) && LockAt(s, k);
    assert Owns(s, Worker(w), k) <==> (s.mutex[k].Held? && s.mutex[k].owner == Worker(w));
  }

  lemma CompareFair(s: State, w: nat, c: Choice, k: nat)
    requires LockInv(s) && w < |s.workers| && k < |s.mutex| && WorkerNext(s, w, c).Some?
    requires var ws := s.workers[w]; ws.Compare? || ws.WriteX? || ws.WriteY?
    ensures OthersStay(s, WorkerNext(s, w, c).value, Worker(w))
    ensures FairTo(s, WorkerNext(s, w, c).value, Worker(w), k)
  {
    assert WorkerOk(s.workers[w], s.N()) && LockAt(s, k);
    assert Owns(s, Worker(w), k) <==> (s.mutex[k].Held? && s.mutex[k].owner == Worker(w));
  }

  lemma ShelfFair(s: State, w: nat, c: Choice, k: nat)
    requires LockInv(s) && w < |s.workers| && k < |s.mutex| && WorkerNext(s, w, c).Some?
    requires var ws := s.workers[w]; ws.TakeShelf? || ws.DropSecond? || ws.DropFirst?
    ensures OthersStay(s, WorkerNext(s, w, c).value, Worker(w))
    ensures FairTo(s, WorkerNext(s, w, c).value, Worker(w), k)
  {
    assert WorkerOk(s.workers[w], s.N()) && LockAt(s, k);
    assert Owns(s, Worker(w), k) <==> (s.mutex[k].Held? && s.mutex[k].owner == Worker(w));
  }

  lemma FlagFair(s: State, w: nat, c: Choice, k: nat)
    requires LockInv(s) && w < |s.workers| && k < |s.mutex| && WorkerNext(s, w, c).Some?
    requires var ws := s.workers[w]; ws.CheckFlag? || ws.TakeFlag? || ws.TestFlag? || ws.DropFlag? || ws.Draw?
    ensures OthersStay(s, WorkerNext(s, w, c).value, Worker(w))
    ensures FairTo(s, WorkerNext(s, w, c).value, Worker(w), k)
  {
    assert WorkerOk(s.workers[w], s.N()) && LockAt(s, k);
    assert Owns(s, Worker(w), k) <==> (s.mutex[k].Held? && s.mutex[k].owner == Worker(w));
  }

  lemma WorkerFair(s: State, w: nat, c: Choice, k: nat)
    requires LockInv(s) && w < |s.workers| && k < |s.mutex| && WorkerNext(s, w, c).Some?
    ensures OthersStay(s, WorkerNext(s, w, c).value, Worker(w))
    ensures FairTo(s, WorkerNext(s, w, c).value, Worker(w), k)
  {
    var ws := s.workers[w];
    if ws.Compare? || ws.WriteX? || ws.WriteY? {
      CompareFair(s, w, c, k);
    } else if ws.Repairing? {
      RepairFair(s, w, c, k);
    } else if ws.TakeShelf? || ws.DropSecond? || ws.DropFirst? {
      ShelfFair(s, w, c, k);
    } else {
      FlagFair(s, w, c, k);
    }
  }

  lemma SweepFair(s: State, k: nat)
    requires LockInv(s) && k < |s.mutex| && ManagerNext(s).Some?
    requires var ms := s.manager; ms.Sweep? || ms.Inspect? || ms.Release?
    ensures OthersStay(s, ManagerNext(s).value, Manager)
    ensures FairTo(s, ManagerNext(s).value, Manager, k)
  {
    assert LockAt(s, k);
    assert Owns(s, Manager, k) <==> (s.mutex[k].Held? && s.mutex[k].owner == Manager);
  }

  lemma MendingFair(s: State, k: nat)
    requires LockInv(s) && k < |s.mutex| && ManagerNext(s).Some?
    requires var ms := s.manager; ms.Mending?
    ensures OthersStay(s, ManagerNext(s).value, Manager)
    ensures FairTo(s, ManagerNext(s).value, Manager, k)
  {
    assert LockAt(s, k);
    assert Owns(s, Manager, k) <==> (s.mutex[k].Held? && s.mutex[k].owner == Manager);
  }

  lemma FinishFair(s: State, k: nat)
    requires LockInv(s) && k < |s.mutex| && ManagerNext(s).Some?
    requires var ms := s.manager; !ms.Sweep? && !ms.Inspect? && !ms.Release? && !ms.Mending?
    ensures OthersStay(s, ManagerNext(s).value, Manager)
    ensures FairTo(s, ManagerNext(s).value, Manager, k)
  {
    assert LockAt(s, k);
    assert Owns(s, Manager, k) <==> (s.mutex[k].Held? && s.mutex[k].owner == Manager);
  }

  lemma ManagerFair(s: State, k: nat)
    requires LockInv(s) && k < |s.mutex| && ManagerNext(s).Some?
    ensures OthersStay(s, ManagerNext(s).value, Manager)
    ensures FairTo(s, ManagerNext(s).value, Manager, k)
  {
    var ms := s.manager;
    if ms.Mending? {
      MendingFair(s, k);
    } else if ms.Sweep? || ms.Inspect? || ms.Release? {
      SweepFair(s, k);
    } else {
      FinishFair(s, k);
    }
  }

  /** No step of any process breaks the ownership invariant. */
  lemma LocksStep(s: State, p: Proc, c: Choice)
    requires LockInv(s) && Next(s, p, c).Some?
    ensures ValidProc(s, p) && OthersStay(s, Next(s, p, c).value, p)
    ensures LockInv(Next(s, p, c).value)
  {
    var t := Next(s, p, c).value;
    if p.Manager? {
      ManagerFair(s, 0);
      forall k | 0 <= k < |s.mutex|
        ensures FairTo(s, t, p, k)
      {
        ManagerFair(s, k);
      }
    } else {
      WorkerFair(s, p.id, c, 0);
      forall k | 0 <= k < |s.mutex|
        ensures FairTo(s, t, p, k)
      {
        WorkerFair(s, p.id, c, k);
      }
    }
    LocksKept(s, t, p);
  }
}
