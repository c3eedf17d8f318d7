/**
 The shared memory of the shop and the processes' places in their code, updated in place.  Each
 method is the code of one process between two points where another may run, and does to the
 memory exactly what Shop.Next says.
 */
module ShopFloor {
  import opened Counting
  import opened Permutations
  import opened Shop

  class Floor {
    const log: array<int>
    const mutex: array<Mutex>        // mutexArr, then mxDead, then mxSorted
    var sorted: bool
    var dead: int
    const workers: array<WorkerState>
    var manager: ManagerState
    ghost var shelves: seq<int>
    ghost var swaps: nat

    ghost predicate Apart()
    {
      (log as object) != mutex && (log as object) != workers && (mutex as object) != workers
    }

    ghost function View(): State
      reads this, log, mutex, workers
    {
      State(log[..], mutex[..], sorted, dead, workers[..], manager, shelves, swaps)
    }

    ghost predicate Valid()
      reads this, log, mutex, workers
    {
      Apart() && Shape(View())
    }

    /** main: number the shelves, shuffle them, initialise the shared data. */
    constructor (n: nat, m: nat, rolls: seq<nat>)
      requires n >= 2 && |rolls| == n && forall k :: 0 <= k < n ==> rolls[k] <= k
      ensures Valid() && View().N() == n && workers.Length == m
      ensures fresh(log) && fresh(mutex) && fresh(workers)
      ensures Start(View())
      ensures View().log == Shuffled(seq(n, i => i), n - 1, rolls)
    {
      log := new int[n];
      mutex := new Mutex[n + 2](_ => Free);
      sorted, dead := false, 0;
      workers := new WorkerState[m](_ => CheckFlag);
      manager := Sweep(0);
      swaps := 0;
      new;
      Arrange(log, rolls);
      shelves := log[..];
    }

    /** SWAP(log[x], log[y]): the first write and the second are separate turns. */
    method SwapTurn(w: nat)
      requires Valid() && w < workers.Length && (workers[w].WriteX? || workers[w].WriteY?)
      modifies this`shelves, this`swaps, log, workers
      ensures Valid() && Some(View()) == WorkerNext(old(View()), w, SAFE)
    {
      assert WorkerOk(workers[..][w], log.Length);
      var j := workers[w].job;
      if workers[w].WriteX? {
        var kept := log[j.x];
        log[j.x] := log[j.y];
        shelves := Swapped(shelves, j.x, j.y);
        swaps := swaps + 1;
        workers[w] := WriteY(j, kept);
      } else {
        log[j.y] := workers[w].kept;
        workers[w] := DropSecond(j);
      }
    }

    /** pthread_mutex_lock on mutex k by process p. */
    method LockMutex(p: Proc, k: nat) returns (got: bool, result: LockResult)
      requires Valid() && k < mutex.Length
      modifies mutex
      ensures Valid()
      ensures match Acquire(old(View()), p, k)
        case None => !got && View() == old(View())
        case Some((t, r)) => got && result == r && View() == t
    {
      got, result := true, Acquired;
      match mutex[k]
      case Free => mutex[k] := Held(p, false);
      case OwnerDead => mutex[k] := Held(p, true); result := OwnerDied;
      case Unrecoverable => result := NotRecoverable;
      case Held(_, _) => got := false;
    }

    method UnlockMutex(p: Proc, k: nat)
      requires Valid() && k < mutex.Length
      modifies mutex
      ensures Valid() && View() == Drop(old(View()), p, k)
    {
      if mutex[k].Held? && mutex[k].owner == p {
        mutex[k] := if mutex[k].inconsistent then Unrecoverable else Free;
      }
    }

    /** The EOWNERDEAD branch, one statement: dead++ under mxDead, then pthread_mutex_consistent. */
    method RepairTurn(p: Proc, k: nat, stage: Repair) returns (moved: bool, next: Option<Repair>)
      requires Valid() && k < log.Length
      modifies this`dead, mutex
      ensures Valid()
      ensures match RepairNext(old(View()), p, k, stage)
        case None => !moved && View() == old(View())
        case Some((t, n)) => moved && next == n && View() == t
    {
      moved, next := true, None;
      match stage
      case TakeDead =>
        var got, _ := LockMutex(p, log.Length);
        moved, next := got, Some(ReadDead);
      case ReadDead => next := Some(WriteDead(dead));
      case WriteDead(seen) => dead := seen + 1; next := Some(DropDead);
      case DropDead => UnlockMutex(p, log.Length); next := Some(Mend);
      case Mend => mutex[k] := MakeConsistent(mutex[k]);
    }

    /** abort() while holding both shelves: the kernel marks them owner-dead. */
    method TripAndDie(w: nat)
      requires Valid() && w < workers.Length && workers[w].Compare?
      modifies mutex, workers
      ensures Valid() && JobOk(old(workers[w].job), log.Length)
      ensures View() == Die(old(View()), w, old(workers[w].job))
    {
      assert WorkerOk(workers[..][w], log.Length);
      var j := workers[w].job;
      mutex[j.Lo()] := OwnerDead;
      mutex[j.Hi()] := OwnerDead;
      workers[w] := Dead;
    }

    /** A worker between taking its shelves and giving them back. */
    method ShelfTurn(w: nat, c: Choice) returns (moved: bool)
      requires Valid() && w < workers.Length
      requires var ws := workers[w]; ws.TakeShelf? || ws.Repairing? || ws.Compare? || ws.DropSecond? || ws.DropFirst?
      modifies this`dead, mutex, workers
      ensures Valid()
      ensures match WorkerNext(old(View()), w, c)
        case None => !moved && View() == old(View())
        case Some(t) => moved && View() == t
    {
      moved := true;
      assert WorkerOk(workers[..][w], log.Length);
      match workers[w]
      case TakeShelf(j, side) =>
        var got, result := LockMutex(Worker(w), j.On(side));
        moved := got;
        if got {
          workers[w] := if result.OwnerDied? then Repairing(j, side, TakeDead) else AfterShelf(j, side);
        }
      case Repairing(j, side, stage) =>
        var did, next := RepairTurn(Worker(w), j.On(side), stage);
        moved := did;
        if did {
          workers[w] := if next.Some? then Repairing(j, side, next.value) else AfterShelf(j, side);
        }
      case Compare(j) =>
        if (if j.x < j.y then log[j.x] > log[j.y] else log[j.x] < log[j.y]) {
          if c.die {
            TripAndDie(w);
          } else {
            workers[w] := WriteX(j);
          }
        } else {
          workers[w] := DropSecond(j);
        }
      case DropSecond(j) =>
        UnlockMutex(Worker(w), j.Hi());
        workers[w] := DropFirst(j);
      case DropFirst(j) =>
        UnlockMutex(Worker(w), j.Lo());
        workers[w] := CheckFlag;
    }

    /** A worker looking at the sorted flag, and drawing its next two shelves. */
    method FlagTurn(w: nat, c: Choice) returns (moved: bool)
      requires Valid() && w < workers.Length
      requires var ws := workers[w]; ws.CheckFlag? || ws.TakeFlag? || ws.TestFlag? || ws.DropFlag? || ws.Draw?
      modifies mutex, workers
      ensures Valid()
      ensures match WorkerNext(old(View()), w, c)
        case None => !moved && View() == old(View())
        case Some(t) => moved && View() == t
    {
      moved := true;
      match workers[w]
      case CheckFlag => workers[w] := if sorted then Home else TakeFlag;
      case TakeFlag =>
        var got, _ := LockMutex(Worker(w), log.Length + 1);
        moved := got;
        if got {
          workers[w] := TestFlag;
        }
      case TestFlag => workers[w] := DropFlag(sorted);
      case DropFlag(stop) =>
        UnlockMutex(Worker(w), log.Length + 1);
        workers[w] := if stop then Home else Draw;
      case Draw =>
        moved := JobOk(Job(c.x, c.y), log.Length);
        if moved {
          workers[w] := TakeShelf(Job(c.x, c.y), First);
        }
    }

    /** The manager's sweep, inspection and release of the shelves. */
    method SweepTurn() returns (moved: bool)
      requires Valid() && (manager.Sweep? || manager.Mending? || manager.Inspect? || manager.Release?)
      modifies this`dead, this`manager, mutex
      ensures Valid()
      ensures match ManagerNext(old(View()))
        case None => !moved && View() == old(View())
        case Some(t) => moved && View() == t
    {
      moved := true;
      match manager
      case Sweep(i) =>
        if i == log.Length {
          manager := Inspect(0);
        } else {
          var got, result := LockMutex(Manager, i);
          moved := got;
          if got {
            manager := if result.OwnerDied? then Mending(i, TakeDead) else Sweep(i + 1);
          }
        }
      case Mending(i, stage) =>
        var did, next := RepairTurn(Manager, i, stage);
        moved := did;
        if did {
          manager := if next.Some? then Mending(i, next.value) else Sweep(i + 1);
        }
      case Inspect(i) =>
        manager := if i == log.Length then Release(0, true) else if log[i] != i then Release(0, false) else Inspect(i + 1);
      case Release(i, ok) =>
        if i == log.Length {
          manager := TakeCount(ok);
        } else {
          UnlockMutex(Manager, i);
          manager := Release(i + 1, ok);
        }
    }

    /** The manager after a sweep: count the dead, then raise the flag or go round again. */
    method CountTurn() returns (moved: bool)
      requires Valid() && !manager.Sweep? && !manager.Mending? && !manager.Inspect? && !manager.Release?
      modifies this`sorted, this`manager, mutex
      ensures Valid()
      ensures match ManagerNext(old(View()))
        case None => !moved && View() == old(View())
        case Some(t) => moved && View() == t
    {
      moved := true;
      match manager
      case TakeCount(ok) =>
        var got, _ := LockMutex(Manager, log.Length);
        moved := got;
        if got {
          manager := TestCount(ok);
        }
      case TestCount(ok) => manager := DropCount(ok, dead / 2 == workers.Length);
      case DropCount(ok, stop) =>
        UnlockMutex(Manager, log.Length);
        manager := if stop then Done(true) else if ok then TakeSorted else Sweep(0);
      case TakeSorted =>
        var got, _ := LockMutex(Manager, log.Length + 1);
        moved := got;
        if got {
          manager := SetSorted;
        }
      case SetSorted =>
        sorted := true;
        manager := DropSorted;
      case DropSorted =>
        UnlockMutex(Manager, log.Length + 1);
        manager := Done(false);
      case Done(_) => moved := false;
    }

    /** One turn of any process: in place, exactly the step of the protocol. */
    method TakeTurn(p: Proc, c: Choice) returns (moved: bool)
      requires Valid()
      modifies this, log, mutex, workers
      ensures Valid()
      ensures match Next(old(View()), p, c)
        case None => !moved && View() == old(View())
        case Some(t) => moved && View() == t
    {
      match p
      case Manager =>
        if manager.Sweep? || manager.Mending? || manager.Inspect? || manager.Release? {
          moved := SweepTurn();
        } else {
          moved := CountTurn();
        }
      case Worker(w) =>
        if w >= workers.Length || workers[w].Home? || workers[w].Dead? {
          moved := false;
        } else if workers[w].WriteX? || workers[w].WriteY? {
          SwapTurn(w);
          moved := true;
        } else if workers[w].CheckFlag? || workers[w].TakeFlag? || workers[w].TestFlag? || workers[w].DropFlag? || workers[w].Draw? {
          moved := FlagTurn(w, c);
        } else {
          moved := ShelfTurn(w, c);
        }
    }

    /** A whole night under any schedule. */
    method Night(turns: seq<Turn>)
      requires Valid()
      modifies this, log, mutex, workers
      ensures Valid() && View() == Run(old(View()), turns)
    {
      ghost var was := View();
      for i := 0 to |turns|
        invariant Valid() && View() == Run(was, turns[..i])
      {
        assert turns[..i + 1][..i] == turns[..i];
        var _ := TakeTurn(turns[i].p, turns[i].c);
      }
      assert turns[..|turns|] == turns;
    }
  }

  /** for (i = 0; i < N; i++) shelf[i] = i; */
  method Number(a: array<int>)
    modifies a
    ensures a[..] == seq(a.Length, i => i)
  {
    for i := 0 to a.Length
      invariant forall k :: 0 <= k < i ==> a[k] == k
    {
      a[i] := i;
    }
  }

  /** Numbered, then shuffled. */
  method Arrange(a: array<int>, rolls: seq<nat>)
    requires a.Length > 0 && |rolls| == a.Length && forall k :: 0 <= k < a.Length ==> rolls[k] <= k
    modifies a
    ensures a[..] == Shuffled(seq(a.Length, i => i), a.Length - 1, rolls) && Permutation(a[..])
  {
    Number(a);
    ghost var numbered := a[..];
    Shuffle(a, rolls);
    SameElementsPermute(numbered, a[..]);
  }
}
