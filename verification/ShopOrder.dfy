/** What a worker does to its pair: whichever index was drawn first, it leaves the two shelves in order, or dies. */
module ShopOrder {
  import opened Counting
  import opened Permutations
  import opened Shop
  import opened ShopLocks
  import opened ShopShelves

  /** A worker past the first write of its swap, or past its comparison. */
  predicate Settled(ws: WorkerState) { ws.WriteY? || ws.DropSecond? }

  /** The completed shelves of the pair of a worker that has settled it are in order. */
  ghost predicate PairOk(s: State, w: nat)
    requires Shape(s) && w < |s.workers|
  {
    var ws := s.workers[w];
    Settled(ws) ==> (assert WorkerOk(ws, s.N()); s.shelves[ws.job.Lo()] <= s.shelves[ws.job.Hi()])
  }

  ghost predicate PairsOk(s: State)
    requires Shape(s)
  {
    forall w :: 0 <= w < |s.workers| ==> PairOk(s, w)
  }

  /** Comparing: a pair out of order is gone for, one in order is left. */
  lemma CompareSettles(s: State, w: nat, c: Choice)
    requires LockInv(s) && ShelfInv(s) && w < |s.workers| && s.workers[w].Compare? && WorkerNext(s, w, c).Some?
    ensures Shape(WorkerNext(s, w, c).value) && |WorkerNext(s, w, c).value.workers| == |s.workers|
    ensures PairOk(WorkerNext(s, w, c).value, w)
  {
    WorkerEffect(s, w, c);
    assert WorkerOk(s.workers[w], s.N());
    HeldIsWhole(s, Worker(w), s.workers[w].job.x);
    HeldIsWhole(s, Worker(w), s.workers[w].job.y);
  }

  lemma OwnPair(s: State, w: nat, c: Choice)
    requires LockInv(s) && ShelfInv(s) && PairsOk(s) && w < |s.workers| && WorkerNext(s, w, c).Some?
    ensures Shape(WorkerNext(s, w, c).value) && |WorkerNext(s, w, c).value.workers| == |s.workers|
    ensures PairOk(WorkerNext(s, w, c).value, w)
  {
    WorkerEffect(s, w, c);
    assert WorkerOk(s.workers[w], s.N()) && PairOk(s, w);
    if s.workers[w].Compare? {
      CompareSettles(s, w, c);
    } else if s.workers[w].WriteX? {
      WriteXSwaps(s, w, c);
    }
  }

  lemma OtherPair(s: State, w: nat, c: Choice, v: nat)
    requires LockInv(s) && ShelfInv(s) && PairsOk(s) && w < |s.workers| && WorkerNext(s, w, c).Some? && v < |s.workers| && v != w
    ensures Shape(WorkerNext(s, w, c).value) && |WorkerNext(s, w, c).value.workers| == |s.workers|
    ensures PairOk(WorkerNext(s, w, c).value, v)
  {
    WorkerEffect(s, w, c);
    assert WorkerOk(s.workers[w], s.N()) && WorkerOk(s.workers[v], s.N()) && PairOk(s, v);
    if s.workers[w].WriteX? && Settled(s.workers[v]) {
      WriteXSwaps(s, w, c);
      Disjoint(s, w, v, s.workers[w].job.Lo());
      Disjoint(s, w, v, s.workers[w].job.Hi());
    }
  }

  lemma PairsStep(s: State, p: Proc, c: Choice)
    requires LockInv(s) && ShelfInv(s) && PairsOk(s) && Next(s, p, c).Some?
    ensures PairsOk(Next(s, p, c).value)
  {
    var t := Next(s, p, c).value;
    forall v | 0 <= v < |t.workers|
      ensures PairOk(t, v)
    {
      if p == Worker(v) {
        OwnPair(s, v, c);
      } else if p.Worker? {
        OtherPair(s, p.id, c, v);
      } else {
        assert t.shelves == s.shelves && t.workers == s.workers && PairOk(s, v);
      }
    }
  }

  lemma {:induction false} RunPairs(s: State, turns: seq<Turn>)
    requires Start(s)
    ensures PairsOk(Run(s, turns))
  {
    if turns != [] {
      var u := Run(s, turns[..|turns| - 1]);
      var last := turns[|turns| - 1];
      RunPairs(s, turns[..|turns| - 1]);
      RunShelves(s, turns[..|turns| - 1]);
      if Next(u, last.p, last.c).Some? {
        PairsStep(u, last.p, last.c);
      }
    }
  }

  /** In every run a worker about to unlock its pair leaves the lower shelf no greater than the higher one. */
  lemma LeavesPairInOrder(s: State, turns: seq<Turn>, w: nat)
    requires Start(s) && w < |s.workers| && Run(s, turns).workers[w].DropSecond?
    ensures var t := Run(s, turns); var j := t.workers[w].job;
      j.Lo() < j.Hi() < t.N() && t.log[j.Lo()] <= t.log[j.Hi()]
  {
    RunShelves(s, turns);
    RunPairs(s, turns);
    var t := Run(s, turns);
    var j := t.workers[w].job;
    assert WorkerOk(t.workers[w], t.N()) && PairOk(t, w);
    HeldIsWhole(t, Worker(w), j.Lo());
    HeldIsWhole(t, Worker(w), j.Hi());
  }

  /** A worker that compares its pair dies in that turn exactly if the pair is out of order and the pallet is fatal. */
  lemma DiesExactly(s: State, w: nat, c: Choice)
    requires Shape(s) && w < |s.workers| && s.workers[w].Compare?
    ensures JobOk(s.workers[w].job, s.N()) && WorkerNext(s, w, c).Some? && w < |WorkerNext(s, w, c).value.workers|
    ensures var j := s.workers[w].job;
      WorkerNext(s, w, c).value.workers[w].Dead? <==> c.die && s.log[j.Lo()] > s.log[j.Hi()]
  {
    assert WorkerOk(s.workers[w], s.N());
  }

  /** Worker w's next three turns. */
  function ThreeTurns(w: nat, c: Choice): seq<Turn> { [Turn(Worker(w), c), Turn(Worker(w), c), Turn(Worker(w), c)] }

  lemma RunThree(s: State, a: State, b: State, d: State, p: Proc, c: Choice)
    requires Shape(s) && Next(s, p, c) == Some(a) && Next(a, p, c) == Some(b) && Next(b, p, c) == Some(d)
    ensures Run(s, [Turn(p, c), Turn(p, c), Turn(p, c)]) == d
  {
    var one, two, three := [Turn(p, c)], [Turn(p, c), Turn(p, c)], [Turn(p, c), Turn(p, c), Turn(p, c)];
    assert one[..0] == [] && two[..1] == one && three[..2] == two;
    assert Run(s, one) == a;
    assert Run(s, two) == b;
  }

  lemma GoesForIt(s: State, w: nat, c: Choice)
    requires Shape(s) && w < |s.workers| && s.workers[w].Compare? && !c.die
    requires JobOk(s.workers[w].job, s.N()) && var j := s.workers[w].job; s.log[j.Lo()] > s.log[j.Hi()]
    ensures WorkerNext(s, w, c) == Some(s.At(w, WriteX(s.workers[w].job)))
  {
  }

  /** The state after both writes. */
  function Exchanged(s: State, w: nat, j: Job): State
    requires Shape(s) && w < |s.workers| && JobOk(j, s.N())
  {
    s.(log := s.log[j.x := s.log[j.y]][j.y := s.log[j.x]], shelves := Swapped(s.shelves, j.x, j.y), swaps := s.swaps + 1)
     .At(w, DropSecond(j))
  }

  lemma WritesBoth(s: State, w: nat, j: Job, c: Choice) returns (a: State)
    requires Shape(s) && w < |s.workers| && JobOk(j, s.N()) && Shape(s.At(w, WriteX(j)))
    ensures WorkerNext(s.At(w, WriteX(j)), w, c) == Some(a) && Shape(a) && |a.workers| == |s.workers|
    ensures WorkerNext(a, w, c) == Some(Exchanged(s, w, j))
  {
    var half := s.(log := s.log[j.x := s.log[j.y]], shelves := Swapped(s.shelves, j.x, j.y), swaps := s.swaps + 1);
    a := half.At(w, WriteY(j, s.log[j.x]));
    assert s.At(w, WriteX(j)).workers[w := WriteY(j, s.log[j.x])] == a.workers;
    assert a.workers[w := DropSecond(j)] == s.workers[w := DropSecond(j)];
  }

  /** A pair out of order that is not fatal is exchanged by the worker's next three turns, in whichever order it was drawn. */
  lemma ExchangesPair(s: State, w: nat, c: Choice)
    requires Shape(s) && w < |s.workers| && s.workers[w].Compare? && !c.die
    requires JobOk(s.workers[w].job, s.N()) && var j := s.workers[w].job; s.log[j.Lo()] > s.log[j.Hi()]
    ensures var j := s.workers[w].job; var t := Run(s, ThreeTurns(w, c));
      t.workers[w] == DropSecond(j) && t.log == s.log[j.Lo() := s.log[j.Hi()]][j.Hi() := s.log[j.Lo()]]
  {
    var j := s.workers[w].job;
    GoesForIt(s, w, c);
    WorkerShape(s, w, c);
    var a := WritesBoth(s, w, j, c);
    RunThree(s, s.At(w, WriteX(j)), a, Exchanged(s, w, j), Worker(w), c);
    assert s.log[j.x := s.log[j.y]][j.y := s.log[j.x]] == s.log[j.y := s.log[j.x]][j.x := s.log[j.y]];
  }
}
