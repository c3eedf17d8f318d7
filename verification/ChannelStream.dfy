/** What goes through the channel: nothing is duplicated, reordered or altered, and exactly which block may be lost. */
module ChannelStream {
  import opened Counting
  import opened Channel

  // ---- the invariant ----

  predicate Holds(pc: Pc)
  {
    pc.Inside? || pc.CopyIn? || pc.SetLength? || pc.SetOccupied? || pc.CopyOut? || pc.SetEmpty?
    || pc.WakeConsumers? || pc.WakeProducer? || pc.Unlock?
  }

  /** What is true of the channel while a process stands at pc. */
  predicate StageOk(pc: Pc, status: Status, data: seq<char>, length: nat)
  {
    match pc
    case CopyIn(b) => !status.Occupied? && |b| <= CHANNEL_SIZE
    case SetLength(b) => !status.Occupied? && |b| <= |data| && data[..|b|] == b
    case SetOccupied(b) => !status.Occupied? && length == |b| <= |data| && data[..|b|] == b
    case CopyOut => status.Occupied?
    case SetEmpty(buf) => status.Occupied? && length <= |data| && buf == data[..length]
    case WakeConsumers(all) => status == if all then Depleted else Occupied
    case WakeProducer => status.Empty?
    case Waiting(op) => CallOk(op) && !op.Deplete?
    case Woken(op) => CallOk(op) && !op.Deplete?
    case Lock(op) => CallOk(op)
    case Inside(op) => CallOk(op)
    case _ => true
  }

  ghost predicate ProcOk(s: State, i: nat)
    requires i < |s.procs|
  {
    (Holds(s.procs[i]) <==> s.mtx == Some(i)) && StageOk(s.procs[i], s.status, s.data, s.length)
  }

  function Blocks(log: seq<Sent>): (r: seq<Block>)
    ensures |r| == |log|
  {
    seq(|log|, i requires 0 <= i < |log| => log[i].block)
  }

  /** The blocks that were not lost. */
  function Kept(log: seq<Sent>): seq<Block>
  {
    if log == [] then []
    else Kept(log[..|log| - 1]) + (if log[|log| - 1].lost then [] else [log[|log| - 1].block])
  }

  function Losses(log: seq<Sent>): nat
  {
    if log == [] then 0 else Losses(log[..|log| - 1]) + (if log[|log| - 1].lost then 1 else 0)
  }

  function Slot(s: State): seq<Block>
  {
    if s.status.Occupied? && s.length <= |s.data| then [s.data[..s.length]] else []
  }

  ghost predicate StreamOk(s: State)
  {
    && |s.data| == CHANNEL_SIZE && s.length <= CHANNEL_SIZE
    && Kept(s.log) == s.taken + Slot(s)
    && (s.status.Occupied? ==> s.log != [] && !s.log[|s.log| - 1].lost)
    && Losses(s.log) <= s.depletions
    && (s.status.Depleted? ==> s.depletions > 0)
    && (s.status.Depleted? && s.depletions == 1 && s.log != [] ==> Losses(s.log[..|s.log| - 1]) == 0)
  }

  ghost predicate Inv(s: State)
  {
    && (forall i :: 0 <= i < |s.procs| ==> ProcOk(s, i))
    && (s.mtx.Some? ==> s.mtx.value < |s.procs|)
    && StreamOk(s)
  }

  // ---- preservation ----

  lemma KeptAppend(log: seq<Sent>, e: Sent)
    ensures Kept(log + [e]) == Kept(log) + (if e.lost then [] else [e.block])
    ensures Losses(log + [e]) == Losses(log) + (if e.lost then 1 else 0)
  {
    assert (log + [e])[..|log|] == log;
  }

  /** Declaring the channel depleted over a block takes exactly that block out of what is kept. */
  lemma DropLast(log: seq<Sent>)
    requires log != [] && !log[|log| - 1].lost
    ensures Kept(log) == Kept(Dropped(log)) + [log[|log| - 1].block]
    ensures Losses(Dropped(log)) == Losses(log) + 1
    ensures Dropped(log)[..|log| - 1] == log[..|log| - 1]
  {
    var front := log[..|log| - 1];
    var e := Sent(log[|log| - 1].block, true);
    assert Dropped(log) == front + [e];
    KeptAppend(front, e);
    assert (front + [e])[..|log| - 1] == front;
    assert Kept(front) + [] == Kept(front);
  }

  lemma ProducedOk(s: State, i: nat)
    requires Inv(s) && i < |s.procs| && s.procs[i].SetOccupied? && Body(s, i).Some?
    ensures StreamOk(Body(s, i).value)
  {
    assert ProcOk(s, i);
    KeptAppend(s.log, Sent(s.procs[i].block, false));
  }

  lemma ConsumedOk(s: State, i: nat)
    requires Inv(s) && i < |s.procs| && s.procs[i].SetEmpty? && Body(s, i).Some?
    ensures StreamOk(Body(s, i).value)
  {
    assert ProcOk(s, i);
  }

  lemma DepletedOk(s: State, i: nat)
    requires Inv(s) && i < |s.procs| && s.procs[i] == Inside(Deplete)
    ensures Body(s, i).Some? && StreamOk(Body(s, i).value)
  {
    var t := Body(s, i).value;
    if s.status.Occupied? {
      DropLast(s.log);
      assert s.log[|s.log| - 1].block == s.data[..s.length] by {
        assert Kept(s.log)[|Kept(s.log)| - 1] == s.data[..s.length];
      }
      assert Kept(t.log) == Kept(s.log)[..|Kept(s.log)| - 1] == s.taken;
    }
  }

  /** Nothing changes that a reader of a full channel or of the histories could see. */
  predicate Quiet(s: State, t: State)
  {
    && t.log == s.log && t.taken == s.taken && t.depletions == s.depletions && t.status == s.status
    && |t.data| == |s.data| && t.length <= CHANNEL_SIZE
    && (s.status.Occupied? ==> t.data == s.data && t.length == s.length)
  }

  lemma StepIsQuiet(s: State, i: nat, c: Choice)
    requires i < |s.procs| && ProcOk(s, i) && |s.data| == CHANNEL_SIZE && s.length <= CHANNEL_SIZE && Next(s, i, c).Some?
    requires !s.procs[i].SetOccupied? && !s.procs[i].SetEmpty? && s.procs[i] != Inside(Deplete)
    ensures Quiet(s, Next(s, i, c).value)
  {
  }

  lemma QuietOk(s: State, t: State)
    requires StreamOk(s) && Quiet(s, t)
    ensures StreamOk(t)
  {
  }

  lemma StreamStep(s: State, i: nat, c: Choice)
    requires Inv(s) && Next(s, i, c).Some?
    ensures StreamOk(Next(s, i, c).value)
  {
    assert ProcOk(s, i);
    if s.procs[i].SetOccupied? {
      ProducedOk(s, i);
    } else if s.procs[i].SetEmpty? {
      ConsumedOk(s, i);
    } else if s.procs[i] == Inside(Deplete) {
      DepletedOk(s, i);
    } else {
      StepIsQuiet(s, i, c);
      QuietOk(s, Next(s, i, c).value);
    }
  }

  /** A step of i leaves everyone else's program counter alone, except for waking sleepers. */
  ghost predicate Bystander(pc: Pc, pc': Pc)
  {
    pc' == pc || (pc.Waiting? && pc' == Woken(pc.op))
  }

  ghost predicate Exclusive(s: State, i: nat, t: State)
  {
    && |t.procs| == |s.procs| && i < |s.procs|
    && (forall j :: 0 <= j < |s.procs| && j != i ==> Bystander(s.procs[j], t.procs[j]))
    && (t.mtx == s.mtx || (s.mtx.None? && t.mtx == Some(i)) || (s.mtx == Some(i) && t.mtx.None?))
    && (s.mtx != Some(i) ==> t.status == s.status && t.data == s.data && t.length == s.length)
  }

  lemma StepIsExclusive(s: State, i: nat, c: Choice)
    requires i < |s.procs| && ProcOk(s, i) && Next(s, i, c).Some?
    ensures Exclusive(s, i, Next(s, i, c).value)
  {
  }

  lemma OwnOk(s: State, i: nat, c: Choice)
    requires i < |s.procs| && ProcOk(s, i) && |s.data| == CHANNEL_SIZE && Next(s, i, c).Some?
    ensures i < |Next(s, i, c).value.procs| && ProcOk(Next(s, i, c).value, i)
  {
  }

  lemma OtherOk(s: State, i: nat, t: State, j: nat)
    requires Exclusive(s, i, t) && j < |s.procs| && j != i && ProcOk(s, j) && ProcOk(s, i)
    ensures ProcOk(t, j)
  {
  }

  lemma Step(s: State, i: nat, c: Choice)
    requires Inv(s) && Next(s, i, c).Some?
    ensures Inv(Next(s, i, c).value)
  {
    var t := Next(s, i, c).value;
    StreamStep(s, i, c);
    assert ProcOk(s, i);
    StepIsExclusive(s, i, c);
    forall j | 0 <= j < |t.procs|
      ensures ProcOk(t, j)
    {
      assert ProcOk(s, j);
      if j == i {
        OwnOk(s, i, c);
      } else {
        OtherOk(s, i, t, j);
      }
    }
  }

  lemma {:induction false} RunInv(s: State, turns: seq<Turn>)
    requires Init(s)
    ensures Inv(Run(s, turns)) && |Run(s, turns).procs| == |s.procs|
  {
    if turns != [] {
      RunInv(s, turns[..|turns| - 1]);
      var u := Run(s, turns[..|turns| - 1]);
      var last := turns[|turns| - 1];
      if Next(u, last.i, last.c).Some? {
        Step(u, last.i, last.c);
        StepIsExclusive(u, last.i, last.c);
      }
    }
  }

  // ---- what follows ----

  lemma {:induction false} NothingLost(log: seq<Sent>)
    ensures Losses(log) == 0 <==> Kept(log) == Blocks(log)
    ensures |Kept(log)| + Losses(log) == |log|
  {
    if log != [] {
      var front := log[..|log| - 1];
      NothingLost(front);
      assert Blocks(log) == Blocks(front) + [log[|log| - 1].block];
      if Losses(log) > 0 {
        assert |Kept(log)| != |Blocks(log)|;
      }
    }
  }

  /** The blocks taken, with the one in the slot, are the blocks put in, in order, exactly when no depletion hit a full slot. */
  lemma StreamCorrect(s: State, turns: seq<Turn>)
    requires Init(s)
    ensures var t := Run(s, turns); t.taken + Slot(t) == Blocks(t.log) <==> Losses(t.log) == 0
    ensures var t := Run(s, turns); |t.taken| + |Slot(t)| + Losses(t.log) == |t.log| && Losses(t.log) <= t.depletions
  {
    RunInv(s, turns);
    NothingLost(Run(s, turns).log);
  }

  /** A step loses a block exactly when it declares the channel depleted while the slot is full. */
  lemma LossExactly(s: State, turns: seq<Turn>, i: nat, c: Choice)
    requires Init(s) && Next(Run(s, turns), i, c).Some?
    ensures var t := Run(s, turns);
      Losses(Next(t, i, c).value.log) == Losses(t.log) + (if t.procs[i] == Inside(Deplete) && t.status.Occupied? then 1 else 0)
  {
    RunInv(s, turns);
    var t := Run(s, turns);
    assert ProcOk(t, i);
    if t.procs[i].SetOccupied? {
      KeptAppend(t.log, Sent(t.procs[i].block, false));
    } else if t.procs[i] == Inside(Deplete) {
      if t.status.Occupied? {
        DropLast(t.log);
      }
    } else if !t.procs[i].SetEmpty? {
      StepIsQuiet(t, i, c);
    }
  }

  /** While the channel has not been declared depleted, nothing is lost. */
  lemma BeforeDepletion(s: State, turns: seq<Turn>)
    requires Init(s) && Run(s, turns).depletions == 0
    ensures var t := Run(s, turns); t.taken + Slot(t) == Blocks(t.log)
  {
    StreamCorrect(s, turns);
  }

  /**
   In every reachable state the blocks taken, with the one in the slot, are the blocks put that were not lost, in
   order.  On a channel declared depleted once and not reopened by a producer, that is all of them or all but the last.
   */
  lemma AfterDepletion(s: State, turns: seq<Turn>)
    requires Init(s)
    ensures var t := Run(s, turns); t.taken + Slot(t) == Kept(t.log)
    ensures var t := Run(s, turns); t.status.Depleted? && t.depletions == 1 ==> t.taken <= Blocks(t.log) && |t.log| - 1 <= |t.taken|
  {
    RunInv(s, turns);
    var t := Run(s, turns);
    if t.status.Depleted? && t.depletions == 1 {
      AllButTheLast(t.log);
    }
  }

  /** A loss at most at the end leaves all blocks or all but the last. */
  lemma AllButTheLast(log: seq<Sent>)
    requires log != [] ==> Losses(log[..|log| - 1]) == 0
    ensures Kept(log) <= Blocks(log) && |log| - 1 <= |Kept(log)|
  {
    if log != [] {
      var front := log[..|log| - 1];
      NothingLost(front);
      assert Blocks(log) == Blocks(front) + [log[|log| - 1].block];
    }
  }
}
