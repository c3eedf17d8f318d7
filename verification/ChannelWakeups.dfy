/** No wakeup is lost: processes sleep in the channel only while there is nothing for them to do. */
module ChannelWakeups {
  import opened Counting
  import opened Channel
  import opened ChannelStream

  /** A consumer that has been woken or is at its test with the mutex, or a process about to signal consumers. */
  predicate ServesConsumers(pc: Pc)
  {
    pc == Woken(Consume) || pc == Inside(Consume) || pc.CopyOut? || pc.SetEmpty? || pc.WakeConsumers?
  }

  /** A producer woken or inside, or a consumer about to signal producers. */
  predicate ServesProducers(pc: Pc)
  {
    || (pc.Woken? && pc.op.Produce?) || (pc.Inside? && pc.op.Produce?)
    || pc.CopyIn? || pc.SetLength? || pc.SetOccupied? || pc.WakeProducer?
  }

  predicate Serves(pc: Pc, k: bool) { if k then ServesConsumers(pc) else ServesProducers(pc) }

  ghost predicate SomeServer(procs: seq<Pc>, k: bool)
  {
    exists i :: 0 <= i < |procs| && Serves(procs[i], k)
  }

  /** The channel is in a state a sleeper of kind k is waiting for. */
  predicate Ready(status: Status, k: bool) { if k then !status.Empty? else status.Empty? }

  /** If somebody sleeps although the channel is ready for it, somebody awake will see to it. */
  ghost predicate Attended(s: State, k: bool)
  {
    Ready(s.status, k) && SomeSleeper(s.procs, k) ==> SomeServer(s.procs, k)
  }

  /** On a depleted channel consumers sleep only until the broadcast that is under way. */
  ghost predicate BroadcastDue(s: State)
  {
    s.status.Depleted? && SomeSleeper(s.procs, true) ==> s.mtx.Some? && s.mtx.value < |s.procs| && s.procs[s.mtx.value] == WakeConsumers(true)
  }

  // ---- preservation ----

  /** After a signal either no sleeper of that kind is left or one of them has been woken. */
  lemma SignalServes(procs: seq<Pc>, k: bool, all: bool, wake: set<nat>, i: nat)
    requires i < |procs| && MayWake(procs, k, all, wake) && !Sleeps(procs[i], k)
    requires forall j :: 0 <= j < |procs| && procs[j].Waiting? ==> !procs[j].op.Deplete?
    ensures var after := Roused(procs, k, wake)[i := Unlock];
      SomeSleeper(after, k) ==> !all && SomeServer(after, k)
  {
    var after := Roused(procs, k, wake)[i := Unlock];
    if SomeSleeper(after, k) {
      var j :| 0 <= j < |after| && Sleeps(after[j], k);
      assert Sleeps(procs[j], k) && j !in wake;
      var w :| 0 <= w < |procs| && Sleeps(procs[w], k) && w in wake;
      assert Serves(after[w], k);
    }
  }

  /** A signal to the other side leaves sleepers and servers of this side as they were, the signaller aside. */
  lemma SignalOther(procs: seq<Pc>, k: bool, wake: set<nat>, i: nat)
    requires i < |procs| && !Serves(procs[i], k)
    ensures var after := Roused(procs, !k, wake)[i := Unlock];
      (SomeSleeper(after, k) ==> SomeSleeper(procs, k)) && (SomeServer(procs, k) ==> SomeServer(after, k))
  {
    var after := Roused(procs, !k, wake)[i := Unlock];
    if SomeServer(procs, k) {
      var j :| 0 <= j < |procs| && Serves(procs[j], k);
      assert Serves(after[j], k);
    }
    if SomeSleeper(after, k) {
      var j :| 0 <= j < |after| && Sleeps(after[j], k);
      assert Sleeps(procs[j], k);
    }
  }

  /** A step that changes only its own program counter, and how that bears on side k. */
  lemma OwnCounter(procs: seq<Pc>, i: nat, pc: Pc, k: bool)
    requires i < |procs|
    ensures SomeSleeper(procs[i := pc], k) && !Sleeps(pc, k) ==> SomeSleeper(procs, k)
    ensures SomeServer(procs, k) && (Serves(procs[i], k) ==> Serves(pc, k)) ==> SomeServer(procs[i := pc], k)
    ensures Serves(pc, k) ==> SomeServer(procs[i := pc], k)
  {
    var after := procs[i := pc];
    if SomeSleeper(after, k) && !Sleeps(pc, k) {
      var j :| 0 <= j < |after| && Sleeps(after[j], k);
      assert Sleeps(procs[j], k);
    }
    if SomeServer(procs, k) && (Serves(procs[i], k) ==> Serves(pc, k)) {
      var j :| 0 <= j < |procs| && Serves(procs[j], k);
      assert Serves(after[j], k);
    }
    if Serves(pc, k) {
      assert Serves(after[i], k);
    }
  }

  /** What a step other than a signal does: its own counter moves, and any change of status hands over properly. */
  ghost predicate Local(s: State, i: nat, t: State, k: bool)
  {
    && i < |s.procs| && |t.procs| == |s.procs| && t.procs == s.procs[i := t.procs[i]]
    && (Ready(t.status, k) ==>
         && !Sleeps(t.procs[i], k)
         && (Serves(t.procs[i], k) || (Ready(s.status, k) && !Serves(s.procs[i], k))))
  }

  lemma LocalAttended(s: State, i: nat, t: State, k: bool)
    requires Attended(s, k) && Local(s, i, t, k)
    ensures Attended(t, k)
  {
    OwnCounter(s.procs, i, t.procs[i], k);
  }

  predicate Signals(pc: Pc) { pc.WakeConsumers? || pc.WakeProducer? }

  lemma StepIsLocal(s: State, i: nat, c: Choice, k: bool)
    requires Inv(s) && Next(s, i, c).Some? && !Signals(s.procs[i])
    requires s.procs[i] == Inside(Consume) ==> !s.status.Depleted?
    ensures Local(s, i, Next(s, i, c).value, k)
  {
    assert ProcOk(s, i);
  }

  /** A consumer that finds the channel depleted leaves; nobody sleeps there then. */
  lemma LeavesDepleted(s: State, i: nat, k: bool)
    requires Inv(s) && BroadcastDue(s) && i < |s.procs| && s.procs[i] == Inside(Consume) && s.status.Depleted?
    ensures Attended(s.At(i, Unlock), k)
  {
    assert ProcOk(s, i);
    OwnCounter(s.procs, i, Unlock, k);
  }

  lemma SignalAttended(s: State, i: nat, c: Choice, k: bool)
    requires Inv(s) && Attended(s, k) && Next(s, i, c).Some? && Signals(s.procs[i])
    ensures Attended(Next(s, i, c).value, k)
  {
    assert ProcOk(s, i);
    var to := s.procs[i].WakeConsumers?;
    var all := to && s.procs[i].all;
    forall j | 0 <= j < |s.procs| && s.procs[j].Waiting?
      ensures !s.procs[j].op.Deplete?
    {
      assert ProcOk(s, j);
    }
    if k == to {
      SignalServes(s.procs, k, all, c.wake, i);
    } else {
      SignalOther(s.procs, k, c.wake, i);
    }
  }

  lemma AttendedStep(s: State, i: nat, c: Choice, k: bool)
    requires Inv(s) && Attended(s, k) && BroadcastDue(s) && Next(s, i, c).Some?
    ensures Attended(Next(s, i, c).value, k)
  {
    if Signals(s.procs[i]) {
      SignalAttended(s, i, c, k);
    } else if s.procs[i] == Inside(Consume) && s.status.Depleted? {
      LeavesDepleted(s, i, k);
    } else {
      StepIsLocal(s, i, c, k);
      LocalAttended(s, i, Next(s, i, c).value, k);
    }
  }

  /** No step but the depletion itself can make a sleeper on a depleted channel. */
  lemma SleepersStay(s: State, i: nat, c: Choice)
    requires Inv(s) && Next(s, i, c).Some? && !Signals(s.procs[i])
    requires Next(s, i, c).value.status.Depleted? && s.procs[i] != Inside(Deplete)
    ensures s.status.Depleted?
    ensures SomeSleeper(Next(s, i, c).value.procs, true) ==> SomeSleeper(s.procs, true)
    ensures s.mtx.Some? ==> i == s.mtx.value || Next(s, i, c).value.mtx == s.mtx
  {
    assert ProcOk(s, i);
    var t := Next(s, i, c).value;
    OwnCounter(s.procs, i, t.procs[i], true);
  }

  lemma BroadcastStep(s: State, i: nat, c: Choice)
    requires Inv(s) && BroadcastDue(s) && Next(s, i, c).Some?
    ensures BroadcastDue(Next(s, i, c).value)
  {
    var t := Next(s, i, c).value;
    assert ProcOk(s, i);
    if t.status.Depleted? {
      if s.procs[i].WakeConsumers? {
        forall j | 0 <= j < |s.procs| && s.procs[j].Waiting?
          ensures !s.procs[j].op.Deplete?
        {
          assert ProcOk(s, j);
        }
        SignalServes(s.procs, true, true, c.wake, i);
      } else if !Signals(s.procs[i]) && s.procs[i] != Inside(Deplete) {
        SleepersStay(s, i, c);
      }
    }
  }

  lemma {:induction false} RunAttended(s: State, turns: seq<Turn>)
    requires Init(s)
    ensures Inv(Run(s, turns)) && BroadcastDue(Run(s, turns)) && Attended(Run(s, turns), true) && Attended(Run(s, turns), false)
  {
    RunInv(s, turns);
    if turns != [] {
      RunInv(s, turns[..|turns| - 1]);
      RunAttended(s, turns[..|turns| - 1]);
      var u := Run(s, turns[..|turns| - 1]);
      var last := turns[|turns| - 1];
      if Next(u, last.i, last.c).Some? {
        BroadcastStep(u, last.i, last.c);
        AttendedStep(u, last.i, last.c, true);
        AttendedStep(u, last.i, last.c, false);
      }
    }
  }

  // ---- what follows ----

  /** While the channel is ready for side k, a sleeper of that side implies a process awake inside that will serve it. */
  lemma NoLostWakeup(s: State, turns: seq<Turn>, k: bool)
    requires Init(s)
    ensures var t := Run(s, turns); Ready(t.status, k) && SomeSleeper(t.procs, k) ==> SomeServer(t.procs, k)
    ensures var t := Run(s, turns); t.status.Depleted? && t.mtx.None? ==> !SomeSleeper(t.procs, true)
  {
    RunAttended(s, turns);
  }

  /** Nothing moves any more without a new call or a spurious wakeup. */
  ghost predicate Stuck(s: State)
  {
    forall i :: 0 <= i < |s.procs| ==> s.procs[i].Idle? || s.procs[i].Waiting?
  }

  /** If some process is neither idle nor asleep, such a process can move. */
  lemma SomeoneMoves(s: State, turns: seq<Turn>) returns (i: nat, c: Choice)
    requires Init(s) && !Stuck(Run(s, turns))
    ensures var t := Run(s, turns); i < |t.procs| && !t.procs[i].Idle? && !t.procs[i].Waiting? && Next(t, i, c).Some?
  {
    RunInv(s, turns);
    var t := Run(s, turns);
    if t.mtx.Some? {
      i := t.mtx.value;
    } else {
      i :| 0 <= i < |t.procs| && !t.procs[i].Idle? && !t.procs[i].Waiting?;
    }
    assert ProcOk(t, i);
    c := Choice(Consume, Everyone(|t.procs|), false);
    if t.mtx.Some? {
      HolderMoves(t, i, c);
    }
  }

  lemma HolderMoves(s: State, i: nat, c: Choice)
    requires Inv(s) && i < |s.procs| && ProcOk(s, i) && Holds(s.procs[i]) && forall j :: 0 <= j < |s.procs| ==> j in c.wake
    ensures Next(s, i, c).Some?
  {
  }

  /**
   Where everybody is idle or asleep, sleeping consumers mean an empty channel and sleeping producers a full or a
   depleted one.  So the two sides are never asleep together.
   */
  lemma StuckSides(s: State, turns: seq<Turn>)
    requires Init(s) && Stuck(Run(s, turns))
    ensures var t := Run(s, turns); SomeSleeper(t.procs, true) ==> t.status.Empty?
    ensures var t := Run(s, turns); SomeSleeper(t.procs, false) ==> !t.status.Empty?
    ensures var t := Run(s, turns); !(SomeSleeper(t.procs, true) && SomeSleeper(t.procs, false))
  {
    RunAttended(s, turns);
    var t := Run(s, turns);
    assert !SomeServer(t.procs, true) && !SomeServer(t.procs, false);
  }

  // ---- producers asleep when the channel is declared depleted ----

  /** Depleted, and every producer left in channel_produce is asleep. */
  ghost predicate Abandoned(s: State)
  {
    s.status.Depleted? && forall i :: 0 <= i < |s.procs| ==> Retired(s.procs[i])
  }

  predicate Retired(pc: Pc)
  {
    match pc
    case Lock(op) => !op.Produce?
    case Inside(op) => !op.Produce?
    case Woken(op) => !op.Produce?
    case CopyIn(_) => false
    case SetLength(_) => false
    case SetOccupied(_) => false
    case CopyOut => false
    case SetEmpty(_) => false
    case WakeProducer => false
    case _ => true
  }

  lemma AbandonedStep(s: State, i: nat, c: Choice)
    requires Abandoned(s) && Next(s, i, c).Some? && !c.op.Produce? && !c.spurious
    ensures var t := Next(s, i, c).value; Abandoned(t) && |t.procs| == |s.procs|
    ensures var t := Next(s, i, c).value; forall j :: 0 <= j < |s.procs| && Sleeps(s.procs[j], false) ==> t.procs[j] == s.procs[j]
  {
    assert Retired(s.procs[i]);
  }

  /** No turn is a spurious wakeup. */
  predicate Calm(turns: seq<Turn>) { forall k :: 0 <= k < |turns| ==> !turns[k].c.spurious }

  /** Some turn offers a call of channel_produce. */
  predicate Produces(turns: seq<Turn>) { exists k :: 0 <= k < |turns| && turns[k].c.op.Produce? }

  /** Nobody wakes a producer that sleeps on a depleted channel, unless another producer comes. */
  lemma {:induction false} ProducersStranded(s: State, turns: seq<Turn>, i: nat)
    requires Abandoned(s) && i < |s.procs| && Sleeps(s.procs[i], false)
    requires Calm(turns) && !Produces(turns)
    ensures var t := Run(s, turns); Abandoned(t) && i < |t.procs| && t.procs[i] == s.procs[i]
  {
    if turns != [] {
      var front := turns[..|turns| - 1];
      ProducersStranded(s, front, i);
      var last := turns[|turns| - 1];
      if Next(Run(s, front), last.i, last.c).Some? {
        AbandonedStep(Run(s, front), last.i, last.c);
      }
    }
  }

  /** Some schedule without spurious wakeups leads from s to t. */
  ghost predicate Calmly(s: State, t: State) { exists turns :: Calm(turns) && Run(s, turns) == t }

  lemma Extend(s: State, t: State, i: nat, c: Choice) returns (u: State)
    requires Calmly(s, t) && Next(t, i, c).Some? && !c.spurious
    ensures Calmly(s, u) && Some(u) == Next(t, i, c)
  {
    var turns :| Calm(turns) && Run(s, turns) == t;
    var more := turns + [Turn(i, c)];
    assert more[..|more| - 1] == turns;
    u := Run(s, more);
  }

  const PLAIN := Choice(Consume, {}, false)

  /** An idle process can call an operation and get the free mutex. */
  lemma Enter(s: State, t: State, i: nat, op: Op) returns (u: State)
    requires Calmly(s, t) && CallOk(op) && i < |t.procs| && t.procs[i] == Idle && t.mtx == None
    ensures Calmly(s, u) && u == t.(mtx := Some(i)).At(i, Inside(op))
  {
    var called := Extend(s, t, i, Choice(op, {}, false));
    u := Extend(s, called, i, PLAIN);
  }

  /** With no consumer asleep a process can signal them and leave. */
  lemma Leave(s: State, t: State, i: nat) returns (u: State)
    requires Calmly(s, t) && i < |t.procs| && t.procs[i].WakeConsumers? && !SomeSleeper(t.procs, true)
    ensures Calmly(s, u) && u == t.(mtx := None).At(i, Idle)
  {
    assert Roused(t.procs, true, {}) == t.procs;
    u := Extend(s, t, i, PLAIN);
    u := Extend(s, u, i, PLAIN);
    assert t.procs[i := Unlock][i := Idle] == t.procs[i := Idle];
  }

  /** The statements of channel_produce under the mutex, up to the signal. */
  lemma Fill(s: State, t: State, i: nat, b: Block) returns (u: State)
    requires Calmly(s, t) && i < |t.procs| && t.procs[i] == Inside(Produce(b)) && !t.status.Occupied? && |b| <= |t.data|
    ensures Calmly(s, u)
    ensures u == t.(data := Copied(t.data, b), length := |b|, status := Occupied, log := t.log + [Sent(b, false)]).At(i, WakeConsumers(false))
  {
    u := Extend(s, t, i, PLAIN);
    u := Extend(s, u, i, PLAIN);
    u := Extend(s, u, i, PLAIN);
    u := Extend(s, u, i, PLAIN);
    assert u.procs == t.procs[i := WakeConsumers(false)];
  }

  /** The statements of channel_consume under the mutex, up to the signal. */
  lemma Drain(s: State, t: State, i: nat) returns (u: State)
    requires Calmly(s, t) && i < |t.procs| && t.procs[i] == Inside(Consume) && t.status.Occupied? && t.length <= |t.data|
    ensures Calmly(s, u)
    ensures u == t.(status := Empty, taken := t.taken + [t.data[..t.length]]).At(i, WakeProducer)
  {
    u := Extend(s, t, i, PLAIN);
    u := Extend(s, u, i, PLAIN);
    u := Extend(s, u, i, PLAIN);
    assert u.procs == t.procs[i := WakeProducer];
  }

  // ---- what wakes a stranded producer ----

  /** What holds while a stranded producer i waits and process j is awake. */
  ghost predicate Waits(t: State, i: nat, j: nat)
  {
    && Inv(t) && BroadcastDue(t) && Abandoned(t)
    && i < |t.procs| && Sleeps(t.procs[i], false) && j < |t.procs| && !t.procs[j].Waiting?
  }

  /** How many steps the holder of the mutex has left on a depleted channel. */
  function StepsLeft(t: State): nat
  {
    if t.mtx.None? || t.mtx.value >= |t.procs| then 0
    else match t.procs[t.mtx.value] case Inside(_) => 3 case WakeConsumers(_) => 2 case _ => 1
  }

  /** How far process j is from being idle again. */
  function Pending(pc: Pc): nat
  {
    match pc case Idle => 0 case Lock(_) => 2 case Woken(_) => 2 case _ => 1
  }

  lemma HolderStep(t: State, i: nat, j: nat) returns (c: Choice)
    requires Waits(t, i, j) && t.mtx.Some?
    ensures !c.spurious && t.mtx.value < |t.procs| && Next(t, t.mtx.value, c).Some?
    ensures Waits(Next(t, t.mtx.value, c).value, i, j) && StepsLeft(Next(t, t.mtx.value, c).value) < StepsLeft(t)
    ensures Pending(Next(t, t.mtx.value, c).value.procs[j]) <= Pending(t.procs[j])
  {
    var h := t.mtx.value;
    assert ProcOk(t, h) && Retired(t.procs[h]);
    c := Choice(Consume, Everyone(|t.procs|), false);
    HolderMoves(t, h, c);
    AbandonedStep(t, h, c);
    Step(t, h, c);
    BroadcastStep(t, h, c);
  }

  /** An awake process that is not idle can get the free mutex. */
  lemma EnterStep(t: State, i: nat, j: nat)
    requires Waits(t, i, j) && t.mtx.None? && !t.procs[j].Idle?
    ensures Next(t, j, PLAIN).Some? && Waits(Next(t, j, PLAIN).value, i, j)
    ensures Pending(Next(t, j, PLAIN).value.procs[j]) < Pending(t.procs[j])
  {
    assert ProcOk(t, j) && Retired(t.procs[j]);
    AbandonedStep(t, j, PLAIN);
    Step(t, j, PLAIN);
    BroadcastStep(t, j, PLAIN);
  }

  /** Whoever holds the mutex of a depleted channel soon lets go of it, and whoever is inside soon leaves. */
  lemma {:induction false} LetsGo(s: State, t: State, i: nat, j: nat) returns (u: State)
    requires Calmly(s, t) && Waits(t, i, j)
    ensures Calmly(s, u) && Waits(u, i, j) && u.mtx == None && u.procs[j] == Idle
    decreases Pending(t.procs[j]), StepsLeft(t)
  {
    u := t;
    if t.mtx.Some? {
      var c := HolderStep(t, i, j);
      u := Extend(s, t, t.mtx.value, c);
      u := LetsGo(s, u, i, j);
    } else if !t.procs[j].Idle? {
      EnterStep(t, i, j);
      u := Extend(s, t, j, PLAIN);
      u := LetsGo(s, u, i, j);
    }
  }

  /** A new block in the depleted channel ... */
  lemma NewBlock(s: State, t: State, i: nat, j: nat) returns (u: State)
    requires Calmly(s, t) && Waits(t, i, j) && t.mtx == None && t.procs[j] == Idle
    ensures Calmly(s, u) && u.mtx == None && u.status == Occupied && u.length <= |u.data| && u.procs == t.procs
  {
    u := Enter(s, t, j, Produce([]));
    u := Fill(s, u, j, []);
    OwnCounter(t.procs, j, WakeConsumers(false), true);
    assert u.procs == t.procs[j := WakeConsumers(false)];
    u := Leave(s, u, j);
    assert u.procs == t.procs;
  }

  /** ... and its being taken wakes the sleeper. */
  lemma TakenWakes(s: State, t: State, i: nat, j: nat) returns (u: State)
    requires Calmly(s, t) && t.mtx == None && t.status == Occupied && t.length <= |t.data|
    requires i < |t.procs| && Sleeps(t.procs[i], false) && j < |t.procs| && t.procs[j] == Idle
    ensures Calmly(s, u) && i < |u.procs| && u.procs[i].Woken?
  {
    u := Enter(s, t, j, Consume);
    u := Drain(s, u, j);
    assert Sleeps(u.procs[i], false) && i in {i};
    u := Extend(s, u, j, Choice(Consume, {i}, false));
  }

  predicate SomebodyAwake(procs: seq<Pc>) { exists j :: 0 <= j < |procs| && !procs[j].Waiting? }

  lemma {:induction false} AllAsleep(s: State, turns: seq<Turn>)
    requires !SomebodyAwake(s.procs) && Calm(turns)
    ensures Run(s, turns) == s
  {
    if turns != [] {
      AllAsleep(s, turns[..|turns| - 1]);
      var last := turns[|turns| - 1];
      assert last.i < |s.procs| ==> s.procs[last.i].Waiting?;
    }
  }

  lemma CanBeWoken(start: State, s: State, i: nat, j: nat)
    requires Init(start) && Reaches(start, s) && Abandoned(s)
    requires i < |s.procs| && Sleeps(s.procs[i], false) && j < |s.procs| && !s.procs[j].Waiting?
    ensures exists turns :: Calm(turns) && i < |Run(s, turns).procs| && Run(s, turns).procs[i].Woken?
  {
    var past :| Run(start, past) == s;
    RunAttended(start, past);
    assert Calm([]) && Run(s, []) == s;
    var t := LetsGo(s, s, i, j);
    t := NewBlock(s, t, i, j);
    t := TakenWakes(s, t, i, j);
  }

  /**
   From a reachable depleted channel whose producers are all asleep or gone: a sleeping producer can be woken without a
   spurious wakeup if and only if some process is awake, and exactly by schedules with a new call of channel_produce.
   */
  lemma WokenByProducers(start: State, s: State, i: nat)
    requires Init(start) && Reaches(start, s) && Abandoned(s) && i < |s.procs| && Sleeps(s.procs[i], false)
    ensures (exists turns :: Calm(turns) && i < |Run(s, turns).procs| && Run(s, turns).procs[i].Woken?) <==> SomebodyAwake(s.procs)
    ensures forall turns :: Calm(turns) && i < |Run(s, turns).procs| && Run(s, turns).procs[i] != s.procs[i] ==> Produces(turns)
  {
    if j :| 0 <= j < |s.procs| && !s.procs[j].Waiting? {
      CanBeWoken(start, s, i, j);
    } else {
      forall turns | Calm(turns)
        ensures Run(s, turns) == s
      {
        AllAsleep(s, turns);
      }
    }
    forall turns | Calm(turns) && i < |Run(s, turns).procs| && Run(s, turns).procs[i] != s.procs[i]
      ensures Produces(turns)
    {
      if !Produces(turns) {
        ProducersStranded(s, turns, i);
      }
    }
  }

  /** One of two processes puts a block, the other comes with a second one and has to sleep. */
  lemma SecondSleeps(s: State, a: Block, b: Block) returns (t: State)
    requires Init(s) && |s.procs| == 2 && |a| <= CHANNEL_SIZE && |b| <= CHANNEL_SIZE
    ensures Calmly(s, t) && t.status == Occupied && t.mtx == None && t.log == [Sent(a, false)]
    ensures t.procs == [Idle, Waiting(Produce(b))]
  {
    assert Calm([]) && Run(s, []) == s;
    t := Enter(s, s, 0, Produce(a));
    t := Fill(s, t, 0, a);
    t := Leave(s, t, 0);
    assert t.procs == [Idle, Idle];
    t := Enter(s, t, 1, Produce(b));
    t := Extend(s, t, 1, PLAIN);
    assert t.procs == [Idle, Waiting(Produce(b))];
  }

  /**
   With two processes the channel can end depleted over a block nobody took, and with a producer asleep for good:
   the first declares the channel depleted while the second sleeps.
   */
  lemma DepletionLoses(s: State, a: Block, b: Block) returns (t: State)
    requires Init(s) && |s.procs| == 2 && |a| <= CHANNEL_SIZE && |b| <= CHANNEL_SIZE
    ensures Calmly(s, t) && t.taken == [] && t.log == [Sent(a, true)]
    ensures Abandoned(t) && Stuck(t) && |t.procs| == 2 && Sleeps(t.procs[1], false)
  {
    t := SecondSleeps(s, a, b);
    t := Enter(s, t, 0, Deplete);
    t := Extend(s, t, 0, PLAIN);
    t := Leave(s, t, 0);
    assert t.procs == [Idle, Waiting(Produce(b))];
    TakenNothing(s, t);
  }

  /** Where every block was lost nothing has been delivered. */
  lemma TakenNothing(s: State, t: State)
    requires Init(s) && Calmly(s, t) && Losses(t.log) == |t.log|
    ensures t.taken == []
  {
    var turns :| Run(s, turns) == t;
    StreamCorrect(s, turns);
  }
}
