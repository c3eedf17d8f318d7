/** The processor can always be brought to its end, as long as there is anybody else at both channels. */
module PipelineEnd {
  import opened Counting
  import opened Channel
  import opened ChannelStream
  import opened ChannelWakeups
  import opened Doubler
  import opened PipelineStream
  import P = Pipeline

  // ---- calls under way come to an end ----

  /** Steps a call may still take, with what its signal may cost the processes it wakes; n is the number of processes. */
  function Cost(pc: Pc, n: nat): nat
  {
    match pc
    case Idle => 0
    case Lock(_) => 3 * n + 12
    case Woken(_) => 3 * n + 12
    case Inside(_) => 3 * n + 11
    case Waiting(_) => 3 * n + 9
    case CopyIn(_) => 3 * n + 8
    case SetLength(_) => 3 * n + 7
    case SetOccupied(_) => 3 * n + 6
    case CopyOut => 3 * n + 8
    case SetEmpty(_) => 3 * n + 7
    case WakeConsumers(_) => 3 * n + 5
    case WakeProducer => 3 * n + 5
    case Unlock => 1
  }

  function Costs(procs: seq<Pc>): (r: seq<int>)
    ensures |r| == |procs|
  {
    seq(|procs|, i requires 0 <= i < |procs| => Cost(procs[i], |procs|))
  }

  function Effort(u: State): int { Sum(Costs(u.procs)) }

  lemma EffortNonnegative(u: State)
    ensures Effort(u) >= 0
  {
    SumNonnegative(Costs(u.procs));
  }

  lemma CostChanges(procs: seq<Pc>, i: nat, pc: Pc)
    requires i < |procs|
    ensures Sum(Costs(procs[i := pc])) == Sum(Costs(procs)) - Cost(procs[i], |procs|) + Cost(pc, |procs|)
  {
    SumUpdate(Costs(procs), i, Cost(pc, |procs|));
    assert Costs(procs[i := pc]) == Costs(procs)[i := Cost(pc, |procs|)];
  }

  lemma {:induction false} SumRaised(xs: seq<int>, ys: seq<int>, d: nat)
    requires |xs| == |ys| && forall i :: 0 <= i < |xs| ==> ys[i] <= xs[i] + d
    ensures Sum(ys) <= Sum(xs) + d * |xs|
  {
    if xs != [] {
      SumRaised(xs[1..], ys[1..], d);
    }
  }

  /** A signal costs less than the signaller had left for it. */
  lemma SignalCost(procs: seq<Pc>, k: bool, wake: set<nat>, i: nat)
    requires i < |procs| && Signals(procs[i])
    ensures Sum(Costs(Roused(procs, k, wake)[i := Unlock])) < Sum(Costs(procs))
  {
    var n := |procs|;
    var after := Roused(procs, k, wake)[i := Unlock];
    SumUpdate(Costs(procs), i, -2);
    SumRaised(Costs(procs)[i := -2], Costs(after), 3);
  }

  lemma SignalCosts(u: State, i: nat, c: Choice)
    requires i < |u.procs| && Signals(u.procs[i]) && Next(u, i, c).Some?
    ensures var t := Next(u, i, c).value; Effort(t) < Effort(u) && |t.procs| == |u.procs|
  {
    var k := u.procs[i].WakeConsumers?;
    SignalCost(u.procs, k, c.wake, i);
    assert Next(u, i, c).value.procs == Roused(u.procs, k, c.wake)[i := Unlock];
  }

  lemma OwnCosts(u: State, i: nat, c: Choice)
    requires i < |u.procs| && !u.procs[i].Idle? && !u.procs[i].Waiting? && !Signals(u.procs[i]) && Next(u, i, c).Some?
    ensures var t := Next(u, i, c).value; Effort(t) < Effort(u) && |t.procs| == |u.procs|
  {
    var t := Next(u, i, c).value;
    CostChanges(u.procs, i, t.procs[i]);
    assert t.procs == u.procs[i := t.procs[i]];
  }

  /** A step of a call under way, other than being woken, costs. */
  lemma CallCosts(u: State, i: nat, c: Choice)
    requires i < |u.procs| && !u.procs[i].Idle? && !u.procs[i].Waiting? && Next(u, i, c).Some?
    ensures var t := Next(u, i, c).value; Effort(t) < Effort(u) && |t.procs| == |u.procs|
  {
    if Signals(u.procs[i]) {
      SignalCosts(u, i, c);
    } else {
      OwnCosts(u, i, c);
    }
  }

  /** A process with a call under way can move if nobody else holds the mutex. */
  lemma CallMoves(u: State, i: nat, c: Choice)
    requires Inv(u) && i < |u.procs| && !u.procs[i].Idle? && !u.procs[i].Waiting? && (u.mtx.None? || u.mtx == Some(i))
    requires forall j :: 0 <= j < |u.procs| ==> j in c.wake
    ensures Next(u, i, c).Some?
  {
    assert ProcOk(u, i);
    if Holds(u.procs[i]) {
      HolderMoves(u, i, c);
    }
  }

  // ---- the blocks that can still come ----

  /** On its way to putting a block. */
  predicate Bringing(pc: Pc)
  {
    match pc
    case Lock(op) => op.Produce?
    case Inside(op) => op.Produce?
    case Waiting(op) => op.Produce?
    case Woken(op) => op.Produce?
    case CopyIn(_) => true
    case SetLength(_) => true
    case SetOccupied(_) => true
    case _ => false
  }

  function Coming(u: State): nat { Count(u.procs, Bringing) + (if u.status.Occupied? then 1 else 0) }

  lemma RousedBring(procs: seq<Pc>, k: bool, wake: set<nat>)
    ensures Count(Roused(procs, k, wake), Bringing) == Count(procs, Bringing)
  {
    SameCount(Roused(procs, k, wake), procs, Bringing);
  }

  lemma SignalBrings(u: State, i: nat, c: Choice)
    requires i < |u.procs| && Signals(u.procs[i]) && Next(u, i, c).Some?
    ensures Coming(Next(u, i, c).value) == Coming(u)
  {
    var k := u.procs[i].WakeConsumers?;
    RousedBring(u.procs, k, c.wake);
    CountUpdate(Roused(u.procs, k, c.wake), i, Unlock, Bringing);
  }

  lemma OwnBrings(u: State, i: nat, c: Choice)
    requires Inv(u) && i < |u.procs| && !Signals(u.procs[i]) && Next(u, i, c).Some? && (u.procs[i].Idle? ==> !c.op.Produce?)
    ensures Coming(Next(u, i, c).value) <= Coming(u) - (if u.procs[i].SetEmpty? then 1 else 0)
  {
    var t := Next(u, i, c).value;
    assert ProcOk(u, i);
    assert t.procs == u.procs[i := t.procs[i]];
    CountUpdate(u.procs, i, t.procs[i], Bringing);
  }

  /** No step but a new call brings more, and taking a block brings one fewer. */
  lemma ComingFalls(u: State, i: nat, c: Choice)
    requires Inv(u) && i < |u.procs| && Next(u, i, c).Some? && (u.procs[i].Idle? ==> !c.op.Produce?)
    ensures Coming(Next(u, i, c).value) <= Coming(u) - (if u.procs[i].SetEmpty? then 1 else 0)
  {
    if Signals(u.procs[i]) {
      SignalBrings(u, i, c);
    } else {
      OwnBrings(u, i, c);
    }
  }

  // ---- the measure of a line ----

  /** What the processor itself still has to do before it asks for the next block. */
  function StageRank(t: P.Line): nat
  {
    match t.stage
    case Exited => 0
    case Closing => 1
    case Fetching => if t.ret.Some? then 6 * |t.ret.value| + 6 else 2
    case Doubling(pos) => 3 + 3 * Left(t, pos) + (if t.outBuf != [] then 2 else 0)
    case Flushing(pos) => 4 + 3 * Left(t, pos)
  }

  function Left(t: P.Line, pos: nat): nat { if pos <= 2 * |t.inBuf| then 2 * |t.inBuf| - pos else 0 }

  predicate Depleting(pc: Pc) { pc == Lock(Deplete) || pc == Inside(Deplete) }

  predicate SomeoneDepletes(u: State) { exists j :: 0 <= j < |u.procs| && Depleting(u.procs[j]) }

  /** The processor may wait for a block that nobody brings. */
  predicate NeedsEnd(t: P.Line)
  {
    t.stage.Fetching? && t.ret.None? && t.inp.status.Empty? && !SomeoneDepletes(t.inp)
  }

  predicate Taking(pc: Pc) { pc == Lock(Consume) || pc == Woken(Consume) || pc == Inside(Consume) || pc.CopyOut? || pc.SetEmpty? }

  predicate SomeoneTakes(u: State) { exists j :: 0 <= j < |u.procs| && Taking(u.procs[j]) }

  /** The processor may wait for room that nobody makes. */
  predicate NeedsTaker(t: P.Line)
  {
    t.stage.Flushing? && |t.out.procs| > 0 && BeforePut(t.out.procs[0], t.outBuf) && t.out.status.Occupied? && !SomeoneTakes(t.out)
  }

  /** What the processor's next call will cost, before it makes it. */
  function Credit(t: P.Line): nat
    requires |t.inp.procs| > 0 && |t.out.procs| > 0
  {
    match t.stage
    case Fetching => if t.inp.procs[0].Idle? then 3 * |t.inp.procs| + 13 else 0
    case Flushing(_) => if t.out.procs[0].Idle? then 3 * |t.out.procs| + 13 else 0
    case Closing => if t.out.procs[0].Idle? then 3 * |t.out.procs| + 13 else 0
    case _ => 0
  }

  function Toil(t: P.Line): int
    requires |t.inp.procs| > 0 && |t.out.procs| > 0
  {
    Effort(t.inp) + Effort(t.out) + Credit(t)
  }

  function Bit(b: bool): nat { if b then 1 else 0 }

  function Helpers(t: P.Line): nat { Bit(NeedsEnd(t)) + Bit(NeedsTaker(t)) }

  /** v is nearer the end than t: fewer blocks to come, or less to do with the one at hand, or fewer helpers to call, or less toil. */
  predicate Nearer(v: P.Line, t: P.Line)
    requires |v.inp.procs| > 0 && |v.out.procs| > 0 && |t.inp.procs| > 0 && |t.out.procs| > 0
  {
    || Coming(v.inp) < Coming(t.inp)
    || (Coming(v.inp) == Coming(t.inp)
        && (|| StageRank(v) < StageRank(t)
            || (StageRank(v) == StageRank(t)
                && (|| Helpers(v) < Helpers(t)
                    || (Helpers(v) == Helpers(t) && Toil(v) < Toil(t))))))
  }

  lemma LessToil(v: P.Line, t: P.Line)
    requires |v.inp.procs| > 0 && |v.out.procs| > 0 && |t.inp.procs| > 0 && |t.out.procs| > 0
    requires Coming(v.inp) <= Coming(t.inp) && StageRank(v) == StageRank(t) && Toil(v) < Toil(t)
    requires (NeedsEnd(v) ==> NeedsEnd(t)) && (NeedsTaker(v) ==> NeedsTaker(t))
    ensures Nearer(v, t)
  {
  }

  // ---- good lines ----

  ghost predicate AllServed(u: State) { Attended(u, true) && Attended(u, false) && BroadcastDue(u) }

  ghost predicate Good(t: P.Line) { LineInv(t) && AllServed(t.inp) && AllServed(t.out) }

  lemma ServedStep(u: State, i: nat, c: Choice)
    requires Inv(u) && AllServed(u) && Next(u, i, c).Some?
    ensures AllServed(Next(u, i, c).value)
  {
    AttendedStep(u, i, c, true);
    AttendedStep(u, i, c, false);
    BroadcastStep(u, i, c);
  }

  lemma FetchServed(t: P.Line, c: Choice)
    requires Inv(t.inp) && AllServed(t.inp) && P.FetchNext(t, c).Some?
    ensures var v := P.FetchNext(t, c).value; AllServed(v.inp) && v.out == t.out
  {
    var d := c.(op := Consume);
    ServedStep(t.inp, 0, d);
    assert P.FetchNext(t, c).value.inp == Next(t.inp, 0, d).value;
  }

  lemma FlushServed(t: P.Line, pos: nat, c: Choice)
    requires Inv(t.out) && AllServed(t.out) && P.FlushNext(t, pos, c).Some?
    ensures var v := P.FlushNext(t, pos, c).value; AllServed(v.out) && v.inp == t.inp
  {
    var d := c.(op := Produce(t.outBuf));
    ServedStep(t.out, 0, d);
    assert P.FlushNext(t, pos, c).value.out == Next(t.out, 0, d).value;
  }

  lemma CloseServed(t: P.Line, c: Choice)
    requires Inv(t.out) && AllServed(t.out) && P.CloseNext(t, c).Some?
    ensures var v := P.CloseNext(t, c).value; AllServed(v.out) && v.inp == t.inp
  {
    var d := c.(op := Deplete);
    ServedStep(t.out, 0, d);
    assert P.CloseNext(t, c).value.out == Next(t.out, 0, d).value;
  }

  lemma GoodStep(t: P.Line, a: P.Actor, c: Choice)
    requires Good(t) && P.Next(t, a, c).Some?
    ensures Good(P.Next(t, a, c).value)
  {
    LineStep(t, a, c);
    match a
    case AtInput(i) => ServedStep(t.inp, i, c);
    case AtOutput(i) => ServedStep(t.out, i, c);
    case Processor =>
      match t.stage
      case Fetching => FetchServed(t, c);
      case Flushing(pos) => FlushServed(t, pos, c);
      case Closing => CloseServed(t, c);
      case _ =>
  }

  lemma {:induction false} RunGood(s: P.Line, turns: seq<P.Turn>)
    requires P.Init(s)
    ensures Good(P.Run(s, turns))
  {
    if turns == [] {
      RunLine(s, []);
    } else {
      var front, last := turns[..|turns| - 1], turns[|turns| - 1];
      RunGood(s, front);
      if P.Next(P.Run(s, front), last.a, last.c).Some? {
        GoodStep(P.Run(s, front), last.a, last.c);
      }
    }
  }

  // ---- every call under way brings the line nearer its end ----

  /** A feeder's call under way does not empty the channel, and a depletion under way stays so until it is done. */
  lemma FeederKeepsEnd(u: State, i: nat, c: Choice)
    requires Inv(u) && i < |u.procs| && Feeder(u.procs[i]) && !u.procs[i].Idle? && !u.procs[i].Waiting? && Next(u, i, c).Some?
    ensures var v := Next(u, i, c).value; v.status.Empty? ==> u.status.Empty? && (SomeoneDepletes(u) ==> SomeoneDepletes(v))
  {
    var v := Next(u, i, c).value;
    assert ProcOk(u, i);
    if SomeoneDepletes(u) && v.status.Empty? {
      var j :| 0 <= j < |u.procs| && Depleting(u.procs[j]);
      assert Depleting(v.procs[j]);
    }
  }

  lemma FeederNears(t: P.Line, i: nat, c: Choice)
    requires Good(t) && 0 < i < |t.inp.procs| && !t.inp.procs[i].Idle? && !t.inp.procs[i].Waiting? && !c.op.Consume?
    requires Next(t.inp, i, c).Some?
    ensures P.Next(t, P.AtInput(i), c).Some? && |P.Next(t, P.AtInput(i), c).value.inp.procs| == |t.inp.procs|
    ensures P.Next(t, P.AtInput(i), c).value.out == t.out && Nearer(P.Next(t, P.AtInput(i), c).value, t)
  {
    var v := P.Next(t, P.AtInput(i), c).value;
    ComingFalls(t.inp, i, c);
    CallCosts(t.inp, i, c);
    FeederStep(t.inp, i, c);
    FeederKeepsEnd(t.inp, i, c);
    assert v == t.(inp := v.inp);
    LessToil(v, t);
  }

  /** A taker's call under way does not fill the channel, and goes on until it has taken or found nothing. */
  lemma TakerKeepsRoom(u: State, i: nat, c: Choice)
    requires Inv(u) && i < |u.procs| && Taker(u.procs[i]) && !u.procs[i].Idle? && !u.procs[i].Waiting? && Next(u, i, c).Some?
    ensures var v := Next(u, i, c).value; v.status.Occupied? ==> u.status.Occupied? && (SomeoneTakes(u) ==> SomeoneTakes(v))
  {
    var v := Next(u, i, c).value;
    assert ProcOk(u, i);
    if SomeoneTakes(u) && v.status.Occupied? {
      var j :| 0 <= j < |u.procs| && Taking(u.procs[j]);
      assert Taking(v.procs[j]);
    }
  }

  /** Another process's step at the second channel leaves the processor's own need and its next call's cost as they were. */
  lemma TakerAside(t: P.Line, v: P.Line)
    requires |t.inp.procs| > 0 && |t.out.procs| > 0 && |v.out.procs| == |t.out.procs| && v == t.(out := v.out)
    requires Bystander(t.out.procs[0], v.out.procs[0])
    requires v.out.status.Occupied? ==> t.out.status.Occupied? && (SomeoneTakes(t.out) ==> SomeoneTakes(v.out))
    ensures (NeedsTaker(v) ==> NeedsTaker(t)) && (NeedsEnd(v) <==> NeedsEnd(t))
    ensures StageRank(v) == StageRank(t) && Credit(v) == Credit(t)
  {
  }

  lemma TakerNears(t: P.Line, i: nat, c: Choice)
    requires Good(t) && 0 < i < |t.out.procs| && !t.out.procs[i].Idle? && !t.out.procs[i].Waiting? && c.op.Consume?
    requires Next(t.out, i, c).Some?
    ensures P.Next(t, P.AtOutput(i), c).Some? && |P.Next(t, P.AtOutput(i), c).value.out.procs| == |t.out.procs|
    ensures P.Next(t, P.AtOutput(i), c).value.inp == t.inp && Nearer(P.Next(t, P.AtOutput(i), c).value, t)
  {
    var v := t.(out := Next(t.out, i, c).value);
    CallCosts(t.out, i, c);
    TakerStep(t.out, i, c);
    TakerKeepsRoom(t.out, i, c);
    TakerAside(t, v);
    LessToil(v, t);
  }

  // ---- so does every step of the processor that is not asleep ----

  lemma FetchKeepsEnd(u: State, c: Choice)
    requires Inv(u) && OthersFeed(u) && Taker(u.procs[0]) && !u.procs[0].SetEmpty? && c.op.Consume? && Next(u, 0, c).Some?
    ensures var v := Next(u, 0, c).value; v.status == u.status && (SomeoneDepletes(u) ==> SomeoneDepletes(v))
  {
    var v := Next(u, 0, c).value;
    assert ProcOk(u, 0);
    if j :| 0 <= j < |u.procs| && Depleting(u.procs[j]) {
      assert Depleting(v.procs[j]);
    }
  }

  /** The first step of a call costs less than was set aside for it. */
  lemma CallBegins(u: State, i: nat, c: Choice)
    requires i < |u.procs| && u.procs[i].Idle? && Next(u, i, c).Some?
    ensures var v := Next(u, i, c).value; v == u.At(i, Lock(c.op)) && Effort(v) == Effort(u) + 3 * |u.procs| + 12
  {
    CostChanges(u.procs, i, Lock(c.op));
  }

  lemma FetchCalls(t: P.Line, c: Choice)
    requires Good(t) && t.stage.Fetching? && t.inp.procs[0].Idle? && P.FetchNext(t, c).Some?
    ensures var v := P.FetchNext(t, c).value; |v.inp.procs| == |t.inp.procs| && v.out == t.out && Nearer(v, t)
  {
    var d := c.(op := Consume);
    ComingFalls(t.inp, 0, d);
    CallBegins(t.inp, 0, d);
    FetchKeepsEnd(t.inp, d);
    LessToil(P.FetchNext(t, c).value, t);
  }

  /** The block taken is one fewer to come; on the return the processor turns to it, or to its end. */
  lemma FetchGets(t: P.Line, c: Choice)
    requires Good(t) && t.stage.Fetching? && (t.inp.procs[0].SetEmpty? || t.inp.procs[0].Unlock?) && P.FetchNext(t, c).Some?
    ensures var v := P.FetchNext(t, c).value; |v.inp.procs| == |t.inp.procs| && v.out == t.out && Nearer(v, t)
  {
    ComingFalls(t.inp, 0, c.(op := Consume));
  }

  lemma FetchGoesOn(t: P.Line, c: Choice)
    requires Good(t) && t.stage.Fetching? && !t.inp.procs[0].SetEmpty? && !t.inp.procs[0].Unlock? && P.FetchNext(t, c).Some?
    requires !t.inp.procs[0].Idle? && !t.inp.procs[0].Waiting?
    ensures var v := P.FetchNext(t, c).value; |v.inp.procs| == |t.inp.procs| && v.out == t.out && Nearer(v, t)
  {
    var d := c.(op := Consume);
    OwnTake(t.inp, d);
    ComingFalls(t.inp, 0, d);
    CallCosts(t.inp, 0, d);
    FetchKeepsEnd(t.inp, d);
    LessToil(P.FetchNext(t, c).value, t);
  }

  lemma FetchNears(t: P.Line, c: Choice)
    requires Good(t) && t.stage.Fetching? && !t.inp.procs[0].Waiting? && P.FetchNext(t, c).Some?
    ensures var v := P.FetchNext(t, c).value; |v.inp.procs| == |t.inp.procs| && v.out == t.out && Nearer(v, t)
  {
    if t.inp.procs[0].Idle? {
      FetchCalls(t, c);
    } else if t.inp.procs[0].SetEmpty? || t.inp.procs[0].Unlock? {
      FetchGets(t, c);
    } else {
      FetchGoesOn(t, c);
    }
  }

  lemma StoreNears(t: P.Line, pos: nat)
    requires Good(t) && t.stage == P.Doubling(pos)
    ensures var v := P.StoreNext(t, pos); v.inp == t.inp && v.out == t.out && Nearer(v, t)
  {
  }

  lemma FlushKeepsRoom(u: State, b: Block, c: Choice)
    requires Inv(u) && OthersTake(u) && (BeforePut(u.procs[0], b) || AfterPut(u.procs[0])) && c.op == Produce(b) && Next(u, 0, c).Some?
    ensures var v := Next(u, 0, c).value;
      BeforePut(v.procs[0], b) && !u.procs[0].Unlock? ==>
        BeforePut(u.procs[0], b) && v.status == u.status && (SomeoneTakes(u) ==> SomeoneTakes(v))
  {
    var v := Next(u, 0, c).value;
    assert ProcOk(u, 0);
    if j :| 0 <= j < |u.procs| && Taking(u.procs[j]) {
      assert BeforePut(v.procs[0], b) && !u.procs[0].Unlock? ==> Taking(v.procs[j]);
    }
  }

  lemma FlushNears(t: P.Line, pos: nat, c: Choice)
    requires Good(t) && t.stage == P.Flushing(pos) && !t.out.procs[0].Waiting? && P.FlushNext(t, pos, c).Some?
    ensures var v := P.FlushNext(t, pos, c).value; v.inp == t.inp && |v.out.procs| == |t.out.procs| && Nearer(v, t)
  {
    var d := c.(op := Produce(t.outBuf));
    var v := P.FlushNext(t, pos, c).value;
    OwnPut(t.out, t.outBuf, d);
    FlushKeepsRoom(t.out, t.outBuf, d);
    if t.out.procs[0].Idle? {
      CallBegins(t.out, 0, d);
    } else {
      CallCosts(t.out, 0, d);
    }
  }

  lemma CloseNears(t: P.Line, c: Choice)
    requires Good(t) && t.stage.Closing? && P.CloseNext(t, c).Some?
    ensures var v := P.CloseNext(t, c).value; v.inp == t.inp && |v.out.procs| == |t.out.procs| && Nearer(v, t)
  {
    var d := c.(op := Deplete);
    OwnEnd(t.out, d);
    if t.out.procs[0].Idle? {
      CallBegins(t.out, 0, d);
    } else {
      CallCosts(t.out, 0, d);
    }
  }

  // ---- and a helper called when the processor would sleep for ever ----

  /** Nobody but process 0 has a call under way that is not asleep. */
  ghost predicate OthersQuiet(u: State)
  {
    forall i :: 0 < i < |u.procs| ==> u.procs[i].Idle? || u.procs[i].Waiting?
  }

  /** If process 0 sleeps for a block and the others are quiet, the channel is empty and the others are all idle. */
  lemma SleepsForBlock(u: State)
    requires Inv(u) && AllServed(u) && OthersFeed(u) && OthersQuiet(u) && u.procs[0] == Waiting(Consume)
    ensures u.status.Empty? && forall i :: 0 < i < |u.procs| ==> u.procs[i].Idle?
  {
    assert Sleeps(u.procs[0], true);
    assert !SomeServer(u.procs, true) && !SomeServer(u.procs, false);
    forall i | 0 < i < |u.procs|
      ensures u.procs[i].Idle?
    {
      assert ProcOk(u, i) && Feeder(u.procs[i]);
      assert !Sleeps(u.procs[i], false);
    }
  }

  /** If it sleeps for room, the channel is full and the others are all idle. */
  lemma SleepsForRoom(u: State, b: Block)
    requires Inv(u) && AllServed(u) && OthersTake(u) && OthersQuiet(u) && u.procs[0] == Waiting(Produce(b)) && u.depletions == 0
    ensures u.status.Occupied? && forall i :: 0 < i < |u.procs| ==> u.procs[i].Idle?
  {
    assert Sleeps(u.procs[0], false);
    assert !SomeServer(u.procs, true) && !SomeServer(u.procs, false);
    forall i | 0 < i < |u.procs|
      ensures u.procs[i].Idle?
    {
      assert ProcOk(u, i) && Taker(u.procs[i]);
      assert !Sleeps(u.procs[i], true);
    }
  }

  const ENDS := Choice(Deplete, {}, false)

  lemma EndHelps(t: P.Line)
    requires Good(t) && t.stage.Fetching? && t.inp.procs[0] == Waiting(Consume) && OthersQuiet(t.inp) && |t.inp.procs| > 1
    ensures var r := P.Next(t, P.AtInput(1), ENDS);
      r.Some? && |r.value.inp.procs| == |t.inp.procs| && r.value.out == t.out && Nearer(r.value, t)
  {
    SleepsForBlock(t.inp);
    var v := P.Next(t, P.AtInput(1), ENDS).value;
    ComingFalls(t.inp, 1, ENDS);
    assert Depleting(v.inp.procs[1]);
    assert NeedsEnd(t) && !NeedsEnd(v);
  }

  lemma TakerHelps(t: P.Line, pos: nat)
    requires Good(t) && t.stage == P.Flushing(pos) && t.out.procs[0] == Waiting(Produce(t.outBuf)) && OthersQuiet(t.out) && |t.out.procs| > 1
    ensures var r := P.Next(t, P.AtOutput(1), PLAIN);
      r.Some? && r.value.inp == t.inp && |r.value.out.procs| == |t.out.procs| && Nearer(r.value, t)
  {
    SleepsForRoom(t.out, t.outBuf);
    var v := P.Next(t, P.AtOutput(1), PLAIN).value;
    assert Taking(v.out.procs[1]);
    assert NeedsTaker(t) && !NeedsTaker(v);
  }

  // ---- lines that can still end ----

  /** Somebody else is at the first channel, and at the second unless its slot takes all that is left to put. */
  ghost predicate CanEnd(t: P.Line)
  {
    |t.inp.procs| > 1 && |t.out.procs| > 0 && (|t.out.procs| > 1 || (Coming(t.inp) == 0 && |Output(t.inp.taken)| <= 1))
  }

  /** A step keeps the number of processes, and only a consumer adds to what has been taken. */
  lemma TakenStep(u: State, i: nat, c: Choice)
    requires Next(u, i, c).Some?
    ensures var v := Next(u, i, c).value; |v.procs| == |u.procs| && u.taken <= v.taken && (v.taken == u.taken || u.procs[i].SetEmpty?)
  {
  }

  /** What a step of the line does to the two histories of blocks taken. */
  ghost predicate Grows(t: P.Line, v: P.Line)
  {
    && |v.inp.procs| == |t.inp.procs| && |v.out.procs| == |t.out.procs|
    && t.inp.taken <= v.inp.taken && t.out.taken <= v.out.taken
  }

  lemma LineGrows(t: P.Line, a: P.Actor, c: Choice)
    requires P.Next(t, a, c).Some?
    ensures Grows(t, P.Next(t, a, c).value)
  {
    match a
    case AtInput(i) => TakenStep(t.inp, i, c);
    case AtOutput(i) => TakenStep(t.out, i, c);
    case Processor =>
      match t.stage
      case Fetching => TakenStep(t.inp, 0, c.(op := Consume));
      case Flushing(pos) => TakenStep(t.out, 0, c.(op := Produce(t.outBuf)));
      case Closing => TakenStep(t.out, 0, c.(op := Deplete));
      case _ =>
  }

  /** With no block on its way none is taken. */
  lemma NoneTaken(u: State, c: Choice)
    requires Inv(u) && OthersFeed(u) && Taker(u.procs[0]) && c.op.Consume? && Coming(u) == 0 && Next(u, 0, c).Some?
    ensures var v := Next(u, 0, c).value; Coming(v) == 0 && v.taken == u.taken
  {
    ComingFalls(u, 0, c);
    OwnTake(u, c);
  }

  lemma FetchCanEnd(t: P.Line, c: Choice)
    requires LineInv(t) && CanEnd(t) && t.stage.Fetching? && P.FetchNext(t, c).Some?
    ensures CanEnd(P.FetchNext(t, c).value)
  {
    TakenStep(t.inp, 0, c.(op := Consume));
    if |t.out.procs| == 1 {
      NoneTaken(t.inp, c.(op := Consume));
    }
  }

  /** A line that can end still can after any step but a new call of channel_produce on the first channel. */
  lemma CanEndStep(t: P.Line, a: P.Actor, c: Choice)
    requires LineInv(t) && CanEnd(t) && !c.op.Produce? && P.Next(t, a, c).Some?
    ensures CanEnd(P.Next(t, a, c).value)
  {
    LineGrows(t, a, c);
    match a
    case AtInput(i) =>
      ComingFalls(t.inp, i, c);
      FeederStep(t.inp, i, c);
    case AtOutput(i) =>
    case Processor =>
      if t.stage.Fetching? {
        FetchCanEnd(t, c);
      }
  }

  /** A processor asleep for room has put one block at least and has one more to put. */
  lemma TwoToPut(t: P.Line, pos: nat)
    requires Good(t) && t.stage == P.Flushing(pos) && t.out.procs[0] == Waiting(Produce(t.outBuf)) && OthersQuiet(t.out)
    ensures |Output(t.inp.taken)| > 1
  {
    SleepsForRoom(t.out, t.outBuf);
    assert t.out.log != [] && PipelineStream.Pending(t)[0] == t.outBuf;
    assert |Output(t.inp.taken)| == |Blocks(t.out.log)| + |PipelineStream.Pending(t)|;
  }

  // ---- somebody always can ----

  /** Process i has a call under way, is awake, and nobody else holds the mutex. */
  predicate Ready(u: State, i: nat)
  {
    i < |u.procs| && !u.procs[i].Idle? && !u.procs[i].Waiting? && (u.mtx.None? || u.mtx == Some(i))
  }

  /** If no other process is ready, then process 0 has the mutex or can have it, and the others are quiet but for those waiting for it. */
  lemma OnlyZeroReady(u: State)
    requires Inv(u) && |u.procs| > 0 && forall i: nat :: i > 0 ==> !Ready(u, i)
    ensures u.mtx.None? || u.mtx == Some(0)
    ensures u.mtx.None? ==> OthersQuiet(u)
  {
    if u.mtx.Some? {
      assert ProcOk(u, u.mtx.value);
      assert u.mtx.value > 0 ==> Ready(u, u.mtx.value);
    } else {
      forall i | 0 < i < |u.procs|
        ensures u.procs[i].Idle? || u.procs[i].Waiting?
      {
        assert !Ready(u, i);
      }
    }
  }

  lemma FetcherGoes(t: P.Line, go: Choice) returns (a: P.Actor, c: Choice)
    requires Good(t) && t.stage.Fetching? && |t.inp.procs| > 1
    requires (t.inp.mtx.None? && OthersQuiet(t.inp)) || t.inp.mtx == Some(0)
    requires go.op.Consume? && forall j :: 0 <= j < |t.inp.procs| ==> j in go.wake
    ensures !c.op.Produce? && P.Next(t, a, c).Some?
    ensures var v := P.Next(t, a, c).value; |v.inp.procs| == |t.inp.procs| && |v.out.procs| == |t.out.procs| && Nearer(v, t)
  {
    assert ProcOk(t.inp, 0);
    if t.inp.procs[0].Waiting? {
      a, c := P.AtInput(1), ENDS;
      EndHelps(t);
    } else {
      a, c := P.Processor, go;
      if !t.inp.procs[0].Idle? {
        CallMoves(t.inp, 0, go.(op := Consume));
      }
      FetchNears(t, go);
    }
  }

  lemma FlusherGoes(t: P.Line, pos: nat, go: Choice) returns (a: P.Actor, c: Choice)
    requires Good(t) && t.stage == P.Flushing(pos) && CanEnd(t)
    requires (t.out.mtx.None? && OthersQuiet(t.out)) || t.out.mtx == Some(0)
    requires go.op.Consume? && forall j :: 0 <= j < |t.out.procs| ==> j in go.wake
    ensures !c.op.Produce? && P.Next(t, a, c).Some?
    ensures var v := P.Next(t, a, c).value; |v.inp.procs| == |t.inp.procs| && |v.out.procs| == |t.out.procs| && Nearer(v, t)
  {
    assert ProcOk(t.out, 0);
    if t.out.procs[0].Waiting? {
      TwoToPut(t, pos);
      a, c := P.AtOutput(1), PLAIN;
      TakerHelps(t, pos);
    } else {
      a, c := P.Processor, go;
      if !t.out.procs[0].Idle? {
        CallMoves(t.out, 0, go.(op := Produce(t.outBuf)));
      }
      FlushNears(t, pos, go);
    }
  }

  /** The processor asleep or about to move, with nobody else ready. */
  lemma ProcessorGoes(t: P.Line) returns (a: P.Actor, c: Choice)
    requires Good(t) && !t.stage.Exited? && CanEnd(t)
    requires forall i: nat :: i > 0 ==> !Ready(t.inp, i) && !Ready(t.out, i)
    ensures !c.op.Produce? && P.Next(t, a, c).Some?
    ensures var v := P.Next(t, a, c).value; |v.inp.procs| == |t.inp.procs| && |v.out.procs| == |t.out.procs| && Nearer(v, t)
  {
    OnlyZeroReady(t.inp);
    OnlyZeroReady(t.out);
    a, c := P.Processor, Choice(Consume, Everyone(|t.inp.procs|) + Everyone(|t.out.procs|), false);
    match t.stage
    case Fetching => a, c := FetcherGoes(t, c);
    case Doubling(pos) => StoreNears(t, pos);
    case Flushing(pos) => a, c := FlusherGoes(t, pos, c);
    case Closing =>
      if !t.out.procs[0].Idle? {
        CallMoves(t.out, 0, c.(op := Deplete));
      }
      CloseNears(t, c);
  }

  /** Unless the processor has exited, some step brings the line nearer its end. */
  lemma SomeStepNears(t: P.Line) returns (a: P.Actor, c: Choice)
    requires Good(t) && !t.stage.Exited? && CanEnd(t)
    ensures !c.op.Produce? && P.Next(t, a, c).Some?
    ensures var v := P.Next(t, a, c).value; |v.inp.procs| == |t.inp.procs| && |v.out.procs| == |t.out.procs| && Nearer(v, t)
  {
    if i: nat :| i > 0 && Ready(t.inp, i) {
      a, c := P.AtInput(i), Choice(Deplete, Everyone(|t.inp.procs|), false);
      CallMoves(t.inp, i, c);
      FeederNears(t, i, c);
    } else if i: nat :| i > 0 && Ready(t.out, i) {
      a, c := P.AtOutput(i), Choice(Consume, Everyone(|t.out.procs|), false);
      CallMoves(t.out, i, c);
      TakerNears(t, i, c);
    } else {
      a, c := ProcessorGoes(t);
    }
  }

  lemma ToilNonnegative(t: P.Line)
    requires |t.inp.procs| > 0 && |t.out.procs| > 0
    ensures Toil(t) >= 0
  {
    EffortNonnegative(t.inp);
    EffortNonnegative(t.out);
  }

  /** From every reachable line that can end, some continuation brings the processor to its exit. */
  lemma {:induction false} Finishes(s: P.Line, turns: seq<P.Turn>) returns (more: seq<P.Turn>)
    requires P.Init(s) && CanEnd(P.Run(s, turns))
    ensures turns <= more && P.Run(s, more).stage.Exited?
    decreases Coming(P.Run(s, turns).inp), StageRank(P.Run(s, turns)), Helpers(P.Run(s, turns)), Toil(P.Run(s, turns))
  {
    var t := P.Run(s, turns);
    RunGood(s, turns);
    more := turns;
    if !t.stage.Exited? {
      var a, c := SomeStepNears(t);
      CanEndStep(t, a, c);
      var next := turns + [P.Turn(a, c)];
      assert next[..|turns|] == turns;
      ToilNonnegative(t);
      ToilNonnegative(P.Run(s, next));
      more := Finishes(s, next);
    }
  }

  // ---- and otherwise it cannot ----

  lemma AdvanceGrows(t: P.Line, a: P.Actor, c: Choice)
    ensures Grows(t, P.Advance(t, a, c))
  {
    if P.Next(t, a, c).Some? {
      LineGrows(t, a, c);
    }
  }

  lemma {:induction false} RunGrows(s: P.Line, turns: seq<P.Turn>, n: nat)
    requires n <= |turns|
    ensures Grows(P.Run(s, turns[..n]), P.Run(s, turns))
  {
    if n == |turns| {
      assert turns[..n] == turns;
    } else {
      var front, last := turns[..|turns| - 1], turns[|turns| - 1];
      RunGrows(s, front, n);
      assert front[..n] == turns[..n];
      AdvanceGrows(P.Run(s, front), last.a, last.c);
    }
  }

  lemma OwnNeverEnds(t: P.Line, a: P.Actor, c: Choice)
    requires LineInv(t) && |t.inp.procs| == 1
    ensures P.Advance(t, a, c).inp.depletions == t.inp.depletions
  {
    if a.Processor? && t.stage.Fetching? && P.FetchNext(t, c).Some? {
      OwnTake(t.inp, c.(op := Consume));
    }
  }

  /** With only the processor at the first channel, nobody declares it depleted. */
  lemma {:induction false} NobodyEnds(s: P.Line, turns: seq<P.Turn>)
    requires P.Init(s) && |s.inp.procs| == 1
    ensures P.Run(s, turns).inp.depletions == 0
  {
    if turns != [] {
      var front, last := turns[..|turns| - 1], turns[|turns| - 1];
      NobodyEnds(s, front);
      RunGrows(s, front, 0);
      RunLine(s, front);
      OwnNeverEnds(P.Run(s, front), last.a, last.c);
    }
  }

  lemma FlushTakesNone(t: P.Line, pos: nat, c: Choice)
    requires |t.out.procs| > 0 && !t.out.procs[0].SetEmpty? && P.FlushNext(t, pos, c).Some?
    ensures P.FlushNext(t, pos, c).value.out.taken == t.out.taken
  {
    TakenStep(t.out, 0, c.(op := Produce(t.outBuf)));
  }

  lemma CloseTakesNone(t: P.Line, c: Choice)
    requires |t.out.procs| > 0 && !t.out.procs[0].SetEmpty? && P.CloseNext(t, c).Some?
    ensures P.CloseNext(t, c).value.out.taken == t.out.taken
  {
    TakenStep(t.out, 0, c.(op := Deplete));
  }

  lemma OwnTakesNone(t: P.Line, c: Choice)
    requires |t.out.procs| > 0 && !t.out.procs[0].SetEmpty? && P.Next(t, P.Processor, c).Some?
    ensures P.Next(t, P.Processor, c).value.out.taken == t.out.taken
  {
    match t.stage
    case Flushing(pos) => FlushTakesNone(t, pos, c);
    case Closing => CloseTakesNone(t, c);
    case _ =>
  }

  lemma AdvanceTakesNone(t: P.Line, a: P.Actor, c: Choice)
    requires |t.out.procs| == 1 && !t.out.procs[0].SetEmpty?
    ensures P.Advance(t, a, c).out.taken == t.out.taken
  {
    if a.Processor? && P.Next(t, a, c).Some? {
      OwnTakesNone(t, c);
    }
  }

  lemma PutsOnly(s: P.Line, turns: seq<P.Turn>)
    requires P.Init(s)
    ensures var t := P.Run(s, turns); |t.out.procs| > 0 && !t.out.procs[0].SetEmpty?
  {
    RunLine(s, turns);
    assert InPlace(P.Run(s, turns));
  }

  /** With only the processor at the second channel, nobody takes from it. */
  lemma {:induction false} NobodyTakes(s: P.Line, turns: seq<P.Turn>)
    requires P.Init(s) && |s.out.procs| == 1
    ensures P.Run(s, turns).out.taken == []
  {
    if turns != [] {
      var front, last := turns[..|turns| - 1], turns[|turns| - 1];
      NobodyTakes(s, front);
      RunGrows(s, front, 0);
      PutsOnly(s, front);
      AdvanceTakesNone(P.Run(s, front), last.a, last.c);
    }
  }

  lemma ExitNeeds(s: P.Line, turns: seq<P.Turn>, more: seq<P.Turn>)
    requires P.Init(s) && turns <= more && P.Run(s, more).stage.Exited?
    ensures |s.inp.procs| > 1 && (|s.out.procs| > 1 || |Output(P.Run(s, turns).inp.taken)| <= 1)
  {
    EndFollowsEnd(s, more);
    if |s.inp.procs| == 1 {
      NobodyEnds(s, more);
    }
    if |s.out.procs| == 1 {
      NobodyTakes(s, more);
      ProcessorGone(s, more);
      assert more[..|turns|] == turns;
      RunGrows(s, more, |turns|);
      OutputPrefix(P.Run(s, turns).inp.taken, P.Run(s, more).inp.taken);
    }
  }

  /**
   Once no block is on its way into the first channel, some continuation brings the processor to its exit if and only
   if somebody else is at the first channel, to declare it depleted, and somebody else is at the second or the
   processor's whole output for what it has taken is one block at most.
   */
  lemma FinishesExactly(s: P.Line, turns: seq<P.Turn>)
    requires P.Init(s) && Coming(P.Run(s, turns).inp) == 0
    ensures (exists more :: turns <= more && P.Run(s, more).stage.Exited?)
      <==> |s.inp.procs| > 1 && (|s.out.procs| > 1 || |Output(P.Run(s, turns).inp.taken)| <= 1)
  {
    RunGrows(s, turns, 0);
    if CanEnd(P.Run(s, turns)) {
      var more := Finishes(s, turns);
    }
    if more :| turns <= more && P.Run(s, more).stage.Exited? {
      ExitNeeds(s, turns, more);
    }
  }
}
