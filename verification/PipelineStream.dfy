/** What comes out of the second channel is what went into the first, every byte twice. */
module PipelineStream {
  import opened Counting
  import opened Channel
  import opened ChannelStream
  import opened Doubler
  import P = Pipeline

  // ---- who may be where ----

  /** Program counters of channel_consume. */
  predicate Taker(pc: Pc)
  {
    match pc
    case Lock(op) => op.Consume?
    case Inside(op) => op.Consume?
    case Waiting(op) => op.Consume?
    case Woken(op) => op.Consume?
    case CopyIn(_) => false
    case SetLength(_) => false
    case SetOccupied(_) => false
    case WakeConsumers(_) => false
    case _ => true
  }

  /** All the others. */
  predicate Feeder(pc: Pc)
  {
    match pc
    case Lock(op) => !op.Consume?
    case Inside(op) => !op.Consume?
    case Waiting(op) => !op.Consume?
    case Woken(op) => !op.Consume?
    case CopyOut => false
    case SetEmpty(_) => false
    case WakeProducer => false
    case _ => true
  }

  /** In channel_produce with block b, before the block is in the channel. */
  predicate BeforePut(pc: Pc, b: Block)
  {
    match pc
    case Idle => true
    case Lock(op) => op == Produce(b)
    case Inside(op) => op == Produce(b)
    case Waiting(op) => op == Produce(b)
    case Woken(op) => op == Produce(b)
    case CopyIn(x) => x == b
    case SetLength(x) => x == b
    case SetOccupied(x) => x == b
    case _ => false
  }

  predicate AfterPut(pc: Pc) { pc == WakeConsumers(false) || pc.Unlock? }

  predicate BeforeEnd(pc: Pc) { pc.Idle? || pc == Lock(Deplete) || pc == Inside(Deplete) }

  predicate AfterEnd(pc: Pc) { pc == WakeConsumers(true) || pc.Unlock? }

  ghost predicate OthersFeed(u: State) { |u.procs| > 0 && forall i :: 0 < i < |u.procs| ==> Feeder(u.procs[i]) }

  ghost predicate OthersTake(u: State) { |u.procs| > 0 && forall i :: 0 < i < |u.procs| ==> Taker(u.procs[i]) }

  // ---- the ledger ----

  /** The bytes of the current block not yet stored. */
  function Rest(inBuf: Block, pos: nat): seq<char>
  {
    if pos <= |Doubled(inBuf)| then Doubled(inBuf)[pos..] else []
  }

  /** What the processor still has to put for the blocks it has taken. */
  function Pending(s: P.Line): seq<Block>
    requires |s.out.procs| > 0
  {
    match s.stage
    case Fetching => if s.ret.Some? then Cut(Doubled(s.ret.value)) else []
    case Doubling(pos) => Cut(s.outBuf + Rest(s.inBuf, pos))
    case Flushing(pos) => (if AfterPut(s.out.procs[0]) then [] else [s.outBuf]) + Cut(Rest(s.inBuf, pos))
    case Closing => []
    case Exited => []
  }

  ghost predicate Ledger(s: P.Line)
  {
    |s.out.procs| > 0 && Blocks(s.out.log) + Pending(s) == Output(s.inp.taken)
  }

  /** The processor is where its stage says in both channels. */
  ghost predicate InPlace(s: P.Line)
    requires |s.inp.procs| > 0 && |s.out.procs| > 0
  {
    var a, b := s.inp.procs[0], s.out.procs[0];
    match s.stage
    case Fetching =>
      && Taker(a) && b.Idle? && s.outBuf == [] && (s.ret.Some? ==> a.WakeProducer? || a.Unlock?)
      && (s.ret.Some? ==> |s.ret.value| <= CHANNEL_SIZE) && (a.WakeProducer? ==> s.ret.Some?) && (a.Unlock? && s.ret.None? ==> s.inp.depletions > 0)
    case Doubling(pos) => a.Idle? && b.Idle? && pos <= 2 * |s.inBuf| && |s.outBuf| < CHANNEL_SIZE && s.ret.None?
    case Flushing(pos) =>
      && a.Idle? && (BeforePut(b, s.outBuf) || AfterPut(b)) && s.ret.None?
      && pos <= 2 * |s.inBuf| && 1 <= |s.outBuf| <= CHANNEL_SIZE && (|s.outBuf| == CHANNEL_SIZE || pos == 2 * |s.inBuf|)
    case Closing => a.Idle? && (BeforeEnd(b) || AfterEnd(b)) && s.inp.depletions > 0
    case Exited => a.Idle? && b.Idle? && s.inp.depletions > 0
  }

  /** Whether the processor has declared the second channel depleted. */
  predicate HasEnded(s: P.Line)
    requires |s.out.procs| > 0
  {
    s.stage.Exited? || (s.stage.Closing? && AfterEnd(s.out.procs[0]))
  }

  ghost predicate EndOk(s: P.Line)
    requires |s.out.procs| > 0
  {
    s.out.depletions == (if HasEnded(s) then 1 else 0) && (HasEnded(s) ==> s.out.status.Depleted?)
  }

  ghost predicate Placed(s: P.Line)
  {
    Inv(s.inp) && Inv(s.out) && OthersFeed(s.inp) && OthersTake(s.out) && InPlace(s) && EndOk(s)
  }

  ghost predicate LineInv(s: P.Line) { Placed(s) && Ledger(s) }

  // ---- steps of the other processes ----

  lemma FeederStep(u: State, i: nat, c: Choice)
    requires Inv(u) && OthersFeed(u) && i > 0 && !c.op.Consume? && Next(u, i, c).Some?
    ensures var t := Next(u, i, c).value;
      && Inv(t) && OthersFeed(t) && t.taken == u.taken && t.depletions >= u.depletions
      && |t.procs| == |u.procs| && Bystander(u.procs[0], t.procs[0])
  {
    Step(u, i, c);
    assert ProcOk(u, i) && Feeder(u.procs[i]);
  }

  lemma TakerStep(u: State, i: nat, c: Choice)
    requires Inv(u) && OthersTake(u) && i > 0 && c.op.Consume? && Next(u, i, c).Some?
    ensures var t := Next(u, i, c).value;
      && Inv(t) && OthersTake(t) && t.log == u.log && t.depletions == u.depletions && (u.status.Depleted? ==> t.status.Depleted?)
      && |t.procs| == |u.procs| && Bystander(u.procs[0], t.procs[0])
  {
    Step(u, i, c);
    assert ProcOk(u, i) && Taker(u.procs[i]);
  }

  lemma InputStep(s: P.Line, i: nat, c: Choice)
    requires LineInv(s) && P.InputNext(s, i, c).Some?
    ensures LineInv(P.InputNext(s, i, c).value)
  {
    FeederStep(s.inp, i, c);
  }

  lemma OutputStep(s: P.Line, i: nat, c: Choice)
    requires LineInv(s) && P.OutputNext(s, i, c).Some?
    ensures LineInv(P.OutputNext(s, i, c).value)
  {
    TakerStep(s.out, i, c);
  }

  // ---- steps of the processor ----

  /** Process 0 inside channel_consume, the others feeding. */
  lemma OwnTake(u: State, c: Choice)
    requires Inv(u) && OthersFeed(u) && Taker(u.procs[0]) && c.op.Consume? && Next(u, 0, c).Some?
    ensures var t := Next(u, 0, c).value;
      && Inv(t) && OthersFeed(t) && Taker(t.procs[0]) && t.depletions == u.depletions
      && t.taken == u.taken + (if u.procs[0].SetEmpty? then [u.procs[0].buf] else [])
    ensures var a, b := u.procs[0], Next(u, 0, c).value.procs[0];
      && (b.WakeProducer? <==> a.SetEmpty?) && (a.Unlock? <==> b.Idle?) && (a.WakeProducer? ==> b.Unlock?)
      && (b.Unlock? && !a.WakeProducer? ==> u.depletions > 0) && (a.SetEmpty? ==> |a.buf| <= CHANNEL_SIZE)
  {
    Step(u, 0, c);
    assert ProcOk(u, 0);
  }

  lemma OutputMore(blocks: seq<Block>, b: Block)
    ensures Output(blocks + [b]) == Output(blocks) + Cut(Doubled(b))
  {
    assert (blocks + [b])[..|blocks + [b]| - 1] == blocks;
  }

  lemma FetchPlaced(s: P.Line, c: Choice)
    requires Placed(s) && s.stage.Fetching? && P.FetchNext(s, c).Some?
    ensures Placed(P.FetchNext(s, c).value)
  {
    OwnTake(s.inp, c.(op := Consume));
  }

  lemma RestWhole(inBuf: Block)
    ensures [] + Rest(inBuf, 0) == Doubled(inBuf)
  {
  }

  /** What channel_consume has taken is pending from then on. */
  lemma FetchPending(s: P.Line, c: Choice)
    requires Placed(s) && s.stage.Fetching? && P.FetchNext(s, c).Some?
    ensures var t := P.FetchNext(s, c).value; t.out == s.out
    ensures var t := P.FetchNext(s, c).value; var pc := s.inp.procs[0];
      if pc.SetEmpty? then Pending(s) == [] && Pending(t) == Cut(Doubled(pc.buf)) && t.inp.taken == s.inp.taken + [pc.buf]
      else Pending(t) == Pending(s) && t.inp.taken == s.inp.taken
  {
    OwnTake(s.inp, c.(op := Consume));
    if s.inp.procs[0].Unlock? && s.ret.Some? {
      RestWhole(s.ret.value);
    }
  }

  lemma FetchStep(s: P.Line, c: Choice)
    requires LineInv(s) && s.stage.Fetching? && P.FetchNext(s, c).Some?
    ensures LineInv(P.FetchNext(s, c).value)
  {
    FetchPlaced(s, c);
    FetchPending(s, c);
    if s.inp.procs[0].SetEmpty? {
      OutputMore(s.inp.taken, s.inp.procs[0].buf);
      assert Blocks(s.out.log) + [] == Blocks(s.out.log);
    }
  }

  /** A full buffer, or the last one, is the next block to put. */
  lemma CutFlush(buf: Block, rest: seq<char>)
    requires 1 <= |buf| <= CHANNEL_SIZE && (|buf| == CHANNEL_SIZE || rest == [])
    ensures Cut(buf + rest) == [buf] + Cut(rest)
  {
    if rest == [] {
      assert buf + rest == buf;
    } else {
      assert (buf + rest)[..CHANNEL_SIZE] == buf && (buf + rest)[CHANNEL_SIZE..] == rest;
    }
  }

  lemma Regroup(buf: seq<char>, x: char, rest: seq<char>)
    ensures buf + ([x] + rest) == (buf + [x]) + rest
  {
  }

  /** One more byte of the current block in the buffer. */
  lemma RestStep(inBuf: Block, pos: nat)
    requires pos < 2 * |inBuf|
    ensures Rest(inBuf, pos) == [inBuf[pos / 2]] + Rest(inBuf, pos + 1)
  {
    DoubledLength(inBuf);
    var d := Doubled(inBuf);
    assert d[pos..] == [d[pos]] + d[pos + 1..];
  }

  lemma RestDone(inBuf: Block)
    ensures Rest(inBuf, 2 * |inBuf|) == []
  {
    DoubledLength(inBuf);
  }

  lemma StorePending(s: P.Line, pos: nat)
    requires |s.inp.procs| > 0 && |s.out.procs| > 0 && InPlace(s) && s.stage == P.Doubling(pos)
    ensures Pending(P.StoreNext(s, pos)) == Pending(s)
  {
    if pos < 2 * |s.inBuf| {
      var x, rest := s.inBuf[pos / 2], Rest(s.inBuf, pos + 1);
      RestStep(s.inBuf, pos);
      Regroup(s.outBuf, x, rest);
      if |s.outBuf + [x]| == CHANNEL_SIZE {
        CutFlush(s.outBuf + [x], rest);
      }
    } else {
      RestDone(s.inBuf);
      if s.outBuf != [] {
        CutFlush(s.outBuf, []);
      }
    }
  }

  lemma StoreStep(s: P.Line, pos: nat)
    requires LineInv(s) && s.stage == P.Doubling(pos)
    ensures LineInv(P.StoreNext(s, pos))
  {
    StorePending(s, pos);
  }

  /** Process 0 inside channel_produce with b, the others taking. */
  lemma OwnPut(u: State, b: Block, c: Choice)
    requires Inv(u) && OthersTake(u) && (BeforePut(u.procs[0], b) || AfterPut(u.procs[0])) && c.op == Produce(b) && Next(u, 0, c).Some?
    ensures var t := Next(u, 0, c).value;
      && Inv(t) && OthersTake(t) && t.depletions == u.depletions
      && t.log == u.log + (if BeforePut(u.procs[0], b) && AfterPut(t.procs[0]) then [Sent(b, false)] else [])
    ensures var pc, now := u.procs[0], Next(u, 0, c).value.procs[0];
      if pc.Unlock? then now.Idle?
      else (BeforePut(now, b) || AfterPut(now)) && (AfterPut(pc) ==> AfterPut(now)) && !now.Idle?
  {
    Step(u, 0, c);
    assert ProcOk(u, 0);
  }

  lemma BlocksMore(log: seq<Sent>, b: Block)
    ensures Blocks(log + [Sent(b, false)]) == Blocks(log) + [b]
  {
  }

  lemma FlushPlaced(s: P.Line, pos: nat, c: Choice)
    requires Placed(s) && s.stage == P.Flushing(pos) && P.FlushNext(s, pos, c).Some?
    ensures Placed(P.FlushNext(s, pos, c).value)
  {
    OwnPut(s.out, s.outBuf, c.(op := Produce(s.outBuf)));
  }

  /** The buffer is pending until it is in the log. */
  lemma FlushPending(s: P.Line, pos: nat, c: Choice)
    requires Placed(s) && s.stage == P.Flushing(pos) && P.FlushNext(s, pos, c).Some?
    ensures var t := P.FlushNext(s, pos, c).value; t.inp == s.inp && |t.out.procs| > 0
    ensures var t := P.FlushNext(s, pos, c).value;
      if t.out.log == s.out.log then Pending(t) == Pending(s)
      else t.out.log == s.out.log + [Sent(s.outBuf, false)] && Pending(s) == [s.outBuf] + Pending(t)
  {
    OwnPut(s.out, s.outBuf, c.(op := Produce(s.outBuf)));
    assert [] + Rest(s.inBuf, pos) == Rest(s.inBuf, pos);
    assert [] + Cut(Rest(s.inBuf, pos)) == Cut(Rest(s.inBuf, pos));
  }

  lemma FlushStep(s: P.Line, pos: nat, c: Choice)
    requires LineInv(s) && s.stage == P.Flushing(pos) && P.FlushNext(s, pos, c).Some?
    ensures LineInv(P.FlushNext(s, pos, c).value)
  {
    FlushPlaced(s, pos, c);
    FlushPending(s, pos, c);
    BlocksMore(s.out.log, s.outBuf);
  }

  /** Process 0 declaring the channel depleted, the others taking. */
  lemma OwnEnd(u: State, c: Choice)
    requires Inv(u) && OthersTake(u) && (BeforeEnd(u.procs[0]) || AfterEnd(u.procs[0])) && c.op == Deplete && Next(u, 0, c).Some?
    ensures var t := Next(u, 0, c).value;
      && Inv(t) && OthersTake(t) && Blocks(t.log) == Blocks(u.log)
      && t.depletions == u.depletions + (if u.procs[0] == Inside(Deplete) then 1 else 0)
      && (u.status.Depleted? || u.procs[0] == Inside(Deplete) ==> t.status.Depleted?)
    ensures var pc, now := u.procs[0], Next(u, 0, c).value.procs[0];
      && (pc == Inside(Deplete) ==> AfterEnd(now) && !now.Unlock?) && (pc.Unlock? ==> now.Idle?)
      && (pc == WakeConsumers(true) ==> now.Unlock?) && (pc.Idle? || pc == Lock(Deplete) ==> BeforeEnd(now) && !now.Idle?)
  {
    Step(u, 0, c);
    assert ProcOk(u, 0);
  }

  lemma CloseStep(s: P.Line, c: Choice)
    requires LineInv(s) && s.stage.Closing? && P.CloseNext(s, c).Some?
    ensures LineInv(P.CloseNext(s, c).value)
  {
    OwnEnd(s.out, c.(op := Deplete));
  }

  lemma LineStep(s: P.Line, a: P.Actor, c: Choice)
    requires LineInv(s) && P.Next(s, a, c).Some?
    ensures LineInv(P.Next(s, a, c).value)
  {
    match a
    case AtInput(i) => InputStep(s, i, c);
    case AtOutput(i) => OutputStep(s, i, c);
    case Processor =>
      match s.stage
      case Fetching => FetchStep(s, c);
      case Doubling(pos) => StoreStep(s, pos);
      case Flushing(pos) => FlushStep(s, pos, c);
      case Closing => CloseStep(s, c);
      case Exited =>
  }

  lemma AdvanceKeeps(s: P.Line, a: P.Actor, c: Choice)
    requires LineInv(s)
    ensures LineInv(P.Advance(s, a, c))
  {
    if P.Next(s, a, c).Some? {
      LineStep(s, a, c);
    }
  }

  lemma {:induction false} RunLine(s: P.Line, turns: seq<P.Turn>)
    requires P.Init(s)
    ensures LineInv(P.Run(s, turns))
  {
    if turns == [] {
      RunInv(s.inp, []);
      RunInv(s.out, []);
      assert Channel.Run(s.inp, []) == s.inp && Channel.Run(s.out, []) == s.out;
    } else {
      RunLine(s, turns[..|turns| - 1]);
      var u := P.Run(s, turns[..|turns| - 1]);
      var last := turns[|turns| - 1];
      AdvanceKeeps(u, last.a, last.c);
    }
  }

  // ---- what follows ----

  /** In every reachable state the blocks put into the second channel, with those pending, are the processor's output for the blocks taken. */
  lemma LedgerBalances(s: P.Line, turns: seq<P.Turn>)
    requires P.Init(s)
    ensures var t := P.Run(s, turns); |t.out.procs| > 0 && Blocks(t.out.log) + Pending(t) == Output(t.inp.taken)
  {
    RunLine(s, turns);
  }

  /** The second channel is declared depleted at most once, after the first one, and by the processor on its way out. */
  lemma EndFollowsEnd(s: P.Line, turns: seq<P.Turn>)
    requires P.Init(s)
    ensures var t := P.Run(s, turns);
      && t.out.depletions <= 1
      && (t.out.depletions == 1 ==> t.inp.depletions > 0 && (t.stage.Closing? || t.stage.Exited?) && t.out.status.Depleted?)
      && (t.stage.Exited? ==> t.out.depletions == 1)
  {
    RunLine(s, turns);
  }

  /** What is taken from the second channel, and what is in it, were put there in order. */
  lemma OutTaken(t: P.Line)
    requires LineInv(t)
    ensures t.out.taken <= Blocks(t.out.log)
  {
    var log := t.out.log;
    NothingLost(log);
    if t.out.depletions == 1 {
      AllButTheLast(log);
    }
  }

  /**
   At any time what has come out of the second channel is a prefix of the doubled bytes of the blocks put into the
   first and not lost there.
   */
  lemma PipelinePrefix(s: P.Line, turns: seq<P.Turn>)
    requires P.Init(s)
    ensures var t := P.Run(s, turns); Concat(t.out.taken) <= Doubled(Concat(Kept(t.inp.log)))
  {
    RunLine(s, turns);
    var t := P.Run(s, turns);
    OutTaken(t);
    OutputPrefix(t.inp.taken, Kept(t.inp.log));
    ConcatPrefix(t.out.taken, Output(Kept(t.inp.log)));
    OutputDoubles(Kept(t.inp.log));
  }

  /** The slot is empty and no depletion has hit a full one. */
  predicate Drained(s: State) { Slot(s) == [] && Losses(s.log) == 0 }

  lemma TakenIsAll(u: State)
    requires Inv(u) && Drained(u)
    ensures u.taken == Blocks(u.log)
  {
    NothingLost(u.log);
  }

  /** The processor has put everything it has taken. */
  predicate NothingPending(t: P.Line) { (t.stage.Fetching? && t.ret.None?) || t.stage.Closing? || t.stage.Exited? }

  lemma OutputAllPut(t: P.Line)
    requires LineInv(t) && NothingPending(t)
    ensures Blocks(t.out.log) == Output(t.inp.taken)
  {
    assert Pending(t) == [];
  }

  /**
   When nothing is pending and both channels are drained, what has come out is exactly the doubled bytes of all that
   was put in.
   */
  lemma PipelineDoubles(s: P.Line, turns: seq<P.Turn>)
    requires P.Init(s) && NothingPending(P.Run(s, turns))
    requires Drained(P.Run(s, turns).inp) && Drained(P.Run(s, turns).out)
    ensures Concat(P.Run(s, turns).out.taken) == Doubled(Concat(Blocks(P.Run(s, turns).inp.log)))
  {
    RunLine(s, turns);
    var t := P.Run(s, turns);
    OutputAllPut(t);
    TakenIsAll(t.inp);
    TakenIsAll(t.out);
    OutputDoubles(t.inp.taken);
  }

  /** When the processor has gone it has put its whole output, and all of it, or all but the last block, comes out. */
  lemma ProcessorGone(s: P.Line, turns: seq<P.Turn>)
    requires P.Init(s)
    ensures var t := P.Run(s, turns); t.stage.Exited? ==>
      && Blocks(t.out.log) == Output(t.inp.taken)
      && t.out.taken <= Output(t.inp.taken) && |Output(t.inp.taken)| - 1 <= |t.out.taken|
  {
    RunLine(s, turns);
    var t := P.Run(s, turns);
    if t.stage.Exited? {
      AllButTheLast(t.out.log);
    }
  }
}
