/**
 The processor at work between two channels, each shared with any number of other processes: the others only put
 into the first channel (and may declare it depleted) and only take from the second.
 */
module Pipeline {
  import opened Counting
  import opened Channel

  /** Where the processor stands; pos counts the stores into out_buf made for the current block, so i is pos / 2. */
  datatype Stage =
    | Fetching                  // in channel_consume on the first channel
    | Doubling(pos: nat)        // in the for loop, or at the test after it
    | Flushing(pos: nat)        // in channel_produce on the second channel
    | Closing                   // declaring the second channel depleted
    | Exited

  /** ret is what channel_consume is about to return, outBuf is out_buf[..out_len].  The processor is process 0 of both. */
  datatype Line = Line(inp: State, out: State, stage: Stage, inBuf: Block, outBuf: Block, ret: Option<Block>)

  datatype Actor = Processor | AtInput(i: nat) | AtOutput(i: nat)

  ghost function InputNext(s: Line, i: nat, c: Choice): Option<Line>
  {
    if i == 0 || c.op.Consume? then None
    else match Channel.Next(s.inp, i, c) case None => None case Some(t) => Some(s.(inp := t))
  }

  ghost function OutputNext(s: Line, i: nat, c: Choice): Option<Line>
  {
    if i == 0 || !c.op.Consume? then None
    else match Channel.Next(s.out, i, c) case None => None case Some(t) => Some(s.(out := t))
  }

  /** A step of the processor inside channel_consume. */
  ghost function FetchNext(s: Line, c: Choice): Option<Line>
  {
    match Channel.Next(s.inp, 0, c.(op := Consume))
    case None => None
    case Some(t) =>
      (match s.inp.procs[0]
       case SetEmpty(buf) => Some(s.(inp := t, ret := Some(buf)))
       case Unlock =>
         if s.ret.Some? then Some(s.(inp := t, stage := Doubling(0), inBuf := s.ret.value, ret := None))
         else Some(s.(inp := t, stage := Closing))
       case _ => Some(s.(inp := t)))
  }

  /** A store into out_buf and the test for a full buffer; or the end of the loop. */
  function StoreNext(s: Line, pos: nat): Line
  {
    if pos < 2 * |s.inBuf| then
      var buf := s.outBuf + [s.inBuf[pos / 2]];
      s.(outBuf := buf, stage := if |buf| == CHANNEL_SIZE then Flushing(pos + 1) else Doubling(pos + 1))
    else s.(stage := if s.outBuf != [] then Flushing(pos) else Fetching)
  }

  ghost function FlushNext(s: Line, pos: nat, c: Choice): Option<Line>
  {
    match Channel.Next(s.out, 0, c.(op := Produce(s.outBuf)))
    case None => None
    case Some(t) => if s.out.procs[0].Unlock? then Some(s.(out := t, stage := Doubling(pos), outBuf := [])) else Some(s.(out := t))
  }

  ghost function CloseNext(s: Line, c: Choice): Option<Line>
  {
    match Channel.Next(s.out, 0, c.(op := Deplete))
    case None => None
    case Some(t) => if s.out.procs[0].Unlock? then Some(s.(out := t, stage := Exited)) else Some(s.(out := t))
  }

  ghost function Next(s: Line, a: Actor, c: Choice): Option<Line>
  {
    match a
    case AtInput(i) => InputNext(s, i, c)
    case AtOutput(i) => OutputNext(s, i, c)
    case Processor =>
      match s.stage
      case Fetching => FetchNext(s, c)
      case Doubling(pos) => Some(StoreNext(s, pos))
      case Flushing(pos) => FlushNext(s, pos, c)
      case Closing => CloseNext(s, c)
      case Exited => None
  }

  /** The state after a turn of a: the same if it cannot move. */
  ghost function Advance(s: Line, a: Actor, c: Choice): Line
  {
    match Next(s, a, c) case None => s case Some(t) => t
  }

  datatype Turn = Turn(a: Actor, c: Choice)

  ghost function Run(s: Line, turns: seq<Turn>): Line
  {
    if turns == [] then s
    else
      var last := turns[|turns| - 1];
      Advance(Run(s, turns[..|turns| - 1]), last.a, last.c)
  }

  lemma RunMore(s: Line, turns: seq<Turn>, n: nat)
    requires n < |turns|
    ensures Run(s, turns[..n + 1]) == Advance(Run(s, turns[..n]), turns[n].a, turns[n].c)
  {
    assert turns[..n + 1][..n] == turns[..n];
  }

  /** Two fresh channels and the processor before its first call. */
  ghost predicate Init(s: Line)
  {
    && Channel.Init(s.inp) && Channel.Init(s.out) && |s.inp.procs| > 0 && |s.out.procs| > 0
    && s.stage == Fetching && s.inBuf == [] && s.outBuf == [] && s.ret == None
  }
}
