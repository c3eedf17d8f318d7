/** The processor's code on its two buffers and the two shared structs, in place. */
module PipelineProcess {
  import opened Counting
  import opened Channel
  import opened ChannelMemory
  import opened PipelineStream
  import P = Pipeline

  class ProcessorProcess {
    const chIn: SharedChannel
    const chOut: SharedChannel
    const inBuf: array<char>
    const outBuf: array<char>
    var inLen: nat
    var outLen: nat
    var stage: P.Stage
    var ret: Option<Block>

    ghost predicate Valid()
      reads this
    {
      && chIn != chOut && chIn.data != chOut.data && chIn.procs != chOut.procs
      && inBuf != outBuf && inBuf != chIn.data && inBuf != chOut.data && outBuf != chIn.data && outBuf != chOut.data
      && inBuf.Length == outBuf.Length == CHANNEL_SIZE && inLen <= CHANNEL_SIZE && outLen <= CHANNEL_SIZE
    }

    ghost function View(): P.Line
      requires Valid()
      reads this, chIn, chIn.data, chIn.procs, chOut, chOut.data, chOut.procs, inBuf, outBuf
    {
      P.Line(chIn.View(), chOut.View(), stage, inBuf[..inLen], outBuf[..outLen], ret)
    }

    /** main up to its loop, on two channels shared with n - 1 and m - 1 other processes. */
    constructor (n: nat, m: nat)
      requires n > 0 && m > 0
      ensures fresh(chIn) && fresh(chOut) && fresh(inBuf) && fresh(outBuf)
      ensures Valid() && P.Init(View()) && LineInv(View())
    {
      chIn := new SharedChannel(n);
      chOut := new SharedChannel(m);
      inBuf := new char[CHANNEL_SIZE](_ => '\0');
      outBuf := new char[CHANNEL_SIZE](_ => '\0');
      inLen, outLen, stage, ret := 0, 0, P.Fetching, None;
      new;
      RunLine(View(), []);
    }

    /** A step of channel_consume on the first channel, and what the loop does with its return. */
    method FetchTurn(c: Choice) returns (moved: bool)
      requires Valid() && stage.Fetching? && chIn.procs.Length > 0 && (ret.Some? ==> |ret.value| <= CHANNEL_SIZE)
      modifies this`stage, this`inLen, this`ret, inBuf, chIn, chIn.data, chIn.procs
      ensures Valid()
      ensures match P.FetchNext(old(View()), c)
        case None => !moved && View() == old(View())
        case Some(t) => moved && View() == t
    {
      var pc := chIn.procs[0];
      moved := chIn.TakeTurn(0, c.(op := Consume));
      if moved {
        match pc
        case SetEmpty(buf) => ret := Some(buf);
        case Unlock =>
          if ret.Some? {
            var block := ret.value;
            forall k | 0 <= k < |block| {
              inBuf[k] := block[k];
            }
            inLen, stage, ret := |block|, P.Doubling(0), None;
          } else {
            stage := P.Closing;
          }
        case _ =>
      }
    }

    /** A store into out_buf and the test after it, or the end of the for loop. */
    method StoreTurn()
      requires Valid() && stage.Doubling? && outLen < CHANNEL_SIZE
      modifies this`stage, this`outLen, outBuf
      ensures Valid() && View() == P.StoreNext(old(View()), old(stage.pos))
    {
      var pos := stage.pos;
      if pos < 2 * inLen {
        outBuf[outLen] := inBuf[pos / 2];
        outLen := outLen + 1;
        stage := if outLen == CHANNEL_SIZE then P.Flushing(pos + 1) else P.Doubling(pos + 1);
      } else {
        stage := if outLen > 0 then P.Flushing(pos) else P.Fetching;
      }
    }

    /** A step of channel_produce on the second channel; on its return out_len is 0 again. */
    method FlushTurn(c: Choice) returns (moved: bool)
      requires Valid() && stage.Flushing? && chOut.procs.Length > 0
      modifies this`stage, this`outLen, chOut, chOut.data, chOut.procs
      ensures Valid()
      ensures match P.FlushNext(old(View()), old(stage.pos), c)
        case None => !moved && View() == old(View())
        case Some(t) => moved && View() == t
    {
      var pc := chOut.procs[0];
      moved := chOut.TakeTurn(0, c.(op := Produce(outBuf[..outLen])));
      if moved && pc.Unlock? {
        stage, outLen := P.Doubling(stage.pos), 0;
      }
    }

    /** The last four lines before the channels are closed. */
    method CloseTurn(c: Choice) returns (moved: bool)
      requires Valid() && stage.Closing? && chOut.procs.Length > 0
      modifies this`stage, chOut, chOut.data, chOut.procs
      ensures Valid()
      ensures match P.CloseNext(old(View()), c)
        case None => !moved && View() == old(View())
        case Some(t) => moved && View() == t
    {
      var pc := chOut.procs[0];
      moved := chOut.TakeTurn(0, c.(op := Deplete));
      if moved && pc.Unlock? {
        stage := P.Exited;
      }
    }

    /** Any turn of the processor. */
    method TakeTurn(c: Choice) returns (moved: bool)
      requires Valid() && LineInv(View())
      modifies this, inBuf, outBuf, chIn, chIn.data, chIn.procs, chOut, chOut.data, chOut.procs
      ensures Valid()
      ensures match P.Next(old(View()), P.Processor, c)
        case None => !moved && View() == old(View())
        case Some(t) => moved && View() == t
    {
      moved := true;
      match stage
      case Fetching => moved := FetchTurn(c);
      case Doubling(_) => StoreTurn();
      case Flushing(_) => moved := FlushTurn(c);
      case Closing => moved := CloseTurn(c);
      case Exited => moved := false;
    }

    /** A whole schedule of the processor and of the other processes at both channels. */
    method Schedule(turns: seq<P.Turn>)
      requires Valid() && LineInv(View())
      modifies this, inBuf, outBuf, chIn, chIn.data, chIn.procs, chOut, chOut.data, chOut.procs
      ensures Valid() && View() == P.Run(old(View()), turns) && LineInv(View())
    {
      var n := 0;
      while n < |turns|
        invariant 0 <= n <= |turns| && Valid() && View() == P.Run(old(View()), turns[..n]) && LineInv(View())
      {
        P.RunMore(old(View()), turns, n);
        AdvanceKeeps(View(), turns[n].a, turns[n].c);
        Turn(turns[n].a, turns[n].c);
        n := n + 1;
      }
      assert turns[..n] == turns;
    }

    /** One turn of anybody. */
    method Turn(a: P.Actor, c: Choice)
      requires Valid() && LineInv(View())
      modifies this, inBuf, outBuf, chIn, chIn.data, chIn.procs, chOut, chOut.data, chOut.procs
      ensures Valid()
      ensures View() == P.Advance(old(View()), a, c)
    {
      var moved;
      match a
      case Processor => moved := TakeTurn(c);
      case AtInput(i) =>
        if i > 0 && !c.op.Consume? {
          moved := chIn.TakeTurn(i, c);
        }
      case AtOutput(i) =>
        if i > 0 && c.op.Consume? {
          moved := chOut.TakeTurn(i, c);
        }
    }
  }
}
