/** The processor between two channels: it puts every byte it takes twice, in blocks of at most 4096 bytes. */
module Doubler {
  import opened Channel
  import opened ChannelStream

  function Concat(blocks: seq<Block>): seq<char>
  {
    if blocks == [] then [] else Concat(blocks[..|blocks| - 1]) + blocks[|blocks| - 1]
  }

  function Doubled(s: seq<char>): seq<char>
  {
    if s == [] then [] else Doubled(s[..|s| - 1]) + [s[|s| - 1], s[|s| - 1]]
  }

  /** s cut into full blocks and a rest, none of them empty. */
  function Cut(s: seq<char>): (r: seq<Block>)
    ensures forall k :: 0 <= k < |r| ==> 1 <= |r[k]| <= CHANNEL_SIZE
  {
    if s == [] then []
    else if |s| <= CHANNEL_SIZE then [s]
    else [s[..CHANNEL_SIZE]] + Cut(s[CHANNEL_SIZE..])
  }

  /** What the processor puts for a sequence of blocks taken. */
  function Output(blocks: seq<Block>): seq<Block>
  {
    if blocks == [] then [] else Output(blocks[..|blocks| - 1]) + Cut(Doubled(blocks[|blocks| - 1]))
  }

  lemma {:induction false} ConcatAppend(a: seq<Block>, b: seq<Block>)
    ensures Concat(a + b) == Concat(a) + Concat(b)
  {
    if b == [] {
      assert a + b == a;
    } else {
      var front := b[..|b| - 1];
      ConcatAppend(a, front);
      assert (a + b)[..|a + b| - 1] == a + front;
    }
  }

  lemma {:induction false} DoubledAppend(a: seq<char>, b: seq<char>)
    ensures Doubled(a + b) == Doubled(a) + Doubled(b)
  {
    if b == [] {
      assert a + b == a;
    } else {
      var front := b[..|b| - 1];
      DoubledAppend(a, front);
      assert (a + b)[..|a + b| - 1] == a + front;
    }
  }

  /** Twice the length, and position k holds what position k/2 held. */
  lemma {:induction false} DoubledLength(s: seq<char>)
    ensures |Doubled(s)| == 2 * |s|
    ensures forall k :: 0 <= k < |Doubled(s)| ==> Doubled(s)[k] == s[k / 2]
  {
    if s != [] {
      var n := |s| - 1;
      DoubledLength(s[..n]);
      forall k | 0 <= k < |Doubled(s)|
        ensures Doubled(s)[k] == s[k / 2]
      {
        if k < 2 * n {
          assert Doubled(s)[k] == Doubled(s[..n])[k] == s[..n][k / 2];
        } else {
          assert k / 2 == n;
        }
      }
    }
  }

  ghost predicate AllFull(blocks: seq<Block>)
  {
    forall k :: 0 <= k < |blocks| ==> |blocks[k]| == CHANNEL_SIZE
  }

  /** Filling blocks one after another and flushing the rest is cutting the whole. */
  lemma {:induction false} CutIsGreedy(full: seq<Block>, rest: seq<char>)
    requires AllFull(full) && |rest| < CHANNEL_SIZE
    ensures Cut(Concat(full) + rest) == full + (if rest == [] then [] else [rest])
  {
    if full == [] {
      assert Concat(full) + rest == rest;
    } else {
      var head, tail := full[0], full[1..];
      CutIsGreedy(tail, rest);
      assert full == [head] + tail;
      ConcatAppend([head], tail);
      assert Concat([head]) == head;
      var s := Concat(full) + rest;
      assert s == head + (Concat(tail) + rest);
      assert s[..CHANNEL_SIZE] == head && s[CHANNEL_SIZE..] == Concat(tail) + rest;
      if tail != [] {
        FullIsNotEmpty(tail);
      }
    }
  }

  lemma FullIsNotEmpty(blocks: seq<Block>)
    requires AllFull(blocks) && blocks != []
    ensures Concat(blocks) != []
  {
    assert |blocks[|blocks| - 1]| == CHANNEL_SIZE;
  }

  lemma {:induction false} CutWhole(s: seq<char>)
    ensures Concat(Cut(s)) == s
    decreases |s|
  {
    if s == [] {
    } else if |s| <= CHANNEL_SIZE {
      assert Concat([s]) == s;
    } else {
      CutWhole(s[CHANNEL_SIZE..]);
      ConcatAppend([s[..CHANNEL_SIZE]], Cut(s[CHANNEL_SIZE..]));
      assert Concat([s[..CHANNEL_SIZE]]) == s[..CHANNEL_SIZE];
    }
  }

  /** The bytes put are the bytes taken, each twice; a block taken becomes at most two blocks put. */
  lemma {:induction false} OutputDoubles(blocks: seq<Block>)
    ensures Concat(Output(blocks)) == Doubled(Concat(blocks))
  {
    if blocks != [] {
      var front := blocks[..|blocks| - 1];
      var last := blocks[|blocks| - 1];
      OutputDoubles(front);
      CutWhole(Doubled(last));
      ConcatAppend(Output(front), Cut(Doubled(last)));
      DoubledAppend(Concat(front), last);
    }
  }

  lemma CutInTwo(s: seq<char>)
    requires |s| <= 2 * CHANNEL_SIZE
    ensures |Cut(s)| <= 2
  {
    if |s| > CHANNEL_SIZE {
      var rest := s[CHANNEL_SIZE..];
      assert |rest| <= CHANNEL_SIZE;
      assert |Cut(rest)| == 1;
    }
  }

  lemma {:induction false} OutputSizes(blocks: seq<Block>)
    requires forall k :: 0 <= k < |blocks| ==> |blocks[k]| <= CHANNEL_SIZE
    ensures forall k :: 0 <= k < |Output(blocks)| ==> 1 <= |Output(blocks)[k]| <= CHANNEL_SIZE
    ensures |Output(blocks)| <= 2 * |blocks|
  {
    if blocks != [] {
      OutputSizes(blocks[..|blocks| - 1]);
      DoubledLength(blocks[|blocks| - 1]);
      CutInTwo(Doubled(blocks[|blocks| - 1]));
    }
  }

  // ---- the loops ----

  /** One pass of the while loop: the bytes of inBuf[..inLen] through outBuf; put is what was produced. */
  method DoubleBlock(inBuf: array<char>, inLen: nat, outBuf: array<char>) returns (put: seq<Block>)
    requires inBuf != outBuf && inLen <= inBuf.Length && outBuf.Length == CHANNEL_SIZE
    modifies outBuf
    ensures put == Cut(Doubled(inBuf[..inLen]))
  {
    put := [];
    var outLen := 0;
    var i := 0;
    while i < inLen
      invariant 0 <= i <= inLen && 0 <= outLen < CHANNEL_SIZE
      invariant AllFull(put) && Concat(put) + outBuf[..outLen] == Doubled(inBuf[..i])
    {
      assert inBuf[..i + 1][..i] == inBuf[..i];
      ghost var before := Doubled(inBuf[..i]);
      put, outLen := PutByte(put, outBuf, outLen, inBuf[i]);
      put, outLen := PutByte(put, outBuf, outLen, inBuf[i]);
      assert Doubled(inBuf[..i + 1]) == before + [inBuf[i]] + [inBuf[i]];
      i := i + 1;
    }
    CutIsGreedy(put, outBuf[..outLen]);
    if outLen > 0 {
      put := put + [outBuf[..outLen]];
    }
  }

  /** out_buf[out_len++] = b, and a full buffer goes out. */
  method PutByte(sent: seq<Block>, outBuf: array<char>, outLen: nat, b: char) returns (put: seq<Block>, len: nat)
    requires outLen < CHANNEL_SIZE == outBuf.Length && AllFull(sent)
    modifies outBuf
    ensures len < CHANNEL_SIZE && AllFull(put)
    ensures Concat(put) + outBuf[..len] == Concat(sent) + old(outBuf[..outLen]) + [b]
  {
    outBuf[outLen] := b;
    put, len := sent, outLen + 1;
    assert outBuf[..len] == old(outBuf[..outLen]) + [b];
    if len == CHANNEL_SIZE {
      ConcatAppend(sent, [outBuf[..len]]);
      put := sent + [outBuf[..len]];
      assert Concat([outBuf[..len]]) == outBuf[..len];
      len := 0;
    }
  }

  /** The processor's main loop over the blocks it takes. */
  method Process(taken: seq<Block>) returns (put: seq<Block>)
    requires forall k :: 0 <= k < |taken| ==> |taken[k]| <= CHANNEL_SIZE
    ensures put == Output(taken)
    ensures Concat(put) == Doubled(Concat(taken))
    ensures forall k :: 0 <= k < |put| ==> 1 <= |put[k]| <= CHANNEL_SIZE
  {
    var inBuf := new char[CHANNEL_SIZE](_ => '\0');
    var outBuf := new char[CHANNEL_SIZE](_ => '\0');
    put := [];
    var n := 0;
    while n < |taken|
      invariant 0 <= n <= |taken| && put == Output(taken[..n])
    {
      forall k | 0 <= k < |taken[n]| {
        inBuf[k] := taken[n][k];
      }
      assert inBuf[..|taken[n]|] == taken[n];
      var more := DoubleBlock(inBuf, |taken[n]|, outBuf);
      put := put + more;
      assert taken[..n + 1][..n] == taken[..n];
      n := n + 1;
    }
    assert taken[..n] == taken;
    OutputDoubles(taken);
    OutputSizes(taken);
  }

  // ---- between two channels ----

  lemma ConcatPrefix(a: seq<Block>, b: seq<Block>)
    requires a <= b
    ensures Concat(a) <= Concat(b)
  {
    assert b == a + b[|a|..];
    ConcatAppend(a, b[|a|..]);
  }

  lemma {:induction false} OutputPrefix(a: seq<Block>, b: seq<Block>)
    requires a <= b
    ensures Output(a) <= Output(b)
  {
    if |a| < |b| {
      OutputPrefix(a, b[..|b| - 1]);
    } else {
      assert a == b;
    }
  }
}
