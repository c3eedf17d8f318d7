/** The UDP client: one datagram per chunk, resent until echoed, six times at most. */
module TransferClient {
  import opened Counting
  import opened TransferServer
  import opened TransferFile

  datatype Phase = Sending | Waiting | Finished(ok: bool)

  /** k counts the chunks already echoed, so plan[k] is the current one; tries is counter. */
  datatype Client = Client(plan: seq<Datagram>, k: nat, tries: nat, phase: Phase)

  /** A transfer of at least one datagram, numbered from 1, exactly the final one flagged last. */
  ghost predicate IsPlan(plan: seq<Datagram>)
  {
    |plan| > 0 && forall i :: 0 <= i < |plan| ==> plan[i].number == i + 1 && (plan[i].last <==> i == |plan| - 1)
  }

  function Fresh(plan: seq<Datagram>): Client { Client(plan, 0, 0, Sending) }

  /** counter++ and sendto. */
  function Sent(c: Client): Client { c.(tries := c.tries + 1, phase := Waiting) }

  /** After recv: the awaited echo moves to the next chunk, or ends when the chunk was short; else send again, or give up. */
  function Heard(c: Client, reply: Option<int>): Client
    requires c.k < |c.plan|
  {
    if reply == Some(c.plan[c.k].number) then
      (if c.plan[c.k].last then c.(phase := Finished(true)) else Client(c.plan, c.k + 1, 0, Sending))
    else c.(phase := if c.tries <= 5 then Sending else Finished(false))
  }

  /** The client after n sends, replies(j) being what it heard after send j. */
  ghost function After(plan: seq<Datagram>, replies: nat -> Option<int>, n: nat): (c: Client)
    requires IsPlan(plan)
    ensures c.plan == plan && c.k < |plan| && !c.phase.Waiting?
  {
    if n == 0 then Fresh(plan)
    else
      var c := After(plan, replies, n - 1);
      if c.phase.Sending? then Heard(Sent(c), replies(n - 1)) else c
  }

  ghost predicate SendIs(d: Datagram, j: nat, plan: seq<Datagram>, replies: nat -> Option<int>)
    requires IsPlan(plan)
  {
    var c := After(plan, replies, j);
    c.phase.Sending? && d == plan[c.k]
  }

  /** The sends of the code are the sends of the protocol's client, one for one. */
  ghost predicate Follows(sent: seq<Datagram>, plan: seq<Datagram>, replies: nat -> Option<int>)
    requires IsPlan(plan)
  {
    forall j: nat :: j < |sent| ==> SendIs(sent[j], j, plan, replies)
  }

  lemma FollowsMore(sent: seq<Datagram>, plan: seq<Datagram>, replies: nat -> Option<int>)
    requires IsPlan(plan) && Follows(sent, plan, replies) && After(plan, replies, |sent|).phase.Sending?
    ensures var c := After(plan, replies, |sent|);
      Follows(sent + [plan[c.k]], plan, replies) && After(plan, replies, |sent| + 1) == Heard(Sent(c), replies(|sent|))
  {
    var c := After(plan, replies, |sent|);
    var more := sent + [plan[c.k]];
    forall j: nat | j < |more|
      ensures SendIs(more[j], j, plan, replies)
    {
      if j < |sent| {
        assert SendIs(sent[j], j, plan, replies);
      }
    }
  }

  /** Chunk k of a file: the stretch it carries, and when it is the last. */
  lemma PlanChunk(file: seq<Byte>, k: nat)
    requires 1 <= k <= |Plan(file)|
    ensures |Plan(file)| == |file| / CHUNK + 1 && (k - 1) * CHUNK <= |file|
    ensures |file| - (k - 1) * CHUNK < CHUNK <==> k == |Plan(file)|
    ensures var size := Min(CHUNK, |file| - (k - 1) * CHUNK);
      Plan(file)[k - 1] == Datagram(k, size < CHUNK, Pad(file[(k - 1) * CHUNK..(k - 1) * CHUNK + size]))
  {
    PlanShape(file, 1);
    PlanPayload(file, 1, k - 1);
  }

  /** The body of doClient's loop up to the first send: read a chunk, number it, flag it if it is short. */
  method FillBuffer(r: Reader, sendbuf: array<Byte>, chunkNo: nat) returns (size: nat, d: Datagram)
    requires r.Valid() && sendbuf.Length == CHUNK && 1 <= chunkNo <= |Plan(r.data)| && r.pos == (chunkNo - 1) * CHUNK
    modifies r`pos, sendbuf
    ensures r.Valid() && r.pos == old(r.pos) + size && size <= CHUNK
    ensures d == Plan(r.data)[chunkNo - 1]
    ensures size < CHUNK <==> chunkNo == |Plan(r.data)|
  {
    forall i | 0 <= i < CHUNK {
      sendbuf[i] := 0;
    }
    size := r.BulkRead(sendbuf, 0, CHUNK);
    var last := false;
    if size < CHUNK {
      forall i | size <= i < CHUNK {
        sendbuf[i] := 0;
      }
      last := true;
    }
    d := Datagram(chunkNo, last, sendbuf[..]);
    PlanChunk(r.data, chunkNo);
    assert sendbuf[..] == Pad(r.data[old(r.pos)..r.pos]);
  }

  /** The inner do-while: send, then wait for a datagram or the alarm, until chunkNo is echoed or six sends are spent. */
  method SendChunk(d: Datagram, chunkNo: nat, before: seq<Datagram>, replies: nat -> Option<int>, ghost plan: seq<Datagram>)
    returns (sent: seq<Datagram>, counter: nat, received: int)
    requires IsPlan(plan) && 0 < chunkNo <= |plan| && d == plan[chunkNo - 1]
    requires Follows(before, plan, replies) && After(plan, replies, |before|) == Client(plan, chunkNo - 1, 0, Sending)
    ensures Follows(sent, plan, replies) && 1 <= counter <= 6 && (received == chunkNo || counter == 6)
    ensures After(plan, replies, |sent|)
      == Heard(Client(plan, chunkNo - 1, counter, Waiting), if received == chunkNo then Some(chunkNo) else None)
  {
    sent, counter, received := before, 0, 0;
    while true
      invariant 0 <= counter <= 5 && received != chunkNo
      invariant Follows(sent, plan, replies) && After(plan, replies, |sent|) == Client(plan, chunkNo - 1, counter, Sending)
      decreases 6 - counter
    {
      FollowsMore(sent, plan, replies);
      counter := counter + 1;
      match replies(|sent|) {
        case Some(n) => received := n;
        case None =>
      }
      sent := sent + [d];
      if !(received != chunkNo && counter <= 5) {
        break;
      }
    }
  }

  /**
   doClient.  replies(j) is what recv gives after the j-th send: the number in some datagram, or None
   for the alarm.  sent records every datagram sent, acked whether the last chunk was echoed.
   */
  method DoClient(r: Reader, replies: nat -> Option<int>) returns (sent: seq<Datagram>, acked: bool)
    requires r.Valid() && r.pos == 0
    modifies r`pos
    ensures IsPlan(Plan(r.data)) && Follows(sent, Plan(r.data), replies)
    ensures After(Plan(r.data), replies, |sent|).phase == Finished(acked)
  {
    PlanShape(r.data, 1);
    var sendbuf := new Byte[CHUNK](_ => 0);
    var chunkNo := 0;
    sent := [];
    while true
      invariant r.Valid() && chunkNo < |Plan(r.data)| && r.pos == chunkNo * CHUNK
      invariant Follows(sent, Plan(r.data), replies)
      invariant After(Plan(r.data), replies, |sent|) == Client(Plan(r.data), chunkNo, 0, Sending)
      decreases |Plan(r.data)| - chunkNo
    {
      chunkNo := chunkNo + 1;
      var size, d := FillBuffer(r, sendbuf, chunkNo);
      var counter, received;
      sent, counter, received := SendChunk(d, chunkNo, sent, replies, Plan(r.data));
      if received != chunkNo && counter > 5 {
        acked := false;
        return;
      }
      if size < CHUNK {
        acked := true;
        return;
      }
    }
  }

  // ---- what such a run sends ----

  /** While the client stays on one chunk its counter counts the sends. */
  lemma {:induction false} CounterCounts(plan: seq<Datagram>, replies: nat -> Option<int>, j: nat, i: nat)
    requires IsPlan(plan) && After(plan, replies, j + i).k == After(plan, replies, j).k
    requires After(plan, replies, j + i).phase.Sending?
    ensures After(plan, replies, j).phase.Sending?
    ensures After(plan, replies, j + i).tries == After(plan, replies, j).tries + i
  {
    if i > 0 {
      ChunksInOrder(plan, replies, j, i - 1);
      CounterCounts(plan, replies, j, i - 1);
    }
  }

  /** The client moves through the chunks one by one, and only on the echo of the current one. */
  lemma {:induction false} ChunksInOrder(plan: seq<Datagram>, replies: nat -> Option<int>, j: nat, i: nat)
    requires IsPlan(plan)
    ensures var c, d, e := After(plan, replies, j), After(plan, replies, j + i), After(plan, replies, j + i + 1);
      && c.k <= d.k <= e.k <= d.k + 1
      && (e.k == d.k + 1 ==> d.phase.Sending? && replies(j + i) == Some(d.k + 1) && e.tries == 0)
  {
    if i > 0 {
      ChunksInOrder(plan, replies, j, i - 1);
    }
  }

  /** No chunk is sent more than six times. */
  lemma SixSendsAtMost(plan: seq<Datagram>, replies: nat -> Option<int>, sent: seq<Datagram>, j: nat)
    requires IsPlan(plan) && Follows(sent, plan, replies) && j + 6 < |sent|
    ensures sent[j].number < sent[j + 6].number
  {
    assert SendIs(sent[j], j, plan, replies) && SendIs(sent[j + 6], j + 6, plan, replies);
    ChunksInOrder(plan, replies, j, 6);
    TriesBounded(plan, replies, j + 6);
    if After(plan, replies, j + 6).k == After(plan, replies, j).k {
      CounterCounts(plan, replies, j, 6);
    }
  }

  lemma {:induction false} TriesBounded(plan: seq<Datagram>, replies: nat -> Option<int>, n: nat)
    requires IsPlan(plan)
    ensures var c := After(plan, replies, n);
      c.tries <= n && c.tries <= 6 && (c.phase.Sending? ==> c.tries <= 5) && (c.phase == Finished(false) ==> c.tries == 6)
  {
    if n > 0 {
      TriesBounded(plan, replies, n - 1);
    }
  }

  /** One send's effect on the client. */
  lemma Unfold(plan: seq<Datagram>, replies: nat -> Option<int>, n: nat)
    requires IsPlan(plan) && n > 0 && After(plan, replies, n - 1).phase.Sending?
    ensures After(plan, replies, n) == Heard(Sent(After(plan, replies, n - 1)), replies(n - 1))
  {
  }

  lemma LastHeard(c: Client, reply: Option<int>)
    requires IsPlan(c.plan) && c.k < |c.plan| && c.phase.Sending? && Heard(Sent(c), reply).phase == Finished(true)
    ensures c.k == |c.plan| - 1 && reply == Some(|c.plan|)
  {
  }

  /** The loop is left with the last chunk echoed ... */
  lemma EndsAcked(plan: seq<Datagram>, replies: nat -> Option<int>, sent: seq<Datagram>)
    requires IsPlan(plan) && |sent| > 0 && Follows(sent, plan, replies)
    requires After(plan, replies, |sent|).phase == Finished(true)
    ensures sent[|sent| - 1] == plan[|plan| - 1] && replies(|sent| - 1) == Some(|plan|)
  {
    var n := |sent| - 1;
    assert SendIs(sent[n], n, plan, replies);
    Unfold(plan, replies, n + 1);
    LastHeard(After(plan, replies, n), replies(n));
  }

  lemma RetryBefore(c: Client, reply: Option<int>, k: nat, tries: nat)
    requires IsPlan(c.plan) && c.k < |c.plan| && !c.phase.Waiting? && tries > 0
    requires (if c.phase.Sending? then Heard(Sent(c), reply) else c) == Client(c.plan, k, tries, Sending)
    ensures c == Client(c.plan, k, tries - 1, Sending)
  {
  }

  /** A retry resends the same chunk. */
  lemma BackOne(plan: seq<Datagram>, replies: nat -> Option<int>, n: nat, k: nat, tries: nat)
    requires IsPlan(plan) && n > 0 && tries > 0 && After(plan, replies, n) == Client(plan, k, tries, Sending)
    ensures After(plan, replies, n - 1) == Client(plan, k, tries - 1, Sending)
  {
    RetryBefore(After(plan, replies, n - 1), replies(n - 1), k, tries);
  }

  lemma {:induction false} BackToTry(plan: seq<Datagram>, replies: nat -> Option<int>, n: nat, i: nat, k: nat, tries: nat)
    requires IsPlan(plan) && After(plan, replies, n) == Client(plan, k, tries, Sending) && i <= tries <= n
    ensures After(plan, replies, n - i) == Client(plan, k, tries - i, Sending)
    decreases i
  {
    if i > 0 {
      BackToTry(plan, replies, n, i - 1, k, tries);
      BackOne(plan, replies, n - (i - 1), k, tries - (i - 1));
    }
  }

  /** ... or after six sends of one chunk without its echo; nothing else ends it. */
  lemma EndsGivingUp(plan: seq<Datagram>, replies: nat -> Option<int>, sent: seq<Datagram>, i: nat)
    requires IsPlan(plan) && |sent| > 0 && Follows(sent, plan, replies)
    requires After(plan, replies, |sent|).phase == Finished(false) && i < 6
    ensures |sent| >= 6 && sent[|sent| - 1 - i] == sent[|sent| - 1]
    ensures replies(|sent| - 1) != Some(sent[|sent| - 1].number)
  {
    var n := |sent| - 1;
    assert SendIs(sent[n], n, plan, replies);
    Unfold(plan, replies, n + 1);
    TriesBounded(plan, replies, n + 1);
    TriesBounded(plan, replies, n);
    BackToTry(plan, replies, n, i, After(plan, replies, n).k, 5);
    assert SendIs(sent[n - i], n - i, plan, replies);
  }
}
