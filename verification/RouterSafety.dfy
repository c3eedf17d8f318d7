/** No packet is misrouted or refused, unless its path names a province twice in a row: every other forward meets a live successor. */
module RouterSafety {
  import opened Router

  // ---- the invariant ----

  /** pkt is the injection its id says, unchanged. */
  ghost predicate Genuine(net: Net, injected: seq<nat>, pkt: Packet)
  {
    pkt.id < |injected| && injected[pkt.id] < |net.routes| && pkt.path == net.routes[injected[pkt.id]]
  }

  /** A packet in pipe e: it has been where its path says and goes where its path says. */
  ghost predicate InTransit(net: Net, injected: seq<nat>, e: nat, pkt: Packet)
    requires e < |net.edges|
  {
    && Genuine(net, injected, pkt) && pkt.step < |pkt.path| && pkt.visited == pkt.path[..pkt.step]
    && (if Loops(net.edges[e]) then pkt.step == Reach(pkt.path) else pkt.step < Reach(pkt.path))
    && net.edges[e].to == pkt.path[pkt.step]
    && (if pkt.step == 0 then net.edges[e].from == Boss else net.edges[e].from == Province(pkt.path[pkt.step - 1]))
  }

  ghost predicate PipeOk(s: State, e: nat)
    requires Shape(s) && e < |s.net.edges|
  {
    && (forall x :: 0 <= x < |s.pipes[e]| ==> InTransit(s.net, s.injected, e, s.pipes[e][x]))
    && (if Loops(s.net.edges[e]) then !s.open[e] else !s.open[e] ==> s.pipes[e] == [] && !HasWriter(s, e))
  }

  /** A packet province k has received and must forward. */
  ghost predicate Held(net: Net, injected: seq<nat>, k: nat, pkt: Packet)
  {
    && Genuine(net, injected, pkt) && pkt.step + 1 < |pkt.path| && pkt.path[pkt.step] == k && pkt.step < Reach(pkt.path)
    && pkt.visited == pkt.path[..pkt.step + 1]
  }

  predicate Leaving(pc: Pc) { pc.Report? || pc.Closing? || pc.Gone? }

  ghost predicate ProvOk(s: State, k: nat)
    requires Shape(s) && k < |s.provs|
  {
    && (s.provs[k].pc.Forward? ==> Held(s.net, s.injected, k, s.provs[k].pc.pkt))
    && (Leaving(s.provs[k].pc) ==> NoInputs(s, k))
  }

  /** A finished packet has visited exactly its path. */
  ghost predicate Complete(net: Net, injected: seq<nat>, pkt: Packet)
  {
    Genuine(net, injected, pkt) && pkt.visited == pkt.path && Steady(pkt.path)
  }

  /** A lost packet has visited exactly its path up to the first province named twice in a row. */
  ghost predicate Stopped(net: Net, injected: seq<nat>, pkt: Packet)
  {
    Genuine(net, injected, pkt) && pkt.step == Reach(pkt.path) < |pkt.path| && pkt.visited == pkt.path[..Reach(pkt.path)]
  }

  ghost predicate Inv(s: State)
  {
    && Wired(s.net) && Shape(s)
    && (forall e :: 0 <= e < |s.net.edges| ==> PipeOk(s, e))
    && (forall k :: 0 <= k < |s.provs| ==> ProvOk(s, k))
    && (forall x :: 0 <= x < |s.finished| ==> Complete(s.net, s.injected, s.finished[x]))
    && (forall x :: 0 <= x < |s.lost| ==> Stopped(s.net, s.injected, s.lost[x]))
    && (forall x :: 0 <= x < |s.injected| ==> s.injected[x] < |s.net.routes|)
  }

  // ---- preservation ----

  /** While somebody can still write to a pipe between two processes its reader is there. */
  lemma ReaderStays(s: State, e: nat)
    requires Inv(s) && e < |s.net.edges| && HasWriter(s, e) && !Loops(s.net.edges[e])
    ensures HasReader(s, e) && s.open[e]
  {
    assert PipeOk(s, e);
    var j := s.net.edges[e].to;
    assert j < s.net.n by {
      if e > 0 {
        assert GoodEdge(s.net, s.net.edges[e]);
      }
    }
    assert ProvOk(s, j);
  }

  lemma ForwardFinds(s: State, k: nat)
    requires Inv(s) && k < |s.provs| && s.provs[k].pc.Forward?
    ensures var pkt := s.provs[k].pc.pkt; pkt.step + 1 < |pkt.path| && pkt.path[pkt.step + 1] < |s.provs|
    ensures var pkt := s.provs[k].pc.pkt; var e := EdgeTo(s.net.edges, k, pkt.path[pkt.step + 1]);
      && e < |s.net.edges| && (Loops(s.net.edges[e]) || (HasReader(s, e) && s.open[e]))
      && InTransit(s.net, s.injected, e, pkt.(step := pkt.step + 1))
  {
    assert ProvOk(s, k);
    var pkt := s.provs[k].pc.pkt;
    assert GoodRoute(s.net, s.net.routes[s.injected[pkt.id]]);
    assert Linked(s.net, pkt.path[pkt.step + 1 - 1], pkt.path[pkt.step + 1]);
    assert Travels(pkt.path, pkt.step + 1) <==> pkt.step + 1 < Reach(pkt.path);
    var e := EdgeTo(s.net.edges, k, pkt.path[pkt.step + 1]);
    if !Loops(s.net.edges[e]) {
      ReaderStays(s, e);
    }
  }

  /** What a step may do to the processes: only p's own counter moves, never back to Start, never on from Gone. */
  ghost predicate ActorMoves(s: State, p: Node, t: State)
    requires Shape(s)
  {
    && Shape(t) && t.net == s.net && s.injected <= t.injected
    && (forall k :: 0 <= k < |s.provs| && p != Province(k) ==> t.provs[k] == s.provs[k])
    && (forall k :: 0 <= k < |s.provs| ==> (t.provs[k].pc.Start? ==> s.provs[k].pc.Start?) && (s.provs[k].pc.Gone? ==> t.provs[k].pc.Gone?))
    && (t.boss.Start? ==> s.boss.Start?) && (BossWrites(t.boss) ==> BossWrites(s.boss))
    && (forall e :: 0 <= e < |s.open| && t.open[e] ==> s.open[e])
  }

  /** What a step may do to a pipe. */
  ghost predicate PipeMoves(s: State, t: State, e: nat)
    requires Shape(s) && Shape(t) && t.net == s.net && e < |s.net.edges|
  {
    && (t.open[e] == s.open[e] || (!t.open[e] && s.pipes[e] == [] && !HasWriter(s, e)))
    && (|| t.pipes[e] == s.pipes[e]
        || (s.pipes[e] != [] && t.pipes[e] == s.pipes[e][1..])
        || ((HasWriter(s, e) || Loops(s.net.edges[e])) && |t.pipes[e]| == |s.pipes[e]| + 1 && t.pipes[e][..|s.pipes[e]|] == s.pipes[e]
            && InTransit(t.net, t.injected, e, t.pipes[e][|s.pipes[e]|])))
  }

  lemma WritersFade(s: State, p: Node, t: State, e: nat)
    requires Shape(s) && ActorMoves(s, p, t) && e < |s.net.edges| && HasWriter(t, e)
    ensures HasWriter(s, e)
  {
    if AnyStart(t) && !t.boss.Start? {
      var k :| 0 <= k < |t.provs| && t.provs[k].pc.Start?;
      assert s.provs[k].pc.Start?;
    }
  }

  lemma StillInTransit(net: Net, was: seq<nat>, now: seq<nat>, e: nat, pkt: Packet)
    requires e < |net.edges| && was <= now && InTransit(net, was, e, pkt)
    ensures InTransit(net, now, e, pkt)
  {
  }

  lemma PipeStays(s: State, p: Node, t: State, e: nat)
    requires Shape(s) && ActorMoves(s, p, t) && e < |s.net.edges| && PipeMoves(s, t, e) && PipeOk(s, e)
    ensures PipeOk(t, e)
  {
    if HasWriter(t, e) {
      WritersFade(s, p, t, e);
    }
    forall x | 0 <= x < |t.pipes[e]|
      ensures InTransit(t.net, t.injected, e, t.pipes[e][x])
    {
      if t.pipes[e] == s.pipes[e] {
        StillInTransit(s.net, s.injected, t.injected, e, s.pipes[e][x]);
      } else if x < |s.pipes[e]| && |t.pipes[e]| == |s.pipes[e]| + 1 {
        assert t.pipes[e][x] == s.pipes[e][x];
        StillInTransit(s.net, s.injected, t.injected, e, s.pipes[e][x]);
      } else if |t.pipes[e]| < |s.pipes[e]| {
        StillInTransit(s.net, s.injected, t.injected, e, s.pipes[e][x + 1]);
      }
    }
  }

  lemma ProvStays(s: State, p: Node, t: State, k: nat)
    requires Shape(s) && ActorMoves(s, p, t) && k < |s.provs| && p != Province(k) && ProvOk(s, k)
    ensures ProvOk(t, k)
  {
  }

  /** Everything the rest of the system sees of a step. */
  ghost predicate Effect(s: State, p: Node, t: State)
    requires Shape(s)
  {
    && ActorMoves(s, p, t)
    && (forall e :: 0 <= e < |s.net.edges| ==> PipeMoves(s, t, e))
    && (p.Province? && p.k < |t.provs| ==> ProvOk(t, p.k))
    && (t.lost == s.lost
        || (|t.lost| == |s.lost| + 1 && t.lost[..|s.lost|] == s.lost && Stopped(t.net, t.injected, t.lost[|s.lost|])))
    && (t.finished == s.finished
        || (|t.finished| == |s.finished| + 1 && t.finished[..|s.finished|] == s.finished && Complete(t.net, t.injected, t.finished[|s.finished|])))
    && (forall x :: 0 <= x < |t.injected| ==> t.injected[x] < |t.net.routes|)
  }

  lemma EffectKeeps(s: State, p: Node, t: State)
    requires Inv(s) && Effect(s, p, t)
    ensures Inv(t)
  {
    forall e | 0 <= e < |t.net.edges|
      ensures PipeOk(t, e)
    {
      assert PipeOk(s, e) && PipeMoves(s, t, e);
      PipeStays(s, p, t, e);
    }
    forall k | 0 <= k < |t.provs|
      ensures ProvOk(t, k)
    {
      if p != Province(k) {
        assert ProvOk(s, k);
        ProvStays(s, p, t, k);
      }
    }
    forall x | 0 <= x < |t.finished|
      ensures Complete(t.net, t.injected, t.finished[x])
    {
      if x < |s.finished| {
        assert Complete(s.net, s.injected, s.finished[x]) && t.finished[x] == s.finished[x];
      }
    }
    forall x | 0 <= x < |t.lost|
      ensures Stopped(t.net, t.injected, t.lost[x])
    {
      if x < |s.lost| {
        assert Stopped(s.net, s.injected, s.lost[x]) && t.lost[x] == s.lost[x];
      }
    }
  }

  lemma BossEffect(s: State, c: Choice)
    requires Inv(s) && BossNext(s, c).Some?
    ensures Effect(s, Boss, BossNext(s, c).value)
  {
    if s.boss.Inject? {
      ReaderStays(s, 0);
    }
  }

  /** The packet at the head of an input is the reader's to keep or to forward. */
  lemma HeadIsHis(s: State, e: nat)
    requires Inv(s) && e < |s.net.edges| && s.pipes[e] != [] && !Loops(s.net.edges[e])
    ensures var k := s.net.edges[e].to; var pkt := s.pipes[e][0].(visited := s.pipes[e][0].visited + [k]);
      if pkt.step + 1 < |pkt.path| then Held(s.net, s.injected, k, pkt) else Complete(s.net, s.injected, pkt)
  {
    assert PipeOk(s, e);
    var pkt := s.pipes[e][0];
    assert InTransit(s.net, s.injected, e, pkt);
    assert pkt.path[..pkt.step] + [pkt.path[pkt.step]] == pkt.path[..pkt.step + 1];
    assert pkt.path[..|pkt.path|] == pkt.path;
  }

  /** Taking the head of an input: who moves and which pipe. */
  lemma ReceiveMoves(s: State, k: nat, e: nat)
    requires Shape(s) && k < |s.provs| && s.provs[k].pc.Poll? && !NoInputs(s, k)
    requires e < |s.net.edges| && s.net.edges[e].to == k && s.open[e] && s.pipes[e] != []
    ensures var r := PollNext(s, k, e); r.Some? && ActorMoves(s, Province(k), r.value)
    ensures forall d :: 0 <= d < |s.net.edges| ==> PipeMoves(s, PollNext(s, k, e).value, d)
  {
  }

  lemma ReceiveEffect(s: State, k: nat, e: nat)
    requires Inv(s) && k < |s.provs| && s.provs[k].pc.Poll? && !NoInputs(s, k)
    requires e < |s.net.edges| && s.net.edges[e].to == k && s.open[e] && s.pipes[e] != []
    ensures PollNext(s, k, e).Some? && Effect(s, Province(k), PollNext(s, k, e).value)
  {
    assert !Loops(s.net.edges[e]) by {
      assert PipeOk(s, e);
    }
    ReceiveMoves(s, k, e);
    HeadIsHis(s, e);
  }

  lemma PollEffect(s: State, k: nat, e: nat)
    requires Inv(s) && k < |s.provs| && s.provs[k].pc.Poll? && PollNext(s, k, e).Some?
    ensures Effect(s, Province(k), PollNext(s, k, e).value)
  {
    if !NoInputs(s, k) && s.pipes[e] != [] {
      ReceiveEffect(s, k, e);
    }
  }

  /** Forwarding: who moves and which pipe. */
  lemma ForwardMoved(s: State, k: nat, e: nat, next: Packet, t: State)
    requires Shape(s) && k < |s.provs| && !s.provs[k].pc.Start? && !s.provs[k].pc.Gone?
    requires e < |s.net.edges| && s.net.edges[e].from == Province(k) && InTransit(s.net, s.injected, e, next)
    requires t == s.Put(e, next).At(k, s.provs[k].(pc := Poll)) || t == s.(lost := s.lost + [next]).At(k, s.provs[k].(pc := Poll))
    ensures ActorMoves(s, Province(k), t) && forall d :: 0 <= d < |s.net.edges| ==> PipeMoves(s, t, d)
  {
    assert HasWriter(s, e);
  }

  lemma ForwardEffect(s: State, k: nat)
    requires Inv(s) && k < |s.provs| && s.provs[k].pc.Forward? && ForwardNext(s, k, s.provs[k].pc.pkt).Some?
    ensures Effect(s, Province(k), ForwardNext(s, k, s.provs[k].pc.pkt).value)
  {
    ForwardFinds(s, k);
    var pkt := s.provs[k].pc.pkt;
    ForwardMoved(s, k, EdgeTo(s.net.edges, k, pkt.path[pkt.step + 1]), pkt.(step := pkt.step + 1), ForwardNext(s, k, pkt).value);
  }

  lemma StepEffect(s: State, p: Node, c: Choice)
    requires Inv(s) && Next(s, p, c).Some?
    ensures Effect(s, p, Next(s, p, c).value)
  {
    match p
    case Boss => BossEffect(s, c);
    case Province(k) =>
      if s.provs[k].pc.Poll? {
        PollEffect(s, k, c.e);
      } else if s.provs[k].pc.Forward? {
        ForwardEffect(s, k);
      } else {
        assert ProvOk(s, k);
      }
  }

  lemma {:induction false} RunInv(s: State, turns: seq<Turn>)
    requires Init(s)
    ensures Inv(Run(s, turns))
  {
    if turns != [] {
      RunInv(s, turns[..|turns| - 1]);
      var u := Run(s, turns[..|turns| - 1]);
      var last := turns[|turns| - 1];
      if Next(u, last.p, last.c).Some? {
        StepEffect(u, last.p, last.c);
        EffectKeeps(u, last.p, Next(u, last.p, last.c).value);
      }
    }
  }

  // ---- what follows ----

  /** Refused, or written into a pipe from a province to itself, which nobody reads. */
  ghost predicate Astray(s: State, pkt: Packet)
    requires Shape(s)
  {
    pkt in s.lost || exists e :: 0 <= e < |s.net.edges| && Loops(s.net.edges[e]) && pkt in s.pipes[e]
  }

  /**
   Every packet that has ended has been exactly along its path, in order, up to the first province named twice in a row:
   it is finished if there is none, and has gone astray there otherwise.
   */
  lemma EndsOnPath(s: State, turns: seq<Turn>, pkt: Packet)
    requires Init(s)
    requires var t := Run(s, turns); pkt in t.finished || Astray(t, pkt)
    ensures var t := Run(s, turns); pkt.id < |t.injected| && t.injected[pkt.id] < |t.net.routes|
    ensures var t := Run(s, turns); var path := t.net.routes[t.injected[pkt.id]];
      pkt.visited == path[..Reach(path)] && (pkt in t.finished <==> Steady(path)) && (Astray(t, pkt) <==> !Steady(path))
  {
    RunInv(s, turns);
    var t := Run(s, turns);
    if e :| 0 <= e < |t.net.edges| && Loops(t.net.edges[e]) && pkt in t.pipes[e] {
      assert PipeOk(t, e);
    }
    if pkt in t.finished {
      assert Complete(t.net, t.injected, pkt);
    }
    if pkt in t.lost {
      assert Stopped(t.net, t.injected, pkt);
    }
  }

  ghost predicate Intact(s: State)
    requires Shape(s)
  {
    forall pkt :: !Astray(s, pkt)
  }

  /** Where no route names a province twice in a row, no run loses a packet. */
  lemma NothingLost(s: State, turns: seq<Turn>)
    requires Init(s) && forall r :: 0 <= r < |s.net.routes| ==> Steady(s.net.routes[r])
    ensures Intact(Run(s, turns))
  {
    forall pkt | Astray(Run(s, turns), pkt)
      ensures false
    {
      EndsOnPath(s, turns, pkt);
    }
  }

  /** A province that forwards finds a pipe to the next node of the path, and the next province has not left. */
  lemma SuccessorIsAlive(s: State, turns: seq<Turn>, k: nat)
    requires Init(s) && k < |s.provs| && Run(s, turns).provs[k].pc.Forward?
    ensures var t := Run(s, turns); var pkt := t.provs[k].pc.pkt;
      && pkt.step + 1 < |pkt.path| && pkt.path[pkt.step + 1] < |t.provs|
      && !Leaving(t.provs[pkt.path[pkt.step + 1]].pc)
  {
    RunInv(s, turns);
    var t := Run(s, turns);
    ForwardFinds(t, k);
    var pkt := t.provs[k].pc.pkt;
    var e := EdgeTo(t.net.edges, k, pkt.path[pkt.step + 1]);
    if !Loops(t.net.edges[e]) {
      ReaderStays(t, e);
    }
    assert ProvOk(t, pkt.path[pkt.step + 1]);
  }
}
