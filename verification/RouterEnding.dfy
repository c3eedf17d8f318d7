/** The net never deadlocks, the shutdown cascade ends, and then every report is in and adds up. */
module RouterEnding {
  import opened Counting
  import opened Router
  import opened RouterSafety
  import opened RouterCounts

  // ---- progress ----

  ghost predicate AllGone(s: State) { forall k :: 0 <= k < |s.provs| ==> s.provs[k].pc.Gone? }

  ghost predicate Ended(s: State) { s.boss.Done? && AllGone(s) }

  /** Every pipe is empty, but for those from a province to itself, which nobody reads. */
  ghost predicate NothingToRead(s: State)
    requires Shape(s)
  {
    forall e :: 0 <= e < |s.pipes| ==> Loops(s.net.edges[e]) || s.pipes[e] == []
  }

  /** Nothing to do until the boss reads its FIFO. */
  ghost predicate Quiescent(s: State)
  {
    Shape(s) && s.boss.Fifo? && !AnyStart(s) && NothingToRead(s)
    && (forall k :: 0 <= k < |s.provs| ==> !s.provs[k].pc.Forward?)
  }

  lemma Highest(ks: set<nat>, level: seq<nat>) returns (k: nat)
    requires ks != {} && forall j :: j in ks ==> j < |level|
    ensures k in ks && forall j :: j in ks ==> level[j] <= level[k]
    decreases |ks|
  {
    var x :| x in ks;
    var rest := ks - {x};
    k := x;
    if rest != {} {
      var y := Highest(rest, level);
      k := if level[x] < level[y] then y else x;
      assert ks == rest + {x};
    }
  }

  lemma Lowest(ks: set<nat>, level: seq<nat>) returns (k: nat)
    requires ks != {} && forall j :: j in ks ==> j < |level|
    ensures k in ks && forall j :: j in ks ==> level[k] <= level[j]
    decreases |ks|
  {
    var x :| x in ks;
    var rest := ks - {x};
    k := x;
    if rest != {} {
      var y := Lowest(rest, level);
      k := if level[y] < level[x] then y else x;
      assert ks == rest + {x};
    }
  }

  /** A polling province with a packet waiting can take it. */
  lemma ReaderMoves(s: State, e: nat)
    requires Inv(s) && e < |s.net.edges| && s.pipes[e] != [] && !Loops(s.net.edges[e])
    ensures s.net.edges[e].to < |s.provs| && !Leaving(s.provs[s.net.edges[e].to].pc)
    ensures s.provs[s.net.edges[e].to].pc.Poll? ==> Next(s, Province(s.net.edges[e].to), Choice(e, false)).Some?
  {
    assert PipeOk(s, e);
    if e > 0 {
      assert GoodEdge(s.net, s.net.edges[e]);
    }
    assert ProvOk(s, s.net.edges[e].to);
  }

  /** Of the provinces holding a packet, the highest can pass it on, or its successor can make room. */
  lemma ForwardMoves(s: State, level: seq<nat>, k: nat) returns (p: Node, c: Choice)
    requires Inv(s) && Acyclic(s.net, level) && !AnyStart(s) && k < |s.provs| && s.provs[k].pc.Forward?
    requires forall j :: 0 <= j < |s.provs| && s.provs[j].pc.Forward? ==> level[j] <= level[k]
    ensures p.Province? && Next(s, p, c).Some?
  {
    ForwardFinds(s, k);
    var pkt := s.provs[k].pc.pkt;
    var e := EdgeTo(s.net.edges, k, pkt.path[pkt.step + 1]);
    p, c := Province(k), Choice(e, false);
    assert PipeOk(s, e);
    if !Loops(s.net.edges[e]) && |s.pipes[e]| >= s.net.cap {
      ReaderMoves(s, e);
      assert Climbs(s.net, level, s.net.edges[e]);
      p := Province(s.net.edges[e].to);
    }
  }

  /** With all pipes empty and the boss's pipe closed, the lowest province still there can move on. */
  lemma DrainMoves(s: State, level: seq<nat>, k: nat) returns (c: Choice)
    requires Inv(s) && Acyclic(s.net, level) && !AnyStart(s) && !BossWrites(s.boss) && k < |s.provs| && !s.provs[k].pc.Gone? && !s.provs[k].pc.Forward?
    requires NothingToRead(s)
    requires forall j :: 0 <= j < |s.provs| && !s.provs[j].pc.Gone? ==> level[k] <= level[j]
    ensures Next(s, Province(k), c).Some?
  {
    c := Choice(0, false);
    if s.provs[k].pc.Poll? && !NoInputs(s, k) {
      var e :| 0 <= e < |s.net.edges| && s.net.edges[e].to == k && s.open[e];
      assert PipeOk(s, e);
      if e > 0 {
        assert Climbs(s.net, level, s.net.edges[e]);
      }
      c := Choice(e, false);
    }
  }

  /** Unless the net has ended or is quiet, a province can move, or the boss can other than by reading its FIFO. */
  lemma SomeoneMoves(s: State, level: seq<nat>) returns (p: Node, c: Choice)
    requires Inv(s) && Acyclic(s.net, level) && !Ended(s) && !Quiescent(s)
    ensures Next(s, p, c).Some? && !(p.Boss? && s.boss.Fifo?)
  {
    p, c := Boss, Choice(0, false);
    var forwarding := set k: nat | k < |s.provs| && s.provs[k].pc.Forward?;
    var staying := set k: nat | k < |s.provs| && !s.provs[k].pc.Gone?;
    if AnyStart(s) {
      if !s.boss.Start? {
        var k :| 0 <= k < |s.provs| && s.provs[k].pc.Start?;
        p := Province(k);
      }
    } else if forwarding != {} {
      var k := Highest(forwarding, level);
      p, c := ForwardMoves(s, level, k);
    } else if !NothingToRead(s) {
      var e :| 0 <= e < |s.pipes| && !Loops(s.net.edges[e]) && s.pipes[e] != [];
      ReaderMoves(s, e);
      var k := s.net.edges[e].to;
      assert k !in forwarding;
      p, c := Province(k), Choice(e, false);
    } else if s.boss.Inject? {
      ReaderStays(s, 0);
    } else if s.boss.Fifo? {
      forall k | 0 <= k < |s.provs|
        ensures !s.provs[k].pc.Forward?
      {
        assert k !in forwarding;
      }
    } else if staying != {} {
      var k := Lowest(staying, level);
      assert k !in forwarding;
      c := DrainMoves(s, level, k);
      p := Province(k);
    } else {
      forall k | 0 <= k < |s.provs|
        ensures s.provs[k].pc.Gone?
      {
        assert k !in staying;
      }
    }
  }

  /** In every reachable state that has not ended, somebody can move; only a quiet net waits for the boss to read its FIFO. */
  lemma DeadlockFree(s: State, level: seq<nat>, turns: seq<Turn>) returns (p: Node, c: Choice)
    requires Init(s) && Acyclic(s.net, level) && !Ended(Run(s, turns))
    ensures Next(Run(s, turns), p, c).Some?
    ensures p.Boss? && Run(s, turns).boss.Fifo? ==> Quiescent(Run(s, turns))
  {
    RunInv(s, turns);
    if Quiescent(Run(s, turns)) {
      p, c := Boss, Choice(0, false);
    } else {
      p, c := SomeoneMoves(Run(s, turns), level);
    }
  }

  // ---- the cascade ends ----

  /** Reads and writes a packet still needs, in a pipe and in a province's hands. */
  const HOPS: Packet -> int := (pkt: Packet) => if pkt.step < |pkt.path| then 2 * (|pkt.path| - pkt.step) else 0
  const HOPS_HELD: Packet -> int := (pkt: Packet) => if pkt.step < |pkt.path| then 2 * (|pkt.path| - pkt.step) - 1 else 0

  function PcRank(pc: Pc): nat
  {
    match pc
    case Start => 8 case Poll => 6 case Forward(_) => 6 case Report => 4 case Closing => 2 case Gone => 0
  }

  function PcRanks(provs: seq<Prov>): (r: seq<int>)
    ensures |r| == |provs|
  {
    seq(|provs|, k requires 0 <= k < |provs| => PcRank(provs[k].pc))
  }

  predicate IsOpen(o: bool) { o }

  /** How far the net is from its end once the boss has closed its pipe. */
  function Rank(s: State): int
  {
    InFlight(s, HOPS, HOPS_HELD) + Sum(PcRanks(s.provs)) + Count(s.open, IsOpen) + |s.reports| + (if s.boss.Collect? then 1 else 0)
  }

  lemma PcRankChanges(provs: seq<Prov>, k: nat, now: Prov)
    requires k < |provs|
    ensures Sum(PcRanks(provs[k := now])) == Sum(PcRanks(provs)) - PcRank(provs[k].pc) + PcRank(now.pc)
  {
    SumUpdate(PcRanks(provs), k, PcRank(now.pc));
    assert PcRanks(provs[k := now]) == PcRanks(provs)[k := PcRank(now.pc)];
  }

  lemma RefusingFalls(s: State, p: Node, t: State)
    requires Inv(s) && Refused(s, p, t)
    ensures InFlight(t, HOPS, HOPS_HELD) + Sum(PcRanks(t.provs)) < InFlight(s, HOPS, HOPS_HELD) + Sum(PcRanks(s.provs))
  {
    assert ProvOk(s, p.k);
    RefusedWeight(s, p, t, HOPS, HOPS_HELD);
    PcRankChanges(s.provs, p.k, s.provs[p.k].(pc := Poll));
  }

  lemma ReceivingFalls(s: State, p: Node, t: State, e: nat)
    requires Inv(s) && Received(s, p, t, e)
    ensures InFlight(t, HOPS, HOPS_HELD) + Sum(PcRanks(t.provs)) < InFlight(s, HOPS, HOPS_HELD) + Sum(PcRanks(s.provs))
  {
    HeadTravels(s, e);
    ReceivedWeight(s, p, t, e, HOPS, HOPS_HELD);
    PcRankChanges(s.provs, p.k, t.provs[p.k]);
  }

  lemma ForwardingFalls(s: State, p: Node, t: State, e: nat)
    requires Inv(s) && Forwarded(s, p, t, e)
    ensures InFlight(t, HOPS, HOPS_HELD) + Sum(PcRanks(t.provs)) < InFlight(s, HOPS, HOPS_HELD) + Sum(PcRanks(s.provs))
  {
    assert ProvOk(s, p.k);
    ForwardedWeight(s, p, t, e, HOPS, HOPS_HELD);
    PcRankChanges(s.provs, p.k, s.provs[p.k].(pc := Poll));
  }

  /** A province's step that moves no packet: it moves on in its code or closes an input. */
  lemma SteppingFalls(s: State, k: nat, t: State)
    requires Shape(s) && k < |s.provs| && t.pipes == s.pipes && t.boss == s.boss
    requires
      || (|t.provs| == |s.provs| && t.provs == s.provs[k := t.provs[k]] && t.open == s.open && |t.reports| <= |s.reports| + 1
          && PcRank(t.provs[k].pc) + 2 <= PcRank(s.provs[k].pc) && !s.provs[k].pc.Forward? && !t.provs[k].pc.Forward?)
      || (t.provs == s.provs && t.reports == s.reports && exists e :: 0 <= e < |s.open| && s.open[e] && t.open == s.open[e := false])
    ensures Rank(t) < Rank(s)
  {
    if |t.provs| == |s.provs| && t.provs == s.provs[k := t.provs[k]] && t.open == s.open {
      HeldChanges(s.provs, k, t.provs[k], HOPS_HELD);
      PcRankChanges(s.provs, k, t.provs[k]);
    } else {
      var e :| 0 <= e < |s.open| && s.open[e] && t.open == s.open[e := false];
      CountUpdate(s.open, e, false, IsOpen);
    }
  }

  lemma PollFalls(s: State, k: nat, e: nat)
    requires Inv(s) && k < |s.provs| && s.provs[k].pc.Poll? && PollNext(s, k, e).Some?
    ensures Rank(PollNext(s, k, e).value) < Rank(s)
  {
    var t := PollNext(s, k, e).value;
    if !NoInputs(s, k) && s.pipes[e] != [] {
      assert Received(s, Province(k), t, e);
      ReceivingFalls(s, Province(k), t, e);
    } else {
      SteppingFalls(s, k, t);
    }
  }

  lemma ForwardFalls(s: State, k: nat)
    requires Inv(s) && k < |s.provs| && s.provs[k].pc.Forward? && ForwardNext(s, k, s.provs[k].pc.pkt).Some?
    ensures Rank(ForwardNext(s, k, s.provs[k].pc.pkt).value) < Rank(s)
  {
    ForwardFinds(s, k);
    ForwardAccounts(s, k);
    var pkt := s.provs[k].pc.pkt;
    var t := ForwardNext(s, k, pkt).value;
    if Refused(s, Province(k), t) {
      RefusingFalls(s, Province(k), t);
    } else {
      ForwardingFalls(s, Province(k), t, EdgeTo(s.net.edges, k, pkt.path[pkt.step + 1]));
    }
  }

  /** Once the boss has closed its pipe every step lowers the rank, and it stays closed. */
  lemma RankFalls(s: State, p: Node, c: Choice)
    requires Inv(s) && !BossWrites(s.boss) && Next(s, p, c).Some?
    ensures Rank(Next(s, p, c).value) < Rank(s) && !BossWrites(Next(s, p, c).value.boss)
  {
    if p.Province? {
      if s.provs[p.k].pc.Poll? {
        PollFalls(s, p.k, c.e);
      } else if s.provs[p.k].pc.Forward? {
        ForwardFalls(s, p.k);
      } else {
        SteppingFalls(s, p.k, Next(s, p, c).value);
      }
    }
  }

  lemma {:induction false} PacketSumNonnegative(pkts: seq<Packet>)
    ensures PacketSum(pkts, HOPS) >= 0
  {
    if pkts != [] {
      PacketSumNonnegative(pkts[1..]);
    }
  }

  lemma RankNonnegative(s: State)
    ensures Rank(s) >= 0
  {
    forall e | 0 <= e < |s.pipes|
      ensures PipeSums(s.pipes, HOPS)[e] >= 0
    {
      PacketSumNonnegative(s.pipes[e]);
    }
    SumNonnegative(PipeSums(s.pipes, HOPS));
    SumNonnegative(HeldSums(s.provs, HOPS_HELD));
    SumNonnegative(PcRanks(s.provs));
  }

  /** How many of the turns made their process move. */
  ghost function Moves(s: State, turns: seq<Turn>): nat
    requires Shape(s)
  {
    if turns == [] then 0
    else
      var u := Run(s, turns[..|turns| - 1]);
      var last := turns[|turns| - 1];
      Moves(s, turns[..|turns| - 1]) + (if Next(u, last.p, last.c).Some? then 1 else 0)
  }

  /** From a reachable state in which the boss has closed its pipe at most Rank steps remain; with DeadlockFree, all exit. */
  lemma {:induction false} CascadeEnds(s: State, turns: seq<Turn>)
    requires Inv(s) && !BossWrites(s.boss)
    ensures Inv(Run(s, turns)) && !BossWrites(Run(s, turns).boss)
    ensures Moves(s, turns) + Rank(Run(s, turns)) <= Rank(s) && Rank(Run(s, turns)) >= 0
  {
    RankNonnegative(Run(s, turns));
    if turns != [] {
      var front := turns[..|turns| - 1];
      CascadeEnds(s, front);
      var u := Run(s, front);
      var last := turns[|turns| - 1];
      if Next(u, last.p, last.c).Some? {
        RankFalls(u, last.p, last.c);
        StepEffect(u, last.p, last.c);
        EffectKeeps(u, last.p, Next(u, last.p, last.c).value);
      }
    }
  }

  // ---- the final report ----

  function Mentions(rs: seq<Summary>, k: nat): nat
  {
    if rs == [] then 0 else (if rs[0].k == k then 1 else 0) + Mentions(rs[1..], k)
  }

  lemma {:induction false} MentionsAppend(rs: seq<Summary>, r: Summary, k: nat)
    ensures Mentions(rs + [r], k) == Mentions(rs, k) + (if r.k == k then 1 else 0)
  {
    if rs != [] {
      assert (rs + [r])[1..] == rs[1..] + [r];
      MentionsAppend(rs[1..], r, k);
    }
  }

  /** Each province has a report under way or printed exactly if it is past reporting; a boss that is done leaves nobody behind. */
  ghost predicate ReportsOk(s: State)
  {
    && (forall k :: 0 <= k < |s.provs| ==> HasReported(s, k))
    && (s.boss.Done? ==> s.reports == [] && AllGone(s))
  }

  ghost predicate HasReported(s: State, k: nat)
    requires k < |s.provs|
  {
    Mentions(s.reports, k) + Mentions(s.printed, k) == if HasTold(s.provs[k]) then 1 else 0
  }

  lemma ReportStep(s: State, p: Node, c: Choice, k: nat)
    requires Inv(s) && k < |s.provs| && HasReported(s, k) && Next(s, p, c).Some?
    ensures HasReported(Next(s, p, c).value, k)
  {
    StepAccounts(s, p, c);
    var t := Next(s, p, c).value;
    if Told(s, p, t) {
      MentionsAppend(s.reports, Summary(p.k, s.provs[p.k].relayed), k);
    } else if Printed(s, p, t) {
      MentionsAppend(s.printed, s.reports[0], k);
    }
  }

  lemma DoneStep(s: State, p: Node, c: Choice)
    requires Shape(s) && (s.boss.Done? ==> s.reports == [] && AllGone(s)) && Next(s, p, c).Some?
    ensures var t := Next(s, p, c).value; t.boss.Done? ==> t.reports == [] && AllGone(t)
  {
  }

  lemma {:induction false} RunReports(s: State, turns: seq<Turn>)
    requires Init(s)
    ensures ReportsOk(Run(s, turns))
  {
    if turns != [] {
      var front := turns[..|turns| - 1];
      RunReports(s, front);
      RunInv(s, front);
      var u := Run(s, front);
      var last := turns[|turns| - 1];
      if Next(u, last.p, last.c).Some? {
        var t := Next(u, last.p, last.c).value;
        DoneStep(u, last.p, last.c);
        forall k | 0 <= k < |t.provs|
          ensures HasReported(t, k)
        {
          assert HasReported(u, k);
          ReportStep(u, last.p, last.c, k);
        }
      }
    }
  }

  /** When all are gone, what is left in the pipes has come to a repeat. */
  lemma NothingToReadLeft(s: State, e: nat, j: nat)
    requires Inv(s) && AllGone(s) && e < |s.pipes| && j < |s.pipes[e]|
    ensures Loops(s.net.edges[e]) && Genuine(s.net, s.injected, s.pipes[e][j])
    ensures s.pipes[e][j].step == Reach(s.pipes[e][j].path) < |s.pipes[e][j].path|
  {
    assert PipeOk(s, e);
    assert InTransit(s.net, s.injected, e, s.pipes[e][j]);
    if !Loops(s.net.edges[e]) {
      ReaderMoves(s, e);
    }
  }

  lemma {:induction false} PacketSumZero(pkts: seq<Packet>, f: Packet -> int)
    requires forall j :: 0 <= j < |pkts| ==> f(pkts[j]) == 0
    ensures PacketSum(pkts, f) == 0
  {
    if pkts != [] {
      PacketSumZero(pkts[1..], f);
    }
  }

  /** When all are gone nothing under way has any weight, if what has come to a repeat has none. */
  lemma NothingLeft(s: State, f: Packet -> int, g: Packet -> int)
    requires Inv(s) && AllGone(s)
    requires forall pkt: Packet :: Genuine(s.net, s.injected, pkt) && pkt.step == Reach(pkt.path) < |pkt.path| ==> f(pkt) == 0
    ensures InFlight(s, f, g) == 0
  {
    forall e | 0 <= e < |s.pipes|
      ensures PipeSums(s.pipes, f)[e] == 0
    {
      forall j | 0 <= j < |s.pipes[e]|
        ensures f(s.pipes[e][j]) == 0
      {
        NothingToReadLeft(s, e, j);
      }
      PacketSumZero(s.pipes[e], f);
    }
    SumZero(PipeSums(s.pipes, f));
    SumZero(HeldSums(s.provs, g));
  }

  /** The nodes the injected packets get to visit, all together. */
  function PathTotal(routes: seq<seq<nat>>, injected: seq<nat>): int
  {
    if injected == [] then 0
    else
      PathTotal(routes, injected[..|injected| - 1])
      + (if injected[|injected| - 1] < |routes| then Reach(routes[injected[|injected| - 1]]) else 0)
  }

  predicate Everywhere(k: nat) { true }

  lemma {:induction false} DemandOfAll(routes: seq<seq<nat>>, injected: seq<nat>)
    ensures Demand(routes, injected, Everywhere) == PathTotal(routes, injected)
  {
    if injected != [] {
      DemandOfAll(routes, injected[..|injected| - 1]);
      var r := injected[|injected| - 1];
      if r < |routes| {
        CountFull(Way(routes[r]), Everywhere);
      }
    }
  }

  /**
   When the boss is done, for any set w of provinces the printed counts are the visits the injected paths ask of them, each
   path up to the first province named twice in a row.
   */
  lemma FinalCounts(s: State, turns: seq<Turn>, w: nat -> bool)
    requires Init(s) && Run(s, turns).boss.Done?
    ensures var t := Run(s, turns); Reported(t.printed, w) == Demand(s.net.routes, t.injected, w)
  {
    RunInv(s, turns);
    RunReports(s, turns);
    RelaysAccounted(s, turns, w);
    var t := Run(s, turns);
    NothingLeft(t, Ahead(w), Beyond(w));
    SumZero(Unreported(t.provs, w));
  }

  /** The printed counts of all provinces add up to the total length of those paths, each province printed once. */
  lemma FinalTotal(s: State, turns: seq<Turn>)
    requires Init(s) && Run(s, turns).boss.Done?
    ensures var t := Run(s, turns); Reported(t.printed, Everywhere) == PathTotal(s.net.routes, t.injected)
    ensures var t := Run(s, turns); forall k :: 0 <= k < |t.provs| ==> Mentions(t.printed, k) == 1
  {
    FinalCounts(s, turns, Everywhere);
    DemandOfAll(s.net.routes, Run(s, turns).injected);
    RunReports(s, turns);
    var t := Run(s, turns);
    forall k | 0 <= k < |t.provs|
      ensures Mentions(t.printed, k) == 1
    {
      assert HasReported(t, k);
    }
  }

  /** No packet of an unsteady path is among the finished, none of a steady one among the refused. */
  lemma NotThere(s: State, id: nat)
    requires Inv(s) && id < |s.injected| && s.injected[id] < |s.net.routes|
    ensures !Steady(s.net.routes[s.injected[id]]) ==> PacketSum(s.finished, HasId(id)) == 0
    ensures Steady(s.net.routes[s.injected[id]]) ==> PacketSum(s.lost, HasId(id)) == 0
  {
    var path := s.net.routes[s.injected[id]];
    forall j | 0 <= j < |s.finished| && !Steady(path)
      ensures HasId(id)(s.finished[j]) == 0
    {
      assert Complete(s.net, s.injected, s.finished[j]);
    }
    forall j | 0 <= j < |s.lost| && Steady(path)
      ensures HasId(id)(s.lost[j]) == 0
    {
      assert Stopped(s.net, s.injected, s.lost[j]);
    }
    if Steady(path) {
      PacketSumZero(s.lost, HasId(id));
    } else {
      PacketSumZero(s.finished, HasId(id));
    }
  }

  /** And an injected packet has finished, exactly once, exactly if its path names no province twice in a row. */
  lemma AllDelivered(s: State, turns: seq<Turn>, id: nat)
    requires Init(s) && Run(s, turns).boss.Done? && id < |Run(s, turns).injected|
    ensures var t := Run(s, turns); t.injected[id] < |s.net.routes|
    ensures var t := Run(s, turns); PacketSum(t.finished, HasId(id)) == if Steady(s.net.routes[t.injected[id]]) then 1 else 0
  {
    RunInv(s, turns);
    RunReports(s, turns);
    PacketsConserved(s, turns, id);
    var t := Run(s, turns);
    NotThere(t, id);
    if Steady(s.net.routes[t.injected[id]]) {
      NothingLeft(t, HasId(id), HasId(id));
    }
  }

  // ---- exactly which graphs let the cascade end ----

  /** level holds the times at which the departed provinces left; each left after all its predecessors. */
  ghost predicate Departed(s: State, level: seq<nat>, now: nat)
    requires Shape(s)
  {
    && |level| == |s.provs|
    && (forall k :: 0 <= k < |s.provs| && s.provs[k].pc.Gone? ==> level[k] < now)
    && (forall e :: 0 < e < |s.net.edges| ==> InOrder(s, level, s.net.edges[e]))
  }

  predicate InOrder(s: State, level: seq<nat>, edge: Edge)
    requires Shape(s) && |level| == |s.provs|
  {
    GoodEdge(s.net, edge) && (Loops(edge) || !s.provs[edge.to].pc.Gone? || (s.provs[edge.from.k].pc.Gone? && level[edge.from.k] < level[edge.to]))
  }

  /** A province that leaves has seen all its predecessors leave. */
  lemma PredecessorsGone(s: State, e: nat)
    requires Inv(s) && 0 < e < |s.net.edges| && !Loops(s.net.edges[e]) && s.net.edges[e].to < |s.provs| && Leaving(s.provs[s.net.edges[e].to].pc)
    ensures GoodEdge(s.net, s.net.edges[e]) && s.provs[s.net.edges[e].from.k].pc.Gone?
  {
    assert ProvOk(s, s.net.edges[e].to) && PipeOk(s, e);
    assert GoodEdge(s.net, s.net.edges[e]);
  }

  lemma LeavesLast(s: State, level: seq<nat>, now: nat, k: nat, c: Choice)
    requires Inv(s) && Departed(s, level, now) && k < |s.provs| && s.provs[k].pc.Closing?
    ensures Departed(ProvinceNext(s, k, c).value, level[k := now], now + 1)
  {
    var t := ProvinceNext(s, k, c).value;
    forall e | 0 < e < |t.net.edges|
      ensures InOrder(t, level[k := now], t.net.edges[e])
    {
      assert InOrder(s, level, s.net.edges[e]);
      if s.net.edges[e].to == k && !Loops(s.net.edges[e]) {
        PredecessorsGone(s, e);
      }
    }
  }

  lemma NobodyLeaves(s: State, level: seq<nat>, now: nat, p: Node, c: Choice)
    requires Inv(s) && Departed(s, level, now) && Next(s, p, c).Some?
    requires p.Province? ==> !s.provs[p.k].pc.Closing?
    ensures Departed(Next(s, p, c).value, level, now + 1)
  {
    var t := Next(s, p, c).value;
    forall k | 0 <= k < |s.provs|
      ensures t.provs[k].pc.Gone? <==> s.provs[k].pc.Gone?
    {
    }
    forall e | 0 < e < |t.net.edges|
      ensures InOrder(t, level, t.net.edges[e])
    {
      assert InOrder(s, level, s.net.edges[e]);
    }
  }

  lemma {:induction false} ExitTimes(s: State, turns: seq<Turn>) returns (level: seq<nat>)
    requires Init(s)
    ensures Departed(Run(s, turns), level, |turns|)
  {
    if turns == [] {
      level := seq(|s.provs|, k => 0);
      assert forall e :: 0 < e < |s.net.edges| ==> GoodEdge(s.net, s.net.edges[e]);
    } else {
      var front := turns[..|turns| - 1];
      level := ExitTimes(s, front);
      RunInv(s, front);
      var u := Run(s, front);
      var last := turns[|turns| - 1];
      if Next(u, last.p, last.c).Some? {
        if last.p.Province? && u.provs[last.p.k].pc.Closing? {
          LeavesLast(u, level, |front|, last.p.k, last.c);
          level := level[last.p.k := |front|];
        } else {
          NobodyLeaves(u, level, |front|, last.p, last.c);
        }
      }
    }
  }

  /** A cascade that has ended has ordered the provinces: no run ends on a graph with a cycle through two or more of them. */
  lemma EndMeansAcyclic(s: State, turns: seq<Turn>) returns (level: seq<nat>)
    requires Init(s) && Run(s, turns).boss.Done?
    ensures Acyclic(s.net, level)
  {
    level := ExitTimes(s, turns);
    RunReports(s, turns);
    var t := Run(s, turns);
    forall e | 0 < e < |t.net.edges|
      ensures Climbs(t.net, level, t.net.edges[e])
    {
      assert InOrder(t, level, t.net.edges[e]);
    }
  }

  lemma RunOne(s: State, turns: seq<Turn>, p: Node, c: Choice) returns (more: seq<Turn>)
    requires Shape(s) && Next(Run(s, turns), p, c).Some?
    ensures Run(s, more) == Next(Run(s, turns), p, c).value
  {
    more := turns + [Turn(p, c)];
    assert more[..|more| - 1] == turns;
  }

  /** Once the boss has closed its pipe, letting whoever can move do so ends the cascade. */
  lemma {:induction false} Finishes(s: State, level: seq<nat>, turns: seq<Turn>) returns (more: seq<Turn>)
    requires Init(s) && Acyclic(s.net, level) && !BossWrites(Run(s, turns).boss)
    ensures Run(s, more).boss.Done?
    decreases Rank(Run(s, turns))
  {
    var u := Run(s, turns);
    more := turns;
    if !Ended(u) {
      RunInv(s, turns);
      var p, c := SomeoneMoves(u, level);
      RankFalls(u, p, c);
      RankNonnegative(Next(u, p, c).value);
      var next := RunOne(s, turns, p, c);
      more := Finishes(s, level, next);
    }
  }

  /**
   The cascade can end exactly on the graphs without a cycle through two or more provinces; there, by DeadlockFree and
   CascadeEnds, it always does.
   */
  lemma CascadeEndsExactly(s: State)
    requires Init(s)
    ensures (exists turns :: Run(s, turns).boss.Done?) <==> exists level :: Acyclic(s.net, level)
  {
    if turns :| Run(s, turns).boss.Done? {
      var level := EndMeansAcyclic(s, turns);
    }
    if level :| Acyclic(s.net, level) {
      assert Run(s, []) == s;
      var turns := RunOne(s, [], Boss, Choice(0, false));
      turns := RunOne(s, turns, Boss, Choice(0, false));
      turns := Finishes(s, level, turns);
    }
  }
}
