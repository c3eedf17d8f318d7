/** Bookkeeping over all runs: each injected packet is in one place, and the reports add up to the paths injected. */
module RouterCounts {
  import opened Counting
  import opened Router
  import opened RouterSafety

  // ---- sums over the packets under way ----

  function PacketSum(pkts: seq<Packet>, f: Packet -> int): int
  {
    if pkts == [] then 0 else f(pkts[0]) + PacketSum(pkts[1..], f)
  }

  lemma {:induction false} PacketSumAppend(pkts: seq<Packet>, pkt: Packet, f: Packet -> int)
    ensures PacketSum(pkts + [pkt], f) == PacketSum(pkts, f) + f(pkt)
  {
    if pkts != [] {
      assert (pkts + [pkt])[1..] == pkts[1..] + [pkt];
      PacketSumAppend(pkts[1..], pkt, f);
    }
  }

  function PipeSums(pipes: seq<seq<Packet>>, f: Packet -> int): (r: seq<int>)
    ensures |r| == |pipes|
  {
    seq(|pipes|, e requires 0 <= e < |pipes| => PacketSum(pipes[e], f))
  }

  function HeldSums(provs: seq<Prov>, g: Packet -> int): (r: seq<int>)
    ensures |r| == |provs|
  {
    seq(|provs|, k requires 0 <= k < |provs| => HeldSum(provs[k], g))
  }

  function HeldSum(p: Prov, g: Packet -> int): int { if p.pc.Forward? then g(p.pc.pkt) else 0 }

  /** A packet weighs f while in a pipe and g while a province holds it. */
  function InFlight(s: State, f: Packet -> int, g: Packet -> int): int
  {
    Sum(PipeSums(s.pipes, f)) + Sum(HeldSums(s.provs, g))
  }

  lemma PipeChanges(pipes: seq<seq<Packet>>, e: nat, now: seq<Packet>, f: Packet -> int)
    requires e < |pipes|
    ensures Sum(PipeSums(pipes[e := now], f)) == Sum(PipeSums(pipes, f)) - PacketSum(pipes[e], f) + PacketSum(now, f)
  {
    SumUpdate(PipeSums(pipes, f), e, PacketSum(now, f));
    assert PipeSums(pipes[e := now], f) == PipeSums(pipes, f)[e := PacketSum(now, f)];
  }

  lemma HeldChanges(provs: seq<Prov>, k: nat, now: Prov, g: Packet -> int)
    requires k < |provs|
    ensures Sum(HeldSums(provs[k := now], g)) == Sum(HeldSums(provs, g)) - HeldSum(provs[k], g) + HeldSum(now, g)
  {
    SumUpdate(HeldSums(provs, g), k, HeldSum(now, g));
    assert HeldSums(provs[k := now], g) == HeldSums(provs, g)[k := HeldSum(now, g)];
  }

  /** Packets entering and leaving the net in one step. */
  ghost predicate Entered(s: State, p: Node, t: State, pkt: Packet)
    requires Shape(s)
  {
    && p.Boss? && s.boss.Inject? && s.boss.r < |s.net.routes|
    && pkt == Packet(|s.injected|, s.net.routes[s.boss.r], 0, [])
    && t.injected == s.injected + [s.boss.r] && t.pipes == s.pipes[0 := s.pipes[0] + [pkt]]
    && t.provs == s.provs && t.finished == s.finished && t.lost == s.lost && t.reports == s.reports && t.printed == s.printed
  }

  ghost predicate Received(s: State, p: Node, t: State, e: nat)
    requires Shape(s)
  {
    && p.Province? && p.k < |s.provs| && s.provs[p.k].pc.Poll? && e < |s.net.edges| && s.net.edges[e].to == p.k && s.open[e] && s.pipes[e] != []
    && t.pipes == s.pipes[e := s.pipes[e][1..]] && t.injected == s.injected && t.lost == s.lost
    && t.reports == s.reports && t.printed == s.printed
    && var pkt := s.pipes[e][0].(visited := s.pipes[e][0].visited + [p.k]);
       if pkt.step + 1 < |pkt.path| then
         t.provs == s.provs[p.k := Prov(Forward(pkt), s.provs[p.k].relayed + 1)] && t.finished == s.finished
       else
         t.provs == s.provs[p.k := Prov(Poll, s.provs[p.k].relayed + 1)] && t.finished == s.finished + [pkt]
  }

  ghost predicate Forwarded(s: State, p: Node, t: State, e: nat)
    requires Shape(s)
  {
    && p.Province? && p.k < |s.provs| && s.provs[p.k].pc.Forward? && e < |s.net.edges|
    && var pkt := s.provs[p.k].pc.pkt;
       && t.pipes == s.pipes[e := s.pipes[e] + [pkt.(step := pkt.step + 1)]]
       && t.provs == s.provs[p.k := s.provs[p.k].(pc := Poll)]
       && t.injected == s.injected && t.finished == s.finished && t.lost == s.lost && t.reports == s.reports && t.printed == s.printed
  }

  /** Written to a pipe nobody reads. */
  ghost predicate Refused(s: State, p: Node, t: State)
    requires Shape(s)
  {
    && p.Province? && p.k < |s.provs| && s.provs[p.k].pc.Forward?
    && var pkt := s.provs[p.k].pc.pkt;
       && t.lost == s.lost + [pkt.(step := pkt.step + 1)] && pkt.step + 1 == Reach(pkt.path)
       && t.provs == s.provs[p.k := s.provs[p.k].(pc := Poll)]
       && t.pipes == s.pipes && t.injected == s.injected && t.finished == s.finished && t.reports == s.reports && t.printed == s.printed
  }

  ghost predicate Told(s: State, p: Node, t: State)
    requires Shape(s)
  {
    && p.Province? && p.k < |s.provs| && s.provs[p.k].pc.Report?
    && t.provs == s.provs[p.k := s.provs[p.k].(pc := Closing)] && t.reports == s.reports + [Summary(p.k, s.provs[p.k].relayed)]
    && t.pipes == s.pipes && t.injected == s.injected && t.finished == s.finished && t.lost == s.lost && t.printed == s.printed
  }

  ghost predicate Printed(s: State, p: Node, t: State)
    requires Shape(s)
  {
    && p.Boss? && s.boss.Collect? && s.reports != [] && t.reports == s.reports[1..] && t.printed == s.printed + [s.reports[0]]
    && t.provs == s.provs && t.pipes == s.pipes && t.injected == s.injected && t.finished == s.finished && t.lost == s.lost
  }

  /** No packet and no report moves; a province may change its program counter outside forwarding and reporting. */
  ghost predicate Still(s: State, p: Node, t: State)
    requires Shape(s)
  {
    && t.pipes == s.pipes && t.injected == s.injected && t.finished == s.finished && t.lost == s.lost
    && t.reports == s.reports && t.printed == s.printed
    && (t.provs == s.provs
        || (p.Province? && p.k < |s.provs| && !s.provs[p.k].pc.Forward? && !s.provs[p.k].pc.Report?
            && (s.provs[p.k].pc.Closing? || !Leaving(s.provs[p.k].pc))
            && exists q: Prov :: t.provs == s.provs[p.k := q] && q.relayed == s.provs[p.k].relayed && !q.pc.Forward?
                 && (HasTold(q) <==> HasTold(s.provs[p.k]))))
  }

  /** Past its report. */
  predicate HasTold(p: Prov) { p.pc.Closing? || p.pc.Gone? }

  lemma BossAccounts(s: State, c: Choice)
    requires Inv(s) && BossNext(s, c).Some?
    ensures var t := BossNext(s, c).value;
      || Still(s, Boss, t) || Printed(s, Boss, t)
      || (s.boss.Inject? && s.boss.r < |s.net.routes| && Entered(s, Boss, t, Packet(|s.injected|, s.net.routes[s.boss.r], 0, [])))
  {
    if s.boss.Inject? {
      ReaderStays(s, 0);
    }
  }

  lemma PollAccounts(s: State, k: nat, e: nat)
    requires Shape(s) && k < |s.provs| && s.provs[k].pc.Poll? && PollNext(s, k, e).Some?
    ensures var t := PollNext(s, k, e).value; Still(s, Province(k), t) || Received(s, Province(k), t, e)
  {
    if NoInputs(s, k) {
      var q := s.provs[k].(pc := Pc.Report);
      assert PollNext(s, k, e).value.provs == s.provs[k := q];
    }
  }

  lemma OtherAccounts(s: State, k: nat, c: Choice)
    requires Shape(s) && k < |s.provs| && !s.provs[k].pc.Poll? && !s.provs[k].pc.Forward? && ProvinceNext(s, k, c).Some?
    ensures var t := ProvinceNext(s, k, c).value; Still(s, Province(k), t) || Told(s, Province(k), t)
  {
    if s.provs[k].pc.Start? {
      var q := s.provs[k].(pc := Poll);
      assert ProvinceNext(s, k, c).value.provs == s.provs[k := q];
    } else if s.provs[k].pc.Closing? {
      var q := s.provs[k].(pc := Gone);
      assert ProvinceNext(s, k, c).value.provs == s.provs[k := q];
    }
  }

  lemma ForwardAccounts(s: State, k: nat)
    requires Inv(s) && k < |s.provs| && s.provs[k].pc.Forward? && ForwardNext(s, k, s.provs[k].pc.pkt).Some?
    ensures var pkt := s.provs[k].pc.pkt; var t := ForwardNext(s, k, pkt).value;
      Refused(s, Province(k), t) || Forwarded(s, Province(k), t, EdgeTo(s.net.edges, k, pkt.path[pkt.step + 1]))
  {
    ForwardFinds(s, k);
  }

  /** Every step is one of these. */
  lemma StepAccounts(s: State, p: Node, c: Choice)
    requires Inv(s) && Next(s, p, c).Some?
    ensures var t := Next(s, p, c).value;
      || Still(s, p, t) || Printed(s, p, t) || Told(s, p, t) || Received(s, p, t, c.e) || Refused(s, p, t)
      || (p.Province? && p.k < |s.provs| && s.provs[p.k].pc.Forward? && s.provs[p.k].pc.pkt.step + 1 < |s.provs[p.k].pc.pkt.path|
          && Forwarded(s, p, t, EdgeTo(s.net.edges, p.k, s.provs[p.k].pc.pkt.path[s.provs[p.k].pc.pkt.step + 1])))
      || (s.boss.Inject? && s.boss.r < |s.net.routes| && Entered(s, p, t, Packet(|s.injected|, s.net.routes[s.boss.r], 0, [])))
  {
    match p
    case Boss => BossAccounts(s, c);
    case Province(k) =>
      if s.provs[k].pc.Poll? {
        PollAccounts(s, k, c.e);
      } else if s.provs[k].pc.Forward? {
        ForwardAccounts(s, k);
        ForwardFinds(s, k);
      } else {
        OtherAccounts(s, k, c);
      }
  }

  // ---- how the weight under way changes ----

  lemma EnteredWeight(s: State, p: Node, t: State, pkt: Packet, f: Packet -> int, g: Packet -> int)
    requires Shape(s) && Entered(s, p, t, pkt)
    ensures InFlight(t, f, g) == InFlight(s, f, g) + f(pkt)
  {
    PipeChanges(s.pipes, 0, s.pipes[0] + [pkt], f);
    PacketSumAppend(s.pipes[0], pkt, f);
  }

  lemma ReceivedWeight(s: State, p: Node, t: State, e: nat, f: Packet -> int, g: Packet -> int)
    requires Shape(s) && Received(s, p, t, e)
    ensures var pkt := s.pipes[e][0].(visited := s.pipes[e][0].visited + [p.k]);
      InFlight(t, f, g) == InFlight(s, f, g) - f(s.pipes[e][0]) + (if pkt.step + 1 < |pkt.path| then g(pkt) else 0)
  {
    PipeChanges(s.pipes, e, s.pipes[e][1..], f);
    HeldChanges(s.provs, p.k, t.provs[p.k], g);
  }

  lemma ForwardedWeight(s: State, p: Node, t: State, e: nat, f: Packet -> int, g: Packet -> int)
    requires Shape(s) && Forwarded(s, p, t, e)
    ensures var pkt := s.provs[p.k].pc.pkt;
      InFlight(t, f, g) == InFlight(s, f, g) - g(pkt) + f(pkt.(step := pkt.step + 1))
  {
    var pkt := s.provs[p.k].pc.pkt;
    PipeChanges(s.pipes, e, s.pipes[e] + [pkt.(step := pkt.step + 1)], f);
    PacketSumAppend(s.pipes[e], pkt.(step := pkt.step + 1), f);
    HeldChanges(s.provs, p.k, s.provs[p.k].(pc := Poll), g);
  }

  lemma RefusedWeight(s: State, p: Node, t: State, f: Packet -> int, g: Packet -> int)
    requires Shape(s) && Refused(s, p, t)
    ensures InFlight(t, f, g) == InFlight(s, f, g) - g(s.provs[p.k].pc.pkt)
  {
    HeldChanges(s.provs, p.k, s.provs[p.k].(pc := Poll), g);
  }

  lemma RestWeight(s: State, p: Node, t: State, f: Packet -> int, g: Packet -> int)
    requires Shape(s) && (Still(s, p, t) || Printed(s, p, t) || Told(s, p, t))
    ensures InFlight(t, f, g) == InFlight(s, f, g)
  {
    if t.provs != s.provs {
      HeldChanges(s.provs, p.k, t.provs[p.k], g);
      assert t.provs == s.provs[p.k := t.provs[p.k]];
    }
  }

  // ---- each packet is in one place ----

  function HasId(id: nat): Packet -> int { (pkt: Packet) => if pkt.id == id then 1 else 0 }

  /** How often packet id occurs in the pipes, in the provinces' hands, among the finished and among the refused. */
  function Places(s: State, id: nat): int
  {
    InFlight(s, HasId(id), HasId(id)) + PacketSum(s.finished, HasId(id)) + PacketSum(s.lost, HasId(id))
  }

  lemma PlacesStep(s: State, p: Node, c: Choice, id: nat)
    requires Inv(s) && Next(s, p, c).Some?
    ensures var t := Next(s, p, c).value;
      Places(t, id) == Places(s, id) + (if t.injected != s.injected && id == |s.injected| then 1 else 0)
  {
    StepAccounts(s, p, c);
    var t := Next(s, p, c).value;
    var f := HasId(id);
    if Still(s, p, t) || Printed(s, p, t) || Told(s, p, t) {
      RestWeight(s, p, t, f, f);
    } else if Received(s, p, t, c.e) {
      ReceivedWeight(s, p, t, c.e, f, f);
      PacketSumAppend(s.finished, s.pipes[c.e][0].(visited := s.pipes[c.e][0].visited + [p.k]), f);
    } else if p.Boss? {
      EnteredWeight(s, p, t, Packet(|s.injected|, s.net.routes[s.boss.r], 0, []), f, f);
    } else if Refused(s, p, t) {
      RefusedWeight(s, p, t, f, f);
      PacketSumAppend(s.lost, s.provs[p.k].pc.pkt.(step := s.provs[p.k].pc.pkt.step + 1), f);
    } else {
      var pkt := s.provs[p.k].pc.pkt;
      ForwardedWeight(s, p, t, EdgeTo(s.net.edges, p.k, pkt.path[pkt.step + 1]), f, f);
    }
  }

  // ---- the relay counts ----

  /** The part of a path that is travelled: up to the first province named twice in a row. */
  function Way(path: seq<nat>): seq<nat> { path[..Reach(path)] }

  /** The nodes of interest still to be visited by a packet in a pipe, or in a province's hands. */
  function Ahead(w: nat -> bool): Packet -> int
  {
    (pkt: Packet) => if pkt.step <= Reach(pkt.path) then Count(Way(pkt.path)[pkt.step..], w) else 0
  }

  function Beyond(w: nat -> bool): Packet -> int
  {
    (pkt: Packet) => if pkt.step < Reach(pkt.path) then Count(Way(pkt.path)[pkt.step + 1..], w) else 0
  }

  /** What the provinces of interest have counted and not reported yet. */
  function Unreported(provs: seq<Prov>, w: nat -> bool): (r: seq<int>)
    ensures |r| == |provs|
  {
    seq(|provs|, k requires 0 <= k < |provs| => Untold(k, provs[k], w))
  }

  function Untold(k: nat, p: Prov, w: nat -> bool): int { if w(k) && !HasTold(p) then p.relayed else 0 }

  function Reported(rs: seq<Summary>, w: nat -> bool): int
  {
    if rs == [] then 0 else (if w(rs[0].k) then rs[0].relayed else 0) + Reported(rs[1..], w)
  }

  /** How many nodes of interest the packets of the injected routes get to visit. */
  function Demand(routes: seq<seq<nat>>, injected: seq<nat>, w: nat -> bool): int
  {
    if injected == [] then 0
    else
      Demand(routes, injected[..|injected| - 1], w)
      + (if injected[|injected| - 1] < |routes| then Count(Way(routes[injected[|injected| - 1]]), w) else 0)
  }

  function Accounted(s: State, w: nat -> bool): int
  {
    InFlight(s, Ahead(w), Beyond(w)) + Sum(Unreported(s.provs, w)) + Reported(s.reports, w) + Reported(s.printed, w)
  }

  lemma {:induction false} ReportedAppend(rs: seq<Summary>, r: Summary, w: nat -> bool)
    ensures Reported(rs + [r], w) == Reported(rs, w) + (if w(r.k) then r.relayed else 0)
  {
    if rs != [] {
      assert (rs + [r])[1..] == rs[1..] + [r];
      ReportedAppend(rs[1..], r, w);
    }
  }

  lemma UnreportedChanges(provs: seq<Prov>, k: nat, now: Prov, w: nat -> bool)
    requires k < |provs|
    ensures Sum(Unreported(provs[k := now], w)) == Sum(Unreported(provs, w)) - Untold(k, provs[k], w) + Untold(k, now, w)
  {
    SumUpdate(Unreported(provs, w), k, Untold(k, now, w));
    assert Unreported(provs[k := now], w) == Unreported(provs, w)[k := Untold(k, now, w)];
  }

  /** Taking a packet from a pipe moves its next node from ahead to counted. */
  lemma OneFewerAhead(pkt: Packet, visited: seq<nat>, w: nat -> bool)
    requires pkt.step < Reach(pkt.path)
    ensures Ahead(w)(pkt) == (if w(pkt.path[pkt.step]) then 1 else 0) + Beyond(w)(pkt.(visited := visited))
    ensures pkt.step + 1 == Reach(pkt.path) ==> Beyond(w)(pkt.(visited := visited)) == 0
  {
    var rest := Way(pkt.path)[pkt.step..];
    assert rest[0] == pkt.path[pkt.step] && rest[1..] == Way(pkt.path)[pkt.step + 1..];
    assert Count(rest, w) == (if w(rest[0]) then 1 else 0) + Count(rest[1..], w);
  }

  /** The head of an open input has not come to a repeat. */
  lemma HeadTravels(s: State, e: nat)
    requires Inv(s) && e < |s.net.edges| && s.open[e] && s.pipes[e] != []
    ensures var pkt := s.pipes[e][0];
      pkt.step < Reach(pkt.path) && s.net.edges[e].to == pkt.path[pkt.step] && (pkt.step + 1 == |pkt.path| ==> Reach(pkt.path) == |pkt.path|)
  {
    assert PipeOk(s, e);
    assert InTransit(s.net, s.injected, e, s.pipes[e][0]);
  }

  lemma ReceivedAccounts(s: State, p: Node, t: State, e: nat, w: nat -> bool)
    requires Inv(s) && Received(s, p, t, e)
    ensures Accounted(t, w) == Accounted(s, w)
  {
    var pkt := s.pipes[e][0];
    HeadTravels(s, e);
    ReceivedWeight(s, p, t, e, Ahead(w), Beyond(w));
    OneFewerAhead(pkt, pkt.visited + [p.k], w);
    UnreportedChanges(s.provs, p.k, t.provs[p.k], w);
    assert Untold(p.k, t.provs[p.k], w) == Untold(p.k, s.provs[p.k], w) + (if w(p.k) then 1 else 0);
  }

  lemma ForwardedAccounts(s: State, p: Node, t: State, e: nat, w: nat -> bool)
    requires Inv(s) && Forwarded(s, p, t, e)
    ensures Accounted(t, w) == Accounted(s, w)
  {
    assert ProvOk(s, p.k);
    ForwardedWeight(s, p, t, e, Ahead(w), Beyond(w));
    UnreportedChanges(s.provs, p.k, s.provs[p.k].(pc := Poll), w);
  }

  lemma EnteredAccounts(s: State, p: Node, t: State, pkt: Packet, w: nat -> bool)
    requires Shape(s) && Entered(s, p, t, pkt)
    ensures Accounted(t, w) - Accounted(s, w) == Demand(s.net.routes, t.injected, w) - Demand(s.net.routes, s.injected, w)
  {
    EnteredWeight(s, p, t, pkt, Ahead(w), Beyond(w));
    assert Way(pkt.path)[0..] == Way(pkt.path);
    assert t.injected[..|t.injected| - 1] == s.injected;
  }

  lemma RefusedAccounts(s: State, p: Node, t: State, w: nat -> bool)
    requires Inv(s) && Refused(s, p, t)
    ensures Accounted(t, w) == Accounted(s, w)
  {
    RefusedWeight(s, p, t, Ahead(w), Beyond(w));
    UnreportedChanges(s.provs, p.k, s.provs[p.k].(pc := Poll), w);
  }

  lemma RestAccounts(s: State, p: Node, t: State, w: nat -> bool)
    requires Shape(s) && (Still(s, p, t) || Printed(s, p, t) || Told(s, p, t))
    ensures Accounted(t, w) == Accounted(s, w)
  {
    RestWeight(s, p, t, Ahead(w), Beyond(w));
    if t.provs != s.provs {
      UnreportedChanges(s.provs, p.k, t.provs[p.k], w);
      assert t.provs == s.provs[p.k := t.provs[p.k]];
    }
    if Told(s, p, t) {
      ReportedAppend(s.reports, Summary(p.k, s.provs[p.k].relayed), w);
    }
    if Printed(s, p, t) {
      ReportedAppend(s.printed, s.reports[0], w);
    }
  }

  lemma AccountsStep(s: State, p: Node, c: Choice, w: nat -> bool)
    requires Inv(s) && Next(s, p, c).Some?
    ensures var t := Next(s, p, c).value;
      Accounted(t, w) - Accounted(s, w) == Demand(s.net.routes, t.injected, w) - Demand(s.net.routes, s.injected, w)
  {
    StepAccounts(s, p, c);
    var t := Next(s, p, c).value;
    if Still(s, p, t) || Printed(s, p, t) || Told(s, p, t) {
      RestAccounts(s, p, t, w);
    } else if Received(s, p, t, c.e) {
      ReceivedAccounts(s, p, t, c.e, w);
    } else if p.Boss? {
      EnteredAccounts(s, p, t, Packet(|s.injected|, s.net.routes[s.boss.r], 0, []), w);
    } else if Refused(s, p, t) {
      RefusedAccounts(s, p, t, w);
    } else {
      var pkt := s.provs[p.k].pc.pkt;
      ForwardedAccounts(s, p, t, EdgeTo(s.net.edges, p.k, pkt.path[pkt.step + 1]), w);
    }
  }

  // ---- over runs ----

  lemma InitWeights(s: State, f: Packet -> int, g: Packet -> int, w: nat -> bool)
    requires Init(s)
    ensures InFlight(s, f, g) == 0 && Sum(Unreported(s.provs, w)) == 0
  {
    SumZero(PipeSums(s.pipes, f));
    SumZero(HeldSums(s.provs, g));
    SumZero(Unreported(s.provs, w));
  }

  lemma InjectedGrows(s: State, p: Node, c: Choice)
    requires Inv(s) && Next(s, p, c).Some?
    ensures var t := Next(s, p, c).value; t.injected == s.injected || |t.injected| == |s.injected| + 1
  {
    StepAccounts(s, p, c);
  }

  /** In every reachable state each packet ever injected is in exactly one pipe, one province's hands, finished or refused, once. */
  lemma {:induction false} PacketsConserved(s: State, turns: seq<Turn>, id: nat)
    requires Init(s)
    ensures Places(Run(s, turns), id) == if id < |Run(s, turns).injected| then 1 else 0
  {
    if turns == [] {
      InitWeights(s, HasId(id), HasId(id), (k: nat) => true);
    } else {
      var front := turns[..|turns| - 1];
      PacketsConserved(s, front, id);
      RunInv(s, front);
      var u := Run(s, front);
      var last := turns[|turns| - 1];
      if Next(u, last.p, last.c).Some? {
        PlacesStep(u, last.p, last.c, id);
        InjectedGrows(u, last.p, last.c);
      }
    }
  }

  /**
   For any set w of provinces: what they reported, counted, and still have coming is what the injected paths ask of them,
   each up to the first province named twice in a row.
   */
  lemma {:induction false} RelaysAccounted(s: State, turns: seq<Turn>, w: nat -> bool)
    requires Init(s)
    ensures Accounted(Run(s, turns), w) == Demand(s.net.routes, Run(s, turns).injected, w)
  {
    if turns == [] {
      InitWeights(s, Ahead(w), Beyond(w), w);
    } else {
      var front := turns[..|turns| - 1];
      RelaysAccounted(s, front, w);
      RunInv(s, front);
      var u := Run(s, front);
      var last := turns[|turns| - 1];
      if Next(u, last.p, last.c).Some? {
        AccountsStep(u, last.p, last.c, w);
      }
    }
  }
}
