/** The whole router in place: the boss, the provinces and the kernel's view of their pipes. */
module RouterNet {
  import opened Counting
  import opened Router
  import opened RouterProcess

  /** The parent after its forks. */
  class BossProcess {
    var pc: BossPc
    var injected: seq<nat>          // history: the routes sent so far
    var printed: seq<Summary>

    constructor ()
      ensures pc == BossPc.Start && injected == [] && printed == []
    {
      pc, injected, printed := BossPc.Start, [], [];
    }

    ghost predicate Of(s: State)
      reads this
    {
      s.boss == pc && s.injected == injected && s.printed == printed
    }

    /** The injection loop; refused is the kernel's EPIPE. */
    method InjectTurn(net: Net, refused: bool, wires: Wires, ghost s: State, ghost c: Choice) returns (moved: bool)
      requires Shape(s) && Of(s) && wires.Of(s) && net == s.net && pc.Inject? && refused == !HasReader(s, 0)
      modifies this, wires.pipes, wires`lost
      ensures match BossNext(s, c)
        case None => !moved && Of(s) && wires.Of(s)
        case Some(t) => moved && Of(t) && wires.Of(t)
    {
      moved := true;
      var r := pc.r;
      if r >= |net.routes| {
        pc := Fifo;
      } else if refused || |wires.pipes[0]| < net.cap {
        if refused {
          wires.lost := wires.lost + [Packet(|injected|, net.routes[r], 0, [])];
        } else {
          wires.pipes[0] := wires.pipes[0] + [Packet(|injected|, net.routes[r], 0, [])];
        }
        injected := injected + [r];
        pc := Inject(r + 1);
      } else {
        moved := false;
      }
    }

    /** Everything else: the FIFO, and collecting the reports until every province has gone. */
    method OtherTurn(trigger: bool, allGone: bool, wires: Wires, ghost s: State, ghost c: Choice) returns (moved: bool)
      requires Shape(s) && Of(s) && wires.Of(s) && !pc.Inject? && c.trigger == trigger
      requires allGone == forall k :: 0 <= k < |s.provs| ==> s.provs[k].pc.Gone?
      modifies this, wires`reports
      ensures match BossNext(s, c)
        case None => !moved && Of(s) && wires.Of(s)
        case Some(t) => moved && Of(t) && wires.Of(t)
    {
      moved := true;
      match pc
      case Start => pc := Fifo;
      case Fifo => pc := if trigger then Inject(0) else Collect;
      case Collect =>
        if wires.reports != [] {
          printed := printed + [wires.reports[0]];
          wires.reports := wires.reports[1..];
        } else if allGone {
          pc := Done;
        } else {
          moved := false;
        }
      case _ => moved := false;
    }
  }

  /** Province k is number k, and no two share their in_fds. */
  ghost predicate Posted(provs: seq<ProvinceProcess>)
  {
    && (forall k :: 0 <= k < |provs| ==> provs[k].k == k)
    && (forall i, j :: 0 <= i < j < |provs| ==> provs[i] != provs[j] && provs[i].inFds != provs[j].inFds)
  }

  /** s is the state these processes and pipes are in. */
  ghost predicate InState(provs: seq<ProvinceProcess>, boss: BossProcess, wires: Wires, net: Net, s: State)
    reads provs, set p: ProvinceProcess | p in provs :: p.inFds, boss, wires, wires.pipes
  {
    && Shape(s) && s.net == net && boss.Of(s) && wires.Of(s) && |provs| == |s.provs|
    && (forall k :: 0 <= k < |provs| ==> provs[k].Of(s))
  }

  /** main up to the forks' first turns, for a network set up from the routes. */
  method Open(net: Net) returns (provs: seq<ProvinceProcess>, boss: BossProcess, wires: Wires, ghost s: State)
    requires Wired(net)
    ensures Posted(provs) && InState(provs, boss, wires, net, s) && Init(s)
  {
    var n := |net.edges|;
    s := State(net, seq(n, e => []), seq(n, e requires 0 <= e < n => !Loops(net.edges[e])), seq(net.n, k => Prov(Pc.Start, 0)), BossPc.Start, [], [], [], [], []);
    provs := [];
    while |provs| < net.n
      invariant |provs| <= net.n && Posted(provs) && forall k :: 0 <= k < |provs| ==> provs[k].Of(s)
      decreases net.n - |provs|
    {
      var p := new ProvinceProcess(|provs|, s, net.edges);
      provs := provs + [p];
    }
    wires := new Wires(n);
    boss := new BossProcess();
    assert wires.pipes[..] == s.pipes;
  }

  // ---- what the kernel knows ----

  method SomebodyStarts(provs: seq<ProvinceProcess>, boss: BossProcess, wires: Wires, net: Net, ghost s: State) returns (b: bool)
    requires Posted(provs) && InState(provs, boss, wires, net, s)
    ensures b == AnyStart(s)
  {
    if boss.pc.Start? {
      return true;
    }
    var k := 0;
    while k < |provs|
      invariant 0 <= k <= |provs| && forall j :: 0 <= j < k ==> !s.provs[j].pc.Start?
    {
      assert provs[k].Of(s);
      if provs[k].pc.Start? {
        return true;
      }
      k := k + 1;
    }
    return false;
  }

  method EverybodyGone(provs: seq<ProvinceProcess>, boss: BossProcess, wires: Wires, net: Net, ghost s: State) returns (b: bool)
    requires Posted(provs) && InState(provs, boss, wires, net, s)
    ensures b == forall k :: 0 <= k < |s.provs| ==> s.provs[k].pc.Gone?
  {
    var k := 0;
    while k < |provs|
      invariant 0 <= k <= |provs| && forall j :: 0 <= j < k ==> s.provs[j].pc.Gone?
    {
      assert provs[k].Of(s);
      if !provs[k].pc.Gone? {
        return false;
      }
      k := k + 1;
    }
    return true;
  }

  /** Does any process hold the write end of pipe e? */
  method Writers(provs: seq<ProvinceProcess>, boss: BossProcess, wires: Wires, net: Net, e: nat, ghost s: State) returns (b: bool)
    requires Posted(provs) && InState(provs, boss, wires, net, s) && e < |net.edges|
    ensures b == HasWriter(s, e)
  {
    b := SomebodyStarts(provs, boss, wires, net, s);
    if !b {
      match net.edges[e].from
      case Boss => b := BossWrites(boss.pc);
      case Province(i) =>
        if i < |provs| {
          assert provs[i].Of(s);
          b := !provs[i].pc.Gone?;
        }
    }
  }

  /** Does any process hold the read end of pipe e? */
  method Readers(provs: seq<ProvinceProcess>, boss: BossProcess, wires: Wires, net: Net, e: nat, ghost s: State) returns (b: bool)
    requires Posted(provs) && InState(provs, boss, wires, net, s) && e < |net.edges|
    ensures b == HasReader(s, e)
  {
    b := SomebodyStarts(provs, boss, wires, net, s);
    var j := net.edges[e].to;
    if !b && j < |provs| {
      assert provs[j].Of(s);
      var i := provs[j].IndexOf(e, s);
      b := i < provs[j].inFds.Length && !provs[j].pc.Gone?;
    }
  }

  // ---- turns ----

  /** A province's step changes no other province and closes only its own inputs. */
  lemma StepLocal(s: State, p: Node, c: Choice)
    requires Shape(s) && Next(s, p, c).Some?
    ensures var t := Next(s, p, c).value;
      && (forall j :: 0 <= j < |s.provs| && p != Province(j) ==> t.provs[j] == s.provs[j])
      && (forall e :: 0 <= e < |s.open| && p != Province(s.net.edges[e].to) ==> t.open[e] == s.open[e])
      && (p.Province? ==> t.boss == s.boss && t.injected == s.injected && t.printed == s.printed)
  {
  }

  method ProvinceTurn(provs: seq<ProvinceProcess>, boss: BossProcess, wires: Wires, net: Net, k: nat, c: Choice, ghost s: State)
      returns (moved: bool)
    requires Posted(provs) && InState(provs, boss, wires, net, s) && k < |provs|
    modifies provs[k], provs[k].inFds, wires, wires.pipes
    ensures match ProvinceNext(s, k, c)
      case None => !moved && provs[k].Of(s) && wires.Of(s)
      case Some(t) => moved && provs[k].Of(t) && wires.Of(t)
  {
    var p := provs[k];
    assert p.Of(s);
    if p.pc.Poll? {
      var i := p.IndexOf(c.e, s);
      var eof := false;
      if i < p.inFds.Length {
        var w := Writers(provs, boss, wires, net, c.e, s);
        eof := !w;
        moved := p.PollTurn(i, eof, wires, s);
      } else {
        p.NoneActive(s);
        if p.active == 0 {
          moved := p.PollTurn(i, eof, wires, s);
        } else {
          moved := false;
        }
      }
    } else if p.pc.Forward? {
      var pkt := p.pc.pkt;
      if pkt.step + 1 < |pkt.path| {
        var e := EdgeTo(net.edges, k, pkt.path[pkt.step + 1]);
        var refused := false;
        if e < |net.edges| {
          var r := Readers(provs, boss, wires, net, e, s);
          refused := !r;
        }
        moved := p.ForwardTurn(net.edges, net.cap, refused, wires, s);
      } else {
        moved := false;
      }
    } else {
      moved := p.LeaveTurn(wires, s, c);
    }
  }

  /** One turn of the boss or of a province, with the kernel's answers taken from the processes themselves. */
  method Turns(provs: seq<ProvinceProcess>, boss: BossProcess, wires: Wires, net: Net, p: Node, c: Choice, ghost s: State)
    requires Posted(provs) && InState(provs, boss, wires, net, s)
    modifies provs, set q: ProvinceProcess | q in provs :: q.inFds
    modifies boss, wires, wires.pipes
    ensures InState(provs, boss, wires, net, match Next(s, p, c) case None => s case Some(t) => t)
  {
    ghost var step := Next(s, p, c);
    if step.Some? {
      StepLocal(s, p, c);
    }
    var moved;
    match p {
      case Boss =>
        if boss.pc.Inject? {
          var r := Readers(provs, boss, wires, net, 0, s);
          moved := boss.InjectTurn(net, !r, wires, s, c);
        } else {
          var gone := EverybodyGone(provs, boss, wires, net, s);
          moved := boss.OtherTurn(c.trigger, gone, wires, s, c);
        }
      case Province(k) =>
        if k < |provs| {
          moved := ProvinceTurn(provs, boss, wires, net, k, c, s);
        }
    }
    ghost var t := match step case None => s case Some(t) => t;
    forall j | 0 <= j < |provs|
      ensures provs[j].Of(t)
    {
      if p != Province(j) {
        assert old(provs[j].Of(s));
        provs[j].OfOther(s, t);
      }
    }
  }

  /** A whole schedule of the boss and the provinces. */
  method Deliver(provs: seq<ProvinceProcess>, boss: BossProcess, wires: Wires, net: Net, turns: seq<Turn>, ghost s: State)
    requires Posted(provs) && InState(provs, boss, wires, net, s)
    modifies provs, set q: ProvinceProcess | q in provs :: q.inFds
    modifies boss, wires, wires.pipes
    ensures InState(provs, boss, wires, net, Run(s, turns))
  {
    var n := 0;
    assert turns[..0] == [];
    while n < |turns|
      invariant 0 <= n <= |turns| && InState(provs, boss, wires, net, Run(s, turns[..n]))
    {
      Turns(provs, boss, wires, net, turns[n].p, turns[n].c, Run(s, turns[..n]));
      assert turns[..n + 1][..n] == turns[..n];
      n := n + 1;
    }
    assert turns[..n] == turns;
  }
}
