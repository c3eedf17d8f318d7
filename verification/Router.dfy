/** Source-routed packets over a graph of province processes joined by pipes, and the cascading shutdown. */
module Router {
  import opened Counting

  datatype Node = Boss | Province(k: nat)

  /** A pipe; edge 0 is the one from the boss to province 0. */
  datatype Edge = Edge(from: Node, to: nat)

  /** The configuration: n provinces, the routes' paths, the pipes and their capacity in packets. */
  datatype Net = Net(n: nat, routes: seq<seq<nat>>, edges: seq<Edge>, cap: nat)

  /** id and visited are history: the number of the injection, and the provinces that have received the packet. */
  datatype Packet = Packet(id: nat, path: seq<nat>, step: nat, visited: seq<nat>)

  datatype Pc = Start | Poll | Forward(pkt: Packet) | Report | Closing | Gone

  datatype Prov = Prov(pc: Pc, relayed: nat)

  datatype BossPc = Start | Fifo | Inject(r: nat) | Collect | Done

  datatype Summary = Summary(k: nat, relayed: nat)

  /**
   open[e] says that pipe e is among its reader's inputs and not closed yet; a province closes the read end of a pipe to
   itself before it collects its inputs.  reports is the reports pipe, printed what the boss has
   read from it.  Histories: injected[id] is the route of packet id, finished and lost are the packets that ended.
   */
  datatype State = State(
    net: Net, pipes: seq<seq<Packet>>, open: seq<bool>, provs: seq<Prov>, boss: BossPc,
    reports: seq<Summary>, printed: seq<Summary>, injected: seq<nat>, finished: seq<Packet>, lost: seq<Packet>)
  {
    function Put(e: nat, pkt: Packet): State requires e < |pipes| { this.(pipes := pipes[e := pipes[e] + [pkt]]) }
    function At(k: nat, p: Prov): State requires k < |provs| { this.(provs := provs[k := p]) }
  }

  /** e is the input a province polls next, trigger whether the boss reads a letter rather than the end of its FIFO. */
  datatype Choice = Choice(e: nat, trigger: bool)

  predicate Shape(s: State)
  {
    |s.pipes| == |s.open| == |s.net.edges| && |s.net.edges| > 0 && |s.provs| == s.net.n
  }

  /** Until a process has closed the descriptors it does not use, it keeps every pipe open at both ends. */
  ghost predicate AnyStart(s: State)
  {
    s.boss.Start? || exists k :: 0 <= k < |s.provs| && s.provs[k].pc.Start?
  }

  predicate BossWrites(b: BossPc) { b.Start? || b.Fifo? || b.Inject? }

  ghost predicate HasWriter(s: State, e: nat)
    requires Shape(s) && e < |s.net.edges|
  {
    || AnyStart(s)
    || (match s.net.edges[e].from case Boss => BossWrites(s.boss) case Province(i) => i < |s.provs| && !s.provs[i].pc.Gone?)
  }

  ghost predicate HasReader(s: State, e: nat)
    requires Shape(s) && e < |s.net.edges|
  {
    AnyStart(s) || (s.open[e] && s.net.edges[e].to < |s.provs| && !s.provs[s.net.edges[e].to].pc.Gone?)
  }

  /** A pipe from a province to itself. */
  predicate Loops(edge: Edge) { edge.from == Province(edge.to) }

  /** The pipe pipes[k][j]. */
  function EdgeTo(edges: seq<Edge>, k: nat, j: nat): (e: nat)
    ensures e <= |edges| && (e < |edges| ==> edges[e] == Edge(Province(k), j))
    ensures e == |edges| ==> forall i :: 0 <= i < |edges| ==> edges[i] != Edge(Province(k), j)
  {
    if edges == [] then 0
    else if edges[0] == Edge(Province(k), j) then 0
    else
      var e := EdgeTo(edges[1..], k, j);
      assert forall i :: 0 < i < |edges| ==> edges[i] == edges[1..][i - 1];
      e + 1
  }

  /** The number of inputs province k has not closed: active_inputs. */
  ghost predicate NoInputs(s: State, k: nat)
    requires Shape(s)
  {
    forall e :: 0 <= e < |s.net.edges| && s.net.edges[e].to == k ==> !s.open[e]
  }

  ghost function BossNext(s: State, c: Choice): Option<State>
    requires Shape(s)
  {
    match s.boss
    case Start => Some(s.(boss := Fifo))
    case Fifo => Some(s.(boss := if c.trigger then Inject(0) else Collect))
    case Inject(r) =>
      if r >= |s.net.routes| then Some(s.(boss := Fifo))
      else
        var pkt := Packet(|s.injected|, s.net.routes[r], 0, []);
        if !HasReader(s, 0) then Some(s.(boss := Inject(r + 1), injected := s.injected + [r], lost := s.lost + [pkt]))
        else if |s.pipes[0]| >= s.net.cap then None
        else Some(s.(boss := Inject(r + 1), injected := s.injected + [r]).Put(0, pkt))
    case Collect =>
      if s.reports != [] then Some(s.(reports := s.reports[1..], printed := s.printed + [s.reports[0]]))
      else if forall k :: 0 <= k < |s.provs| ==> s.provs[k].pc.Gone? then Some(s.(boss := Done))
      else None
    case Done => None
  }

  /** One pass of province k over one of its inputs. */
  ghost function PollNext(s: State, k: nat, e: nat): Option<State>
    requires Shape(s) && k < |s.provs|
  {
    var p := s.provs[k];
    if NoInputs(s, k) then Some(s.At(k, p.(pc := Pc.Report)))
    else if e >= |s.net.edges| || s.net.edges[e].to != k || !s.open[e] then None
    else if s.pipes[e] != [] then
      var pkt := s.pipes[e][0].(visited := s.pipes[e][0].visited + [k]);
      var t := s.(pipes := s.pipes[e := s.pipes[e][1..]]);
      Some(if pkt.step + 1 < |pkt.path| then t.At(k, Prov(Forward(pkt), p.relayed + 1))
           else t.(finished := t.finished + [pkt]).At(k, Prov(Poll, p.relayed + 1)))
    else if !HasWriter(s, e) then Some(s.(open := s.open[e := false]))
    else None
  }

  ghost function ForwardNext(s: State, k: nat, pkt: Packet): Option<State>
    requires Shape(s) && k < |s.provs|
  {
    if pkt.step + 1 >= |pkt.path| then None
    else
      var e := EdgeTo(s.net.edges, k, pkt.path[pkt.step + 1]);
      var next := pkt.(step := pkt.step + 1);
      if e == |s.net.edges| then None
      else if !HasReader(s, e) then Some(s.(lost := s.lost + [next]).At(k, s.provs[k].(pc := Poll)))
      else if |s.pipes[e]| >= s.net.cap then None
      else Some(s.Put(e, next).At(k, s.provs[k].(pc := Poll)))
  }

  ghost function ProvinceNext(s: State, k: nat, c: Choice): Option<State>
    requires Shape(s) && k < |s.provs|
  {
    var p := s.provs[k];
    match p.pc
    case Start => Some(s.At(k, p.(pc := Poll)))
    case Poll => PollNext(s, k, c.e)
    case Forward(pkt) => ForwardNext(s, k, pkt)
    case Report => Some(s.(reports := s.reports + [Summary(k, p.relayed)]).At(k, p.(pc := Closing)))
    case Closing => Some(s.At(k, p.(pc := Gone)))
    case Gone => None
  }

  ghost function Next(s: State, p: Node, c: Choice): (t: Option<State>)
    requires Shape(s)
    ensures t.Some? ==> Shape(t.value) && t.value.net == s.net
  {
    match p
    case Boss => BossNext(s, c)
    case Province(k) => if k < |s.provs| then ProvinceNext(s, k, c) else None
  }

  datatype Turn = Turn(p: Node, c: Choice)

  ghost function Run(s: State, turns: seq<Turn>): (t: State)
    requires Shape(s)
    ensures Shape(t) && t.net == s.net
  {
    if turns == [] then s
    else
      var u := Run(s, turns[..|turns| - 1]);
      var last := turns[|turns| - 1];
      match Next(u, last.p, last.c) case None => u case Some(t) => t
  }

  /** Consecutive nodes of a path are joined by a pipe. */
  ghost predicate Joined(net: Net, path: seq<nat>)
  {
    forall h :: 0 < h < |path| ==> Linked(net, path[h - 1], path[h])
  }

  predicate Linked(net: Net, i: nat, j: nat) { EdgeTo(net.edges, i, j) < |net.edges| }

  /** What load_config and main set up, for routes that start at province 0. */
  ghost predicate Wired(net: Net)
  {
    && net.n > 0 && net.cap > 0
    && |net.edges| > 0 && net.edges[0] == Edge(Boss, 0)
    && (forall e :: 0 < e < |net.edges| ==> GoodEdge(net, net.edges[e]))
    && (forall r :: 0 <= r < |net.routes| ==> GoodRoute(net, net.routes[r]))
  }

  predicate GoodEdge(net: Net, edge: Edge)
  {
    edge.from.Province? && edge.from.k < net.n && edge.to < net.n
  }

  /** level orders the provinces along the pipes: the graph of the provinces has no cycle through two or more of them. */
  ghost predicate Acyclic(net: Net, level: seq<nat>)
  {
    |level| == net.n && forall e :: 0 < e < |net.edges| ==> Climbs(net, level, net.edges[e])
  }

  predicate Climbs(net: Net, level: seq<nat>, edge: Edge)
    requires |level| == net.n
  {
    GoodEdge(net, edge) && (Loops(edge) || level[edge.from.k] < level[edge.to])
  }

  ghost predicate GoodRoute(net: Net, path: seq<nat>)
  {
    path != [] && path[0] == 0 && (forall h :: 0 <= h < |path| ==> path[h] < net.n) && Joined(net, path)
  }

  /** Node h of the path is another province than the one before it. */
  predicate Travels(path: seq<nat>, h: nat)
    requires 0 < h < |path|
  {
    path[h - 1] != path[h]
  }

  /** No province is named twice in a row. */
  predicate Steady(path: seq<nat>) { forall h :: 0 < h < |path| ==> Travels(path, h) }

  /** The nodes from h on, up to the first one that repeats the node before it. */
  function ReachFrom(path: seq<nat>, h: nat): (n: nat)
    requires h <= |path| && forall g :: 0 < g < h ==> Travels(path, g)
    ensures h <= n <= |path| && forall g :: 0 < g < n ==> Travels(path, g)
    ensures n < |path| ==> 0 < n && !Travels(path, n)
    decreases |path| - h
  {
    if h == |path| || (h > 0 && !Travels(path, h)) then h else ReachFrom(path, h + 1)
  }

  /** How many nodes of its path a packet gets to visit. */
  function Reach(path: seq<nat>): (n: nat)
    ensures n <= |path| && (n == |path| <==> Steady(path))
    ensures forall h :: 0 < h < |path| && h <= n ==> (Travels(path, h) <==> h < n)
    ensures path != [] ==> n > 0
  {
    ReachFrom(path, 0)
  }

  ghost predicate Init(s: State)
  {
    && Wired(s.net) && Shape(s)
    && (forall e :: 0 <= e < |s.pipes| ==> s.pipes[e] == [] && s.open[e] == !Loops(s.net.edges[e]))
    && (forall k :: 0 <= k < |s.provs| ==> s.provs[k] == Prov(Pc.Start, 0))
    && s.boss == BossPc.Start && s.reports == [] && s.printed == [] && s.injected == [] && s.finished == [] && s.lost == []
  }
}
