/** The router's code in place: reading the routes into the matrix, opening the pipes, a province's loop over in_fds. */
module RouterProcess {
  import opened Counting
  import opened Router

  // ---- load_config and the pipes of main ----

  /** Some route goes from i straight to j. */
  ghost predicate Adjacent(routes: seq<seq<nat>>, i: nat, j: nat)
  {
    exists r, h :: 0 <= r < |routes| && 0 < h < |routes[r]| && Hop(routes[r], h, i, j)
  }

  predicate Hop(path: seq<nat>, h: nat, i: nat, j: nat)
    requires 0 < h < |path|
  {
    path[h - 1] == i && path[h] == j
  }

  ghost predicate AdjacentUpTo(routes: seq<seq<nat>>, r: nat, len: nat, i: nat, j: nat)
  {
    || (exists q, h :: 0 <= q < |routes| && q < r && 0 < h < |routes[q]| && Hop(routes[q], h, i, j))
    || (r < |routes| && exists h :: 0 < h < |routes[r]| && h < len && Hop(routes[r], h, i, j))
  }

  /** load_config's registration of each pair of consecutive nodes. */
  method LoadMatrix(routes: seq<seq<nat>>, n: nat) returns (matrix: array2<bool>)
    requires forall r, h :: 0 <= r < |routes| && 0 <= h < |routes[r]| ==> routes[r][h] < n
    ensures fresh(matrix) && matrix.Length0 == matrix.Length1 == n
    ensures forall i, j :: 0 <= i < n && 0 <= j < n ==> (matrix[i, j] <==> Adjacent(routes, i, j))
  {
    matrix := new bool[n, n]((i, j) => false);
    var r := 0;
    while r < |routes|
      invariant 0 <= r <= |routes|
      invariant forall i, j :: 0 <= i < n && 0 <= j < n ==> (matrix[i, j] <==> AdjacentUpTo(routes, r, 0, i, j))
    {
      var len := 0;
      while len < |routes[r]|
        invariant 0 <= len <= |routes[r]|
        invariant forall i, j :: 0 <= i < n && 0 <= j < n ==> (matrix[i, j] <==> AdjacentUpTo(routes, r, len, i, j))
      {
        ghost var before := len;
        len := len + 1;
        if len > 1 {
          matrix[routes[r][len - 2], routes[r][len - 1]] := true;
          assert Hop(routes[r], before, routes[r][len - 2], routes[r][len - 1]);
        }
      }
      r := r + 1;
    }
  }

  /** main's pipes: the boss's, then exactly one for each pair of the matrix. */
  method OpenPipes(matrix: array2<bool>) returns (edges: seq<Edge>)
    requires matrix.Length0 == matrix.Length1
    ensures |edges| > 0 && edges[0] == Edge(Boss, 0) && AllDifferent(edges)
    ensures forall e :: 0 < e < |edges| ==> OnMatrix(matrix, edges[e])
    ensures forall i, j :: 0 <= i < matrix.Length0 && 0 <= j < matrix.Length1 && matrix[i, j] ==> Edge(Province(i), j) in edges
  {
    edges := [Edge(Boss, 0)];
    var n := matrix.Length0;
    var i := 0;
    while i < n
      invariant 0 <= i <= n && |edges| > 0 && edges[0] == Edge(Boss, 0) && AllDifferent(edges)
      invariant forall e :: 0 < e < |edges| ==> OnMatrix(matrix, edges[e]) && edges[e].from.k < i
      invariant forall a, b :: 0 <= a < i && 0 <= b < n && matrix[a, b] ==> Edge(Province(a), b) in edges
    {
      var j := 0;
      while j < n
        invariant 0 <= j <= n && |edges| > 0 && edges[0] == Edge(Boss, 0) && AllDifferent(edges)
        invariant forall e :: 0 < e < |edges| ==>
          OnMatrix(matrix, edges[e]) && (edges[e].from.k < i || (edges[e].from.k == i && edges[e].to < j))
        invariant forall a, b :: 0 <= a < i && 0 <= b < n && matrix[a, b] ==> Edge(Province(a), b) in edges
        invariant forall b :: 0 <= b < j && matrix[i, b] ==> Edge(Province(i), b) in edges
      {
        if matrix[i, j] {
          edges := edges + [Edge(Province(i), j)];
        }
        j := j + 1;
      }
      i := i + 1;
    }
  }

  predicate AllDifferent(edges: seq<Edge>)
  {
    forall d, e :: 0 <= d < e < |edges| ==> edges[d] != edges[e]
  }

  predicate OnMatrix(matrix: array2<bool>, edge: Edge)
    reads matrix
  {
    edge.from.Province? && edge.from.k < matrix.Length0 && edge.to < matrix.Length1 && matrix[edge.from.k, edge.to]
  }

  /** Every step of every route stays where it is or goes up in level. */
  ghost predicate Climbing(routes: seq<seq<nat>>, level: seq<nat>)
  {
    forall r, h :: 0 <= r < |routes| && 0 < h < |routes[r]| ==> StepsUp(routes[r], h, level)
  }

  predicate StepsUp(path: seq<nat>, h: nat, level: seq<nat>)
    requires 0 < h < |path|
  {
    path[h - 1] < |level| && path[h] < |level| && (path[h - 1] == path[h] || level[path[h - 1]] < level[path[h]])
  }

  /** A route of provinces below n that starts at 0. */
  ghost predicate Route(path: seq<nat>, n: nat)
  {
    path != [] && path[0] == 0 && forall h :: 0 <= h < |path| ==> path[h] < n
  }

  /** The two methods set up a network as the run lemmas assume it, acyclic if the routes are. */
  method SetUp(routes: seq<seq<nat>>, n: nat, cap: nat) returns (net: Net)
    requires n > 0 && cap > 0 && forall r :: 0 <= r < |routes| ==> Route(routes[r], n)
    ensures net.n == n && net.routes == routes && net.cap == cap && Wired(net)
    ensures forall level :: |level| == n && Climbing(routes, level) ==> Acyclic(net, level)
  {
    var matrix := LoadMatrix(routes, n);
    var edges := OpenPipes(matrix);
    net := Net(n, routes, edges, cap);
    forall e | 0 < e < |edges|
      ensures edges[e].from.Province? && Adjacent(routes, edges[e].from.k, edges[e].to) && GoodEdge(net, edges[e])
    {
      assert OnMatrix(matrix, edges[e]);
      var r, h :| 0 <= r < |routes| && 0 < h < |routes[r]| && Hop(routes[r], h, edges[e].from.k, edges[e].to);
      assert Route(routes[r], n);
    }
    forall r | 0 <= r < |routes|
      ensures GoodRoute(net, routes[r])
    {
      assert Route(routes[r], n);
      forall h | 0 < h < |routes[r]|
        ensures Linked(net, routes[r][h - 1], routes[r][h])
      {
        assert Hop(routes[r], h, routes[r][h - 1], routes[r][h]);
        assert matrix[routes[r][h - 1], routes[r][h]];
      }
    }
    forall level | |level| == n && Climbing(routes, level)
      ensures Acyclic(net, level)
    {
      ClimbingIsAcyclic(net, level);
    }
  }

  lemma ClimbingIsAcyclic(net: Net, level: seq<nat>)
    requires |level| == net.n && Climbing(net.routes, level)
    requires forall e :: 0 < e < |net.edges| ==>
      GoodEdge(net, net.edges[e]) && Adjacent(net.routes, net.edges[e].from.k, net.edges[e].to)
    ensures Acyclic(net, level)
  {
    forall e | 0 < e < |net.edges|
      ensures Climbs(net, level, net.edges[e])
    {
      var r, h :| 0 <= r < |net.routes| && 0 < h < |net.routes[r]| && Hop(net.routes[r], h, net.edges[e].from.k, net.edges[e].to);
      assert StepsUp(net.routes[r], h, level);
    }
  }

  // ---- a province ----

  /** The pipes as the processes share them. */
  class Wires {
    const pipes: array<seq<Packet>>
    var reports: seq<Summary>
    ghost var finished: seq<Packet>
    ghost var lost: seq<Packet>

    constructor (edges: nat)
      ensures fresh(pipes) && pipes.Length == edges && reports == [] && finished == [] && lost == []
      ensures forall e :: 0 <= e < edges ==> pipes[e] == []
    {
      pipes := new seq<Packet>[edges](_ => []);
      reports, finished, lost := [], [], [];
    }

    ghost predicate Of(s: State)
      reads this, pipes
    {
      s.pipes == pipes[..] && s.reports == reports && s.finished == finished && s.lost == lost
    }
  }

  predicate IsFd(fd: int) { fd >= 0 }

  /** Every entry of fds is an open input of k, or -1. */
  ghost predicate OpenInputs(fds: seq<int>, s: State, k: nat)
    requires Shape(s)
  {
    forall i :: 0 <= i < |fds| ==>
      fds[i] >= -1 && (fds[i] >= 0 ==> fds[i] < |s.net.edges| && s.net.edges[fds[i]].to == k && s.open[fds[i]])
  }

  /** Every open input of k is in fds. */
  ghost predicate AllInputs(fds: seq<int>, s: State, k: nat)
    requires Shape(s)
  {
    forall e :: 0 <= e < |s.net.edges| && s.net.edges[e].to == k && s.open[e] ==> e in fds
  }

  predicate NoInputTwice(fds: seq<int>)
  {
    forall i, j :: 0 <= i < j < |fds| && fds[i] >= 0 ==> fds[i] != fds[j]
  }

  // Closing input i keeps each of the three.

  lemma CloseOpen(fds: seq<int>, s: State, k: nat, i: nat)
    requires Shape(s) && OpenInputs(fds, s, k) && NoInputTwice(fds) && i < |fds| && fds[i] >= 0
    ensures fds[i] < |s.open| && OpenInputs(fds[i := -1], s.(open := s.open[fds[i] := false]), k)
  {
  }

  lemma CloseAll(fds: seq<int>, s: State, k: nat, i: nat)
    requires Shape(s) && AllInputs(fds, s, k) && i < |fds| && 0 <= fds[i] < |s.open|
    ensures AllInputs(fds[i := -1], s.(open := s.open[fds[i] := false]), k)
  {
    forall e | 0 <= e < |s.net.edges| && s.net.edges[e].to == k && s.open[e] && e != fds[i]
      ensures e in fds[i := -1]
    {
      var x :| 0 <= x < |fds| && fds[x] == e;
      assert fds[i := -1][x] == e;
    }
  }

  lemma CloseTwice(fds: seq<int>, i: nat)
    requires NoInputTwice(fds) && i < |fds|
    ensures NoInputTwice(fds[i := -1])
  {
  }

  class ProvinceProcess {
    const k: nat
    const inFds: array<int>          // indices of pipes, -1 once closed
    var active: int
    var relayed: nat
    var pc: Pc

    /** in_fds[..] and active_inputs stand for the inputs of k that s has open. */
    ghost predicate Inputs(s: State)
      requires Shape(s)
      reads this, inFds
    {
      && OpenInputs(inFds[..], s, k) && AllInputs(inFds[..], s, k) && NoInputTwice(inFds[..])
      && active == Count(inFds[..], IsFd)
    }

    ghost predicate Of(s: State)
      reads this, inFds
    {
      Shape(s) && k < |s.provs| && s.provs[k] == Prov(pc, relayed) && Inputs(s)
    }

    /** The set-up loop: the read ends of the pipes into k from others, the boss's last. */
    static method CollectInputs(k: nat, edges: seq<Edge>) returns (fds: seq<int>)
      requires |edges| > 0 && edges[0] == Edge(Boss, 0)
      ensures forall i :: 0 <= i < |fds| ==> 0 <= fds[i] < |edges| && edges[fds[i]].to == k && !Loops(edges[fds[i]])
      ensures forall e :: 0 <= e < |edges| && edges[e].to == k && !Loops(edges[e]) ==> e in fds
      ensures forall i, j :: 0 <= i < j < |fds| ==> fds[i] != fds[j]
    {
      fds := [];
      var e := 1;
      while e < |edges|
        invariant 1 <= e <= |edges|
        invariant forall i :: 0 <= i < |fds| ==> 1 <= fds[i] < e && edges[fds[i]].to == k && !Loops(edges[fds[i]])
        invariant forall d :: 1 <= d < e && edges[d].to == k && !Loops(edges[d]) ==> d in fds
        invariant forall i, j :: 0 <= i < j < |fds| ==> fds[i] != fds[j]
      {
        if edges[e].from != Province(k) && edges[e].to == k {
          fds := fds + [e];
        }
        e := e + 1;
      }
      if k == 0 {
        fds := fds + [0];
      }
    }

    constructor (k: nat, ghost s: State, edges: seq<Edge>)
      requires Shape(s) && s.net.edges == edges && k < |s.provs| && s.provs[k] == Prov(Pc.Start, 0)
      requires edges[0] == Edge(Boss, 0) && forall e :: 0 <= e < |s.open| ==> s.open[e] == !Loops(edges[e])
      ensures this.k == k && fresh(inFds) && Of(s)
    {
      var fds := CollectInputs(k, edges);
      this.k := k;
      inFds := new int[|fds|](i requires 0 <= i < |fds| => fds[i]);
      active := |fds|;
      relayed := 0;
      pc := Pc.Start;
      new;
      assert inFds[..] == fds;
      CountFull(fds, IsFd);
    }

    /** No input is open exactly if active_inputs is 0. */
    lemma NoneActive(s: State)
      requires Shape(s) && Inputs(s)
      ensures active == 0 <==> NoInputs(s, k)
    {
      CountNone(inFds[..], IsFd);
      if active == 0 {
        assert forall e :: 0 <= e < |s.net.edges| && s.net.edges[e].to == k && s.open[e] ==> e in inFds[..] && IsFd(e);
      }
    }

    /** A step of somebody else that leaves k's inputs and counters alone. */
    lemma OfOther(s: State, t: State)
      requires Of(s) && Shape(t) && t.net == s.net && k < |t.provs| && t.provs[k] == s.provs[k]
      requires forall e :: 0 <= e < |s.open| && s.net.edges[e].to == k ==> t.open[e] == s.open[e]
      ensures Of(t)
    {
    }

    /** Where pipe e is in in_fds; its length if e is not an open input of k. */
    method IndexOf(e: nat, ghost s: State) returns (i: nat)
      requires Of(s)
      ensures i <= inFds.Length && (i < inFds.Length ==> inFds[i] == e)
      ensures i < inFds.Length <==> e < |s.net.edges| && s.net.edges[e].to == k && s.open[e]
    {
      i := 0;
      while i < inFds.Length && inFds[i] != e
        invariant 0 <= i <= inFds.Length && forall j :: 0 <= j < i ==> inFds[j] != e
      {
        i := i + 1;
      }
      if i < inFds.Length {
        assert inFds[..][i] == e;
      } else if e < |s.net.edges| && s.net.edges[e].to == k && s.open[e] {
        assert e in inFds[..];
      }
    }

    /** The pipe polled at index i of in_fds; one past the last pipe if that input is closed. */
    function Polled(i: nat, edges: nat): nat
      requires i < inFds.Length
      reads inFds
    {
      if inFds[i] >= 0 then inFds[i] else edges
    }

    /** One pass of the loop over in_fds, at index i; eof is the kernel's answer for an empty pipe. */
    method PollTurn(i: nat, eof: bool, wires: Wires, ghost s: State) returns (moved: bool)
      requires Of(s) && wires.Of(s) && pc.Poll? && (i < inFds.Length || active == 0)
      requires i < inFds.Length && inFds[i] >= 0 ==> eof == !HasWriter(s, inFds[i])
      requires (inFds as object) != wires.pipes
      modifies this, inFds, wires, wires.pipes
      ensures var e := if i < inFds.Length then old(Polled(i, |s.net.edges|)) else 0;
        match PollNext(s, k, e)
        case None => !moved && Of(s) && wires.Of(s)
        case Some(t) => moved && Of(t) && wires.Of(t)
    {
      NoneActive(s);
      moved := true;
      if active == 0 {
        pc := Pc.Report;
        return;
      }
      if inFds[i] == -1 {
        moved := false;
        return;
      }
      var e := inFds[i];
      if wires.pipes[e] != [] {
        var pkt := wires.pipes[e][0];
        pkt := pkt.(visited := pkt.visited + [k]);
        wires.pipes[e] := wires.pipes[e][1..];
        relayed := relayed + 1;
        if pkt.step + 1 < |pkt.path| {
          pc := Forward(pkt);
        } else {
          wires.finished := wires.finished + [pkt];
        }
      } else if eof {
        CloseInput(i, s);
      } else {
        moved := false;
      }
    }

    /** close(in_fds[i]); in_fds[i] = -1; active_inputs--. */
    method CloseInput(i: nat, ghost s: State)
      requires Of(s) && i < inFds.Length && inFds[i] >= 0
      modifies this`active, inFds
      ensures Of(s.(open := s.open[old(inFds[i]) := false]))
    {
      ghost var was := inFds[..];
      CloseOpen(was, s, k, i);
      CloseAll(was, s, k, i);
      CloseTwice(was, i);
      CountUpdate(was, i, -1, IsFd);
      inFds[i] := -1;
      active := active - 1;
      assert inFds[..] == was[i := -1];
    }

    /** Forwarding; refused is the kernel's EPIPE. */
    method ForwardTurn(edges: seq<Edge>, cap: nat, refused: bool, wires: Wires, ghost s: State) returns (moved: bool)
      requires Of(s) && wires.Of(s) && pc.Forward? && edges == s.net.edges && cap == s.net.cap
      requires pc.pkt.step + 1 < |pc.pkt.path|
      requires var e := EdgeTo(edges, k, pc.pkt.path[pc.pkt.step + 1]); e < |edges| ==> refused == !HasReader(s, e)
      requires (inFds as object) != wires.pipes
      modifies this`pc, wires.pipes, wires`lost
      ensures match ForwardNext(s, k, old(pc.pkt))
        case None => !moved && Of(s) && wires.Of(s)
        case Some(t) => moved && Of(t) && wires.Of(t)
    {
      var pkt := pc.pkt;
      pkt := pkt.(step := pkt.step + 1);
      var e := EdgeTo(edges, k, pkt.path[pkt.step]);
      moved := e < |edges| && (refused || |wires.pipes[e]| < cap);
      if moved {
        if refused {
          wires.lost := wires.lost + [pkt];
        } else {
          wires.pipes[e] := wires.pipes[e] + [pkt];
        }
        pc := Poll;
      }
    }

    /** The statements after the loop: the report, closing the pipes, exit. */
    method LeaveTurn(wires: Wires, ghost s: State, ghost c: Choice) returns (moved: bool)
      requires Of(s) && wires.Of(s) && !pc.Poll? && !pc.Forward?
      modifies this`pc, wires`reports
      ensures match ProvinceNext(s, k, c)
        case None => !moved && Of(s) && wires.Of(s)
        case Some(t) => moved && Of(t) && wires.Of(t)
    {
      moved := true;
      match pc
      case Start => pc := Poll;
      case Report =>
        wires.reports := wires.reports + [Summary(k, relayed)];
        pc := Closing;
      case Closing => pc := Gone;
      case _ => moved := false;
    }
  }

}
