/** Exactly which routes lose packets: those that name a province twice in a row. */
module RouterLoss {
  import opened Router
  import opened RouterSafety
  import opened RouterEnding

  /** Everybody polls; the boss is about to send route r. */
  ghost predicate Polling(u: State, r: nat)
  {
    Shape(u) && u.boss == Inject(r) && forall k :: 0 <= k < |u.provs| ==> u.provs[k].pc.Poll?
  }

  ghost predicate Listening(u: State, r: nat) { Polling(u, r) && NothingToRead(u) }

  /** The only packet anybody will read is pkt, in pipe e. */
  ghost predicate Carrying(u: State, r: nat, e: nat, pkt: Packet)
  {
    && Polling(u, r) && e < |u.pipes| && !Loops(u.net.edges[e]) && u.pipes[e] == [pkt]
    && forall d :: 0 <= d < |u.pipes| && d != e ==> Loops(u.net.edges[d]) || u.pipes[d] == []
  }

  // ---- everybody starts ----

  function Opened(n: nat, k: nat): (r: seq<Prov>)
    ensures |r| == n
  {
    seq(n, j => Prov(if j < k then Poll else Pc.Start, 0))
  }

  lemma {:induction false} Opens(s: State, k: nat) returns (turns: seq<Turn>)
    requires Init(s) && k <= |s.provs|
    ensures Run(s, turns) == s.(provs := Opened(|s.provs|, k))
  {
    if k == 0 {
      turns := [];
      assert s.provs == Opened(|s.provs|, 0);
    } else {
      var front := Opens(s, k - 1);
      turns := RunOne(s, front, Province(k - 1), Choice(0, false));
      assert Opened(|s.provs|, k - 1)[k - 1 := Prov(Poll, 0)] == Opened(|s.provs|, k);
    }
  }

  /** Everybody has started, and a letter has come through the FIFO. */
  lemma Starts(s: State) returns (turns: seq<Turn>)
    requires Init(s)
    ensures Listening(Run(s, turns), 0)
  {
    turns := Opens(s, |s.provs|);
    turns := RunOne(s, turns, Boss, Choice(0, true));
    turns := RunOne(s, turns, Boss, Choice(0, true));
  }

  // ---- one packet on its way ----

  lemma Injects(u: State, r: nat)
    requires Inv(u) && Listening(u, r) && r < |u.net.routes|
    ensures var t := BossNext(u, Choice(0, false));
      t.Some? && Carrying(t.value, r + 1, 0, Packet(|u.injected|, u.net.routes[r], 0, [])) && t.value.lost == u.lost
  {
    ReaderStays(u, 0);
  }

  /** Its reader takes it ... */
  lemma Takes(u: State, r: nat, e: nat, pkt: Packet)
    requires Inv(u) && Carrying(u, r, e, pkt)
    ensures var k := u.net.edges[e].to; k < |u.provs| && PollNext(u, k, e).Some?
    ensures var k := u.net.edges[e].to; var got := pkt.(visited := pkt.visited + [k]); var v := PollNext(u, k, e).value;
      && v.net == u.net && v.lost == u.lost && v.open == u.open && v.boss == u.boss && NothingToRead(v)
      && v.provs == u.provs[k := Prov(if pkt.step + 1 < |pkt.path| then Forward(got) else Poll, u.provs[k].relayed + 1)]
      && (pkt.step + 1 < |pkt.path| || Steady(pkt.path))
  {
    assert PipeOk(u, e) && u.pipes[e][0] == pkt;
    ReaderMoves(u, e);
  }

  /** ... and passes it on, or loses it. */
  lemma Passes(v: State, r: nat, k: nat, got: Packet) returns (e: nat)
    requires Inv(v) && NothingToRead(v) && v.boss == Inject(r) && k < |v.provs| && v.provs[k].pc == Forward(got)
    requires forall j :: 0 <= j < |v.provs| && j != k ==> v.provs[j].pc.Poll?
    ensures ForwardNext(v, k, got).Some?
    ensures var w := ForwardNext(v, k, got).value;
      || (Listening(w, r) && |w.lost| == |v.lost| + 1)
      || (Carrying(w, r, e, got.(step := got.step + 1)) && got.step + 1 < |got.path| && w.lost == v.lost)
  {
    ForwardFinds(v, k);
    e := EdgeTo(v.net.edges, k, got.path[got.step + 1]);
    assert PipeOk(v, e);
  }

  /** Up to its end or its loss. */
  lemma {:induction false} Travel(s: State, turns: seq<Turn>, r: nat, e: nat, pkt: Packet) returns (more: seq<Turn>)
    requires Init(s) && Carrying(Run(s, turns), r, e, pkt) && pkt.step < |pkt.path|
    ensures Listening(Run(s, more), r) && |Run(s, more).lost| >= |Run(s, turns).lost|
    ensures !Steady(pkt.path) ==> |Run(s, more).lost| > |Run(s, turns).lost|
    decreases |pkt.path| - pkt.step
  {
    var u := Run(s, turns);
    RunInv(s, turns);
    Takes(u, r, e, pkt);
    var k := u.net.edges[e].to;
    more := RunOne(s, turns, Province(k), Choice(e, false));
    var v := Run(s, more);
    if pkt.step + 1 < |pkt.path| {
      RunInv(s, more);
      var got := pkt.(visited := pkt.visited + [k]);
      var d := Passes(v, r, k, got);
      more := RunOne(s, more, Province(k), Choice(e, false));
      if !Listening(Run(s, more), r) {
        more := Travel(s, more, r, d, got.(step := got.step + 1));
      }
    }
  }

  /** Route after route; a packet whose route repeats is lost. */
  lemma {:induction false} Sends(s: State, r: nat) returns (turns: seq<Turn>)
    requires Init(s) && r <= |s.net.routes|
    ensures Listening(Run(s, turns), r)
    ensures r > 0 && !Steady(s.net.routes[r - 1]) ==> Run(s, turns).lost != []
  {
    if r == 0 {
      turns := Starts(s);
    } else {
      var front := Sends(s, r - 1);
      var u := Run(s, front);
      RunInv(s, front);
      Injects(u, r - 1);
      turns := RunOne(s, front, Boss, Choice(0, false));
      assert GoodRoute(s.net, s.net.routes[r - 1]);
      turns := Travel(s, turns, r, 0, Packet(|u.injected|, s.net.routes[r - 1], 0, []));
    }
  }

  /** No run loses a packet, to a closed pipe or in one nobody reads, if and only if no route names a province twice in a row. */
  lemma NothingLostExactly(s: State)
    requires Init(s)
    ensures (forall turns :: Intact(Run(s, turns))) <==> forall r :: 0 <= r < |s.net.routes| ==> Steady(s.net.routes[r])
  {
    if forall r :: 0 <= r < |s.net.routes| ==> Steady(s.net.routes[r]) {
      forall turns
        ensures Intact(Run(s, turns))
      {
        NothingLost(s, turns);
      }
    } else {
      var r :| 0 <= r < |s.net.routes| && !Steady(s.net.routes[r]);
      var turns := Sends(s, r + 1);
      var t := Run(s, turns);
      assert Astray(t, t.lost[0]);
    }
  }
}
