/** Rounds, pipe contents and progress of the card ring. */
module RingFlow {
  import opened Counting
  import opened Ring

  /** Cards a player has written to the ring: one per completed round, and one more while it waits for a card. */
  function Writes(p: Player): nat { p.rounds + (if p.hole.Some? then 1 else 0) }

  predicate Dealt(s: State, i: nat)
  {
    match s.parent case CloseEnds => false case Dealing(j) => i < j case _ => true
  }

  predicate PcOk(p: Player)
  {
    && (p.hole.Some? ==> p.hole.value < |p.hand|)
    && match p.pc
       case Start => p.hole.None? && p.hand == [] && p.rounds == 0
       case TakeDeal => p.hole.None? && p.hand == [] && p.rounds == 0
       case Top => p.hole.None?
       case Announce => p.hole.None?
       case Write(idx) => p.hole.None? && idx < |p.hand|
       case Read(idx) => p.hole == Some(idx)
       case _ => true
  }

  /** Player i's hand and deal pipe hold its share between them once it is dealt. */
  ghost predicate PlayerOk(s: State, i: nat)
    requires Shape(s) && i < s.N()
  {
    var p := s.players[i];
    && PcOk(p)
    && (p.pc.Start? || p.pc.TakeDeal? ==> s.deal[i] == if Dealt(s, i) then Share(s, i) else [])
    && (!p.pc.Start? && !p.pc.TakeDeal? ==> s.deal[i] == [] && |p.hand| == s.m && Dealt(s, i))
  }

  /** What lies in the pipe to i's right neighbour is what i wrote and the neighbour has not read. */
  ghost predicate PipeOk(s: State, i: nat)
    requires Shape(s) && i < s.N()
  {
    |s.ring[s.After(i)]| == Writes(s.players[i]) - s.players[s.After(i)].rounds
  }

  ghost predicate FlowInv(s: State)
  {
    && Shape(s)
    && (forall i :: 0 <= i < s.N() ==> PlayerOk(s, i))
    && (forall i :: 0 <= i < s.N() ==> PipeOk(s, i))
  }

  lemma InitFlow(s: State)
    requires Init(s)
    ensures FlowInv(s)
  {
    forall i | 0 <= i < s.N()
      ensures PlayerOk(s, i) && PipeOk(s, i)
    {
    }
  }

  /** What a step of player_work does to its own counters and the two pipes. */
  lemma PlayerStepCounts(p: Player, c: Choice, inq: seq<int>, writers: bool, outq: seq<int>, readers: bool, cap: nat)
    requires PcOk(p) && PlayerStep(p, c, inq, writers, outq, readers, cap).Some?
    ensures var (q, inq', outq') := PlayerStep(p, c, inq, writers, outq, readers, cap).value;
      && PcOk(q) && |q.hand| == |p.hand| && !q.pc.Start? && !q.pc.TakeDeal?
      && |inq'| - |inq| == p.rounds - q.rounds
      && |outq'| - |outq| == Writes(q) - Writes(p)
      && p.rounds <= q.rounds
  {
  }

  predicate InLoop(pc: Pc) { !pc.Start? && !pc.TakeDeal? && !pc.Announce? }

  /** The state after player i became q, leaving inq and outq in its two pipes. */
  function Updated(s: State, i: nat, q: Player, inq: seq<int>, outq: seq<int>): (t: State)
    requires Shape(s) && i < s.N()
    ensures Shape(t) && t.N() == s.N()
  {
    s.(players := s.players[i := q], ring := s.ring[i := inq][s.After(i) := outq])
  }

  /** Such an update keeps every relation if the counters moved with the pipes. */
  lemma UpdateFlow(s: State, i: nat, q: Player, inq: seq<int>, outq: seq<int>, k: nat)
    requires FlowInv(s) && i < s.N() && k < s.N() && InLoop(s.players[i].pc)
    requires var p := s.players[i];
      && PcOk(q) && |q.hand| == |p.hand| && !q.pc.Start? && !q.pc.TakeDeal?
      && |inq| - |s.ring[i]| == p.rounds - q.rounds
      && |outq| - |s.ring[s.After(i)]| == Writes(q) - Writes(p)
    ensures PlayerOk(Updated(s, i, q, inq, outq), k) && PipeOk(Updated(s, i, q, inq, outq), k)
  {
    assert PlayerOk(s, i) && PlayerOk(s, k) && PipeOk(s, k);
  }

  lemma LoopFlow(s: State, i: nat, c: Choice, k: nat)
    requires FlowInv(s) && i < s.N() && k < s.N() && InLoop(s.players[i].pc) && PlayerNext(s, i, c).Some?
    ensures var t := PlayerNext(s, i, c).value; Shape(t) && t.N() == s.N() && PlayerOk(t, k) && PipeOk(t, k)
  {
    var p := s.players[i];
    var o := s.After(i);
    assert PlayerOk(s, i);
    PlayerStepCounts(p, c, s.ring[i], WritersLeft(s, i), s.ring[o], ReadersLeft(s, o), s.cap);
    var (q, inq, outq) := PlayerStep(p, c, s.ring[i], WritersLeft(s, i), s.ring[o], ReadersLeft(s, o), s.cap).value;
    UpdateFlow(s, i, q, inq, outq, k);
  }

  lemma EntryFlow(s: State, i: nat, c: Choice, k: nat)
    requires FlowInv(s) && i < s.N() && k < s.N() && !InLoop(s.players[i].pc) && PlayerNext(s, i, c).Some?
    ensures var t := PlayerNext(s, i, c).value; Shape(t) && t.N() == s.N() && PlayerOk(t, k) && PipeOk(t, k)
  {
    assert PlayerOk(s, i) && PlayerOk(s, k) && PipeOk(s, k);
  }

  lemma PlayerFlow(s: State, i: nat, c: Choice)
    requires FlowInv(s) && i < s.N() && PlayerNext(s, i, c).Some?
    ensures FlowInv(PlayerNext(s, i, c).value)
  {
    var t := PlayerNext(s, i, c).value;
    forall k | 0 <= k < s.N()
      ensures Shape(t) && t.N() == s.N() && PlayerOk(t, k) && PipeOk(t, k)
    {
      if InLoop(s.players[i].pc) {
        LoopFlow(s, i, c, k);
      } else {
        EntryFlow(s, i, c, k);
      }
    }
    assert Shape(t) && t.N() == s.N() && PlayerOk(t, 0);
  }

  lemma ParentFlow(s: State)
    requires FlowInv(s) && ParentNext(s).Some?
    ensures FlowInv(ParentNext(s).value)
  {
    var t := ParentNext(s).value;
    forall k | 0 <= k < t.N()
      ensures PlayerOk(t, k) && PipeOk(t, k)
    {
      assert PlayerOk(s, k) && PipeOk(s, k);
    }
  }

  lemma FlowStep(s: State, p: Proc, c: Choice)
    requires FlowInv(s) && Next(s, p, c).Some?
    ensures FlowInv(Next(s, p, c).value)
  {
    match p
    case Of(i) => PlayerFlow(s, i, c);
    case Parent => ParentFlow(s);
  }

  lemma {:induction false} RunFlow(s: State, turns: seq<Turn>)
    requires Init(s)
    ensures FlowInv(Run(s, turns)) && Run(s, turns).cap == s.cap
  {
    if turns == [] {
      InitFlow(s);
    } else {
      RunFlow(s, turns[..|turns| - 1]);
      var u := Run(s, turns[..|turns| - 1]);
      var last := turns[|turns| - 1];
      if Next(u, last.p, last.c).Some? {
        FlowStep(u, last.p, last.c);
      }
    }
  }

  // ---- skew ----

  /** The player d places downstream of i. */
  function Down(s: State, i: nat, d: nat): (r: nat)
    requires Shape(s) && i < s.N()
    ensures r < s.N()
  {
    if d == 0 then i else s.After(Down(s, i, d - 1))
  }

  lemma {:induction false} DownIs(s: State, i: nat, d: nat)
    requires Shape(s) && i < s.N() && d <= s.N()
    ensures Down(s, i, d) == if i + d < s.N() then i + d else i + d - s.N()
  {
    if d > 0 {
      DownIs(s, i, d - 1);
    }
  }

  /** A player d places downstream is at most d rounds ahead: it can only read what was passed on to it. */
  lemma {:induction false} DownstreamLead(s: State, i: nat, d: nat)
    requires FlowInv(s) && i < s.N()
    ensures s.players[Down(s, i, d)].rounds <= s.players[i].rounds + d
  {
    if d > 0 {
      DownstreamLead(s, i, d - 1);
      assert PipeOk(s, Down(s, i, d - 1));
    }
  }

  /** Completed rounds of any two players differ by at most n - 1. */
  lemma SkewBound(s: State, turns: seq<Turn>, i: nat, j: nat)
    requires Init(s) && i < s.N() && j < s.N()
    ensures Run(s, turns).players[i].rounds <= Run(s, turns).players[j].rounds + s.N() - 1
  {
    RunFlow(s, turns);
    var t := Run(s, turns);
    var d := if i >= j then i - j else i + s.N() - j;
    DownIs(t, j, d);
    DownstreamLead(t, j, d);
  }

  /** No ring pipe ever holds more than n cards. */
  lemma PipeBound(s: State, turns: seq<Turn>, i: nat)
    requires Init(s) && i < s.N()
    ensures |Run(s, turns).ring[i]| <= s.N()
  {
    RunFlow(s, turns);
    var t := Run(s, turns);
    var b := t.Before(i);
    assert t.After(b) == i && PipeOk(t, b);
    SkewBound(s, turns, b, i);
  }

  /** A player about to write is never blocked by a full pipe. */
  lemma WriteNeverBlocks(s: State, i: nat, c: Choice)
    requires FlowInv(s) && s.cap >= s.N() && i < s.N() && s.players[i].pc.Write?
    ensures PlayerNext(s, i, c).Some?
  {
    var o := s.After(i);
    assert PlayerOk(s, i) && PipeOk(s, i);
    DownIs(s, o, s.N() - 1);
    DownstreamLead(s, o, s.N() - 1);
    assert Down(s, o, s.N() - 1) == i;
  }

  // ---- progress ----

  predicate AllGone(s: State) { forall i :: 0 <= i < |s.players| ==> s.players[i].pc.Gone? }

  /** The whole system has ended. */
  predicate Ended(s: State) { s.parent.Over? && AllGone(s) }

  /** Nothing p draws lets it move, and no signal comes to its help. */
  ghost predicate Blocked(s: State, p: Proc)
    requires Shape(s)
  {
    forall discard :: Next(s, p, Choice(discard, false)).None?
  }

  /** The first card that may be discarded. */
  lemma SomeDiscard(hand: seq<int>) returns (i: nat)
    requires hand != []
    ensures MayDiscard(hand, i)
  {
    if j: nat :| j < |hand| && Suit(hand[j]) != Best(hand) {
      i := j;
    } else {
      i := 0;
    }
  }

  /** A player at the top of its loop has won or finds a card to pass on. */
  lemma TopMoves(s: State, i: nat)
    requires Shape(s) && i < s.N() && s.players[i].pc.Top?
    ensures !Blocked(s, Of(i))
  {
    var hand := s.players[i].hand;
    if IsWinning(hand) {
      assert Next(s, Of(i), Choice(0, false)).Some?;
    } else {
      var discard := SomeDiscard(hand);
      assert Next(s, Of(i), Choice(discard, false)).Some?;
    }
  }

  /** With every process past its start-up, only a player waiting for a live neighbour's card is blocked. */
  lemma BlockedWaits(s: State, i: nat)
    requires FlowInv(s) && s.cap >= s.N() && !Unsettled(s) && !s.parent.Dealing? && i < s.N() && Blocked(s, Of(i))
    ensures s.players[i].pc.Gone? || (s.players[i].pc.Read? && s.ring[i] == [] && HoldsWrite(s.players[s.Before(i)]))
  {
    var p := s.players[i];
    assert PlayerOk(s, i);
    if p.pc.Top? {
      TopMoves(s, i);
    }
    if p.pc.Write? {
      WriteNeverBlocks(s, i, Choice(0, false));
    }
    assert Next(s, Of(i), Choice(0, false)).None?;
  }

  /** If everyone is blocked and somebody waits, then everyone upstream waits too. */
  lemma {:induction false} AllUpstreamWait(s: State, i: nat, d: nat)
    requires FlowInv(s) && s.cap >= s.N() && !Unsettled(s) && !s.parent.Dealing? && i < s.N()
    requires forall k :: 0 <= k < s.N() ==> Blocked(s, Of(k))
    requires s.players[Down(s, i, d)].pc.Read?
    ensures s.players[i].pc.Read?
    ensures s.players[Down(s, i, d)].rounds == s.players[i].rounds + d
  {
    var j := Down(s, i, d);
    BlockedWaits(s, j);
    if d > 0 {
      var b := Down(s, i, d - 1);
      assert s.Before(j) == b && PipeOk(s, b) && PlayerOk(s, b) && PlayerOk(s, j);
      BlockedWaits(s, b);
      AllUpstreamWait(s, i, d - 1);
    }
  }

  /** All waiting around the ring is impossible: each would be one round ahead of itself after a full turn. */
  lemma NobodyWaits(s: State, i: nat)
    requires FlowInv(s) && s.cap >= s.N() && !Unsettled(s) && !s.parent.Dealing? && i < s.N()
    requires forall k :: 0 <= k < s.N() ==> Blocked(s, Of(k))
    ensures s.players[i].pc.Gone?
  {
    BlockedWaits(s, i);
    if s.players[i].pc.Read? {
      DownIs(s, i, s.N());
      AllUpstreamWait(s, i, s.N());
    }
  }

  /** In a state that has not ended, some process can move. */
  lemma SomeoneMoves(s: State)
    requires FlowInv(s) && s.cap >= s.N() && !Ended(s)
    ensures exists p :: !Blocked(s, p)
  {
    var c := Choice(0, false);
    if i: nat :| i < s.N() && IsStart(s.players[i]) {
      assert Next(s, Of(i), c).Some?;
      assert !Blocked(s, Of(i));
    } else if forall p :: Blocked(s, p) {
      assert Blocked(s, Parent) && Next(s, Parent, c).None?;
      forall i | 0 <= i < s.N()
        ensures s.players[i].pc.Gone?
      {
        NobodyWaits(s, i);
      }
      assert false;
    }
  }

  /** In every reachable state, either all have ended or some process can move, without any signal. */
  lemma DeadlockFree(s: State, turns: seq<Turn>)
    requires Init(s)
    ensures Ended(Run(s, turns)) || exists p, discard :: Next(Run(s, turns), p, Choice(discard, false)).Some?
  {
    RunFlow(s, turns);
    var t := Run(s, turns);
    if !Ended(t) {
      SomeoneMoves(t);
      var p :| !Blocked(t, p);
      var discard :| Next(t, p, Choice(discard, false)).Some?;
    }
  }
}
