/** The whole ring in place: the parent, the players, and the kernel's view of their pipes. */
module RingNet {
  import opened Counting
  import opened Ring
  import opened RingPlayer
  import opened RingFlow

  /** main after its forks. */
  class ParentProcess {
    const deck: array<int>
    const m: nat
    var pc: ParentPc
    var deckIndex: nat

    constructor (deck: array<int>, m: nat)
      ensures this.deck == deck && this.m == m && pc == CloseEnds && deckIndex == 0
    {
      this.deck, this.m, pc, deckIndex := deck, m, CloseEnds, 0;
    }

    ghost predicate Of(s: State)
      reads this, deck
    {
      s.parent == pc && s.deck == deck[..] && s.m == m && (pc.CloseEnds? ==> deckIndex == 0) && (pc.Dealing? ==> deckIndex == pc.i * m)
    }

    /** Dealing the m cards from deckIndex on to the next player. */
    method DealTurn(deals: seq<Pipe>, ghost s: State)
      requires Shape(s) && Of(s) && pc.Dealing? && |deals| == s.N()
      requires forall i :: 0 <= i < |deals| ==> s.deal[i] == deals[i].content
      modifies this`pc, this`deckIndex, if pc.i < |deals| then {deals[pc.i]} else {}
      ensures ParentNext(s).Some? && Of(ParentNext(s).value)
      ensures old(pc).i < |deals| ==> deals[old(pc).i].content == ParentNext(s).value.deal[old(pc).i]
      ensures forall j :: 0 <= j < |deals| && j != old(pc).i ==> s.deal[j] == ParentNext(s).value.deal[j]
    {
      var i := pc.i;
      if i == |deals| {
        pc := Await;
      } else {
        ShareFits(|deals|, m, i);
        deals[i].content := deals[i].content + deck[deckIndex..deckIndex + m];
        deckIndex := deckIndex + m;
        pc := Dealing(i + 1);
      }
    }

    /** Everything else: closing the ends, waiting for a winner and for the children; writers and allGone are the kernel's answers. */
    method OtherTurn(shared: Announcements, writers: bool, allGone: bool, ghost s: State) returns (moved: bool)
      requires Shape(s) && Of(s) && !pc.Dealing? && s.shared == shared.content
      requires writers == SharedWriters(s) && allGone == forall i :: 0 <= i < s.N() ==> s.players[i].pc.Gone?
      modifies this`pc, shared
      ensures match ParentNext(s)
        case None => !moved && Of(s) && s.shared == shared.content
        case Some(t) => moved && Of(t) && t.shared == shared.content
    {
      moved := true;
      match pc
      case CloseEnds => pc := Dealing(0);
      case Await =>
        if shared.content != [] {
          pc := Reap(Some(shared.content[0]));
          shared.content := shared.content[1..];
        } else if !writers {
          pc := Reap(None);
        } else {
          moved := false;
        }
      case Reap(w) =>
        if allGone {
          pc := Over(w);
        } else {
          moved := false;
        }
      case _ => moved := false;
    }
  }

  /** Player i is number i, and no two share a hand or a pipe end they should not. */
  ghost predicate Seated(players: seq<Process>, rings: seq<Pipe>, deals: seq<Pipe>, deck: array<int>)
  {
    && |players| == |rings| == |deals| >= 2
    && (forall i :: 0 <= i < |players| ==> players[i].id == i && players[i].hand != deck)
    && (forall i, j :: 0 <= i < j < |players| ==> players[i] != players[j] && players[i].hand != players[j].hand)
    && (forall i, j :: 0 <= i < j < |rings| ==> rings[i] != rings[j] && deals[i] != deals[j])
    && (forall i, j :: 0 <= i < |rings| && 0 <= j < |deals| ==> rings[i] != deals[j])
  }

  /** Process i and its pipes are as s says. */
  ghost predicate Matches(p: Process, ring: Pipe, deal: Pipe, s: State, i: nat)
    requires Shape(s) && i < s.N()
    reads p, p.hand, ring, deal
  {
    p.View() == s.players[i] && p.hand.Length == s.m && ring.content == s.ring[i] && deal.content == s.deal[i]
  }

  /** s is the state these processes and pipes are in. */
  ghost predicate InState(players: seq<Process>, parent: ParentProcess, rings: seq<Pipe>, deals: seq<Pipe>, shared: Announcements, s: State)
    reads players, set p: Process | p in players :: p.hand, parent, parent.deck, rings, deals, shared
  {
    && Shape(s) && parent.Of(s) && s.shared == shared.content && |players| == |rings| == |deals| == s.N()
    && (forall i :: 0 <= i < |players| ==> Matches(players[i], rings[i], deals[i], s, i))
  }

  /** The pipes, two for each player. */
  method OpenPipes(n: nat) returns (rings: seq<Pipe>, deals: seq<Pipe>)
    ensures |rings| == |deals| == n && forall i :: 0 <= i < n ==> rings[i].content == [] && deals[i].content == []
    ensures forall i :: 0 <= i < n ==> fresh(rings[i]) && fresh(deals[i])
    ensures forall i, j :: 0 <= i < j < n ==> rings[i] != rings[j] && deals[i] != deals[j]
    ensures forall i, j :: 0 <= i < n && 0 <= j < n ==> rings[i] != deals[j]
  {
    rings, deals := [], [];
    while |rings| < n
      invariant |rings| == |deals| <= n && forall i :: 0 <= i < |rings| ==> rings[i].content == [] && deals[i].content == []
      invariant forall i :: 0 <= i < |rings| ==> fresh(rings[i]) && fresh(deals[i])
      invariant forall i, j :: 0 <= i < j < |rings| ==> rings[i] != rings[j] && deals[i] != deals[j]
      invariant forall i, j :: 0 <= i < |rings| && 0 <= j < |deals| ==> rings[i] != deals[j]
      decreases n - |rings|
    {
      var deal := new Pipe();
      var ring := new Pipe();
      rings, deals := rings + [ring], deals + [deal];
    }
  }

  /** The players, each with room for m cards. */
  method Fork(n: nat, m: nat) returns (players: seq<Process>)
    ensures |players| == n
    ensures forall i :: 0 <= i < n ==>
      players[i].id == i && players[i].hand.Length == m && fresh(players[i].hand) && players[i].View() == Player(Start, [], None, 0)
    ensures forall i, j :: 0 <= i < j < n ==> players[i] != players[j] && players[i].hand != players[j].hand
  {
    players := [];
    while |players| < n
      invariant |players| <= n
      invariant forall i :: 0 <= i < |players| ==>
        players[i].id == i && players[i].hand.Length == m && fresh(players[i].hand) && players[i].View() == Player(Start, [], None, 0)
      invariant forall i, j :: 0 <= i < j < |players| ==> players[i] != players[j] && players[i].hand != players[j].hand
      decreases n - |players|
    {
      var p := new Process(|players|, m);
      players := players + [p];
    }
  }

  /** main up to the first turn. */
  method Seat(n: nat, m: nat, deck: array<int>, cap: nat)
      returns (players: seq<Process>, parent: ParentProcess, rings: seq<Pipe>, deals: seq<Pipe>, shared: Announcements, ghost s: State)
    requires n >= 2 && m > 0 && deck.Length >= n * m && cap >= n
    ensures Seated(players, rings, deals, parent.deck) && InState(players, parent, rings, deals, shared, s) && Init(s)
    ensures s.N() == n && s.m == m && s.deck == deck[..] && s.cap == cap && parent.deck == deck
  {
    rings, deals := OpenPipes(n);
    players := Fork(n, m);
    shared := new Announcements();
    parent := new ParentProcess(deck, m);
    s := State(seq(n, i => Player(Start, [], None, 0)), CloseEnds, seq(n, i => []), seq(n, i => []), [], deck[..], m, cap);
  }

  // ---- what the kernel knows ----

  method StillUnsettled(players: seq<Process>, parent: ParentProcess, rings: seq<Pipe>, deals: seq<Pipe>, shared: Announcements, ghost s: State)
      returns (b: bool)
    requires InState(players, parent, rings, deals, shared, s)
    ensures b == Unsettled(s)
  {
    if parent.pc.CloseEnds? {
      return true;
    }
    var i := 0;
    while i < |players|
      invariant 0 <= i <= |players| && forall j :: 0 <= j < i ==> !IsStart(s.players[j])
    {
      if players[i].pc.Start? {
        assert IsStart(s.players[i]);
        return true;
      }
      i := i + 1;
    }
    return false;
  }

  method StillShared(players: seq<Process>, parent: ParentProcess, rings: seq<Pipe>, deals: seq<Pipe>, shared: Announcements, ghost s: State)
      returns (writers: bool, allGone: bool)
    requires InState(players, parent, rings, deals, shared, s)
    ensures writers == SharedWriters(s) && allGone == forall i :: 0 <= i < s.N() ==> s.players[i].pc.Gone?
  {
    allGone := true;
    var i := 0;
    while i < |players|
      invariant 0 <= i <= |players| && allGone == forall j :: 0 <= j < i ==> s.players[j].pc.Gone?
    {
      allGone := allGone && players[i].pc.Gone?;
      i := i + 1;
    }
    writers := parent.pc.CloseEnds? || !allGone;
    if !allGone {
      assert exists j :: 0 <= j < |s.players| && HoldsShared(s.players[j]);
    }
  }

  // ---- turns ----

  /** A step of player i touches its own two ring pipes and its deal pipe only. */
  lemma PlayerLocal(s: State, i: nat, c: Choice)
    requires Shape(s) && i < s.N() && PlayerNext(s, i, c).Some?
    ensures var t := PlayerNext(s, i, c).value;
      && Shape(t) && t.N() == s.N() && t.parent == s.parent && t.deck == s.deck && t.m == s.m && t.cap == s.cap
      && (forall j :: 0 <= j < s.N() && j != i ==> t.players[j] == s.players[j] && t.deal[j] == s.deal[j])
      && (forall j :: 0 <= j < s.N() && j != i && j != s.After(i) ==> t.ring[j] == s.ring[j])
  {
  }

  /** The kernel's answers about the far ends of player i's pipes, from the processes themselves. */
  method Answer(players: seq<Process>, parent: ParentProcess, rings: seq<Pipe>, deals: seq<Pipe>, shared: Announcements, i: nat, ghost s: State)
    requires Seated(players, rings, deals, parent.deck) && InState(players, parent, rings, deals, shared, s) && i < |players|
    modifies rings`writers, rings`readers, deals`writers
    ensures rings[i].writers == WritersLeft(s, i) && rings[s.After(i)].readers == ReadersLeft(s, s.After(i))
    ensures deals[i].writers == DealWriters(s, i)
  {
    var n := |players|;
    var o := if i + 1 < n then i + 1 else 0;
    var b := if i > 0 then i - 1 else n - 1;
    assert Matches(players[i], rings[i], deals[i], s, i) && Matches(players[o], rings[o], deals[o], s, o);
    assert Matches(players[b], rings[b], deals[b], s, b);
    var unsettled := StillUnsettled(players, parent, rings, deals, shared, s);
    var writers := unsettled || HoldsWrite(players[b].View());
    var readers := unsettled || HoldsRead(players[o].View());
    var dealer := unsettled || (parent.pc.Dealing? && parent.pc.i <= i);
    rings[i].writers, rings[o].readers, deals[i].writers := writers, readers, dealer;
  }

  /** Player p's turn, with the kernel's answers so computed. */
  method PlayerTurn(players: seq<Process>, parent: ParentProcess, rings: seq<Pipe>, deals: seq<Pipe>, shared: Announcements,
                    p: Process, inp: Pipe, out: Pipe, deal: Pipe, cap: nat, interrupted: bool, roll: nat, ghost s: State)
      returns (ghost c: Choice)
    requires Seated(players, rings, deals, parent.deck) && InState(players, parent, rings, deals, shared, s) && FlowInv(s) && cap == s.cap
    requires p.id < |players| && p == players[p.id] && inp == rings[p.id] && out == rings[s.After(p.id)] && deal == deals[p.id]
    modifies p, p.hand, rings`writers, rings`readers, deals`writers, inp`content, out`content, deal`content, shared
    ensures c.interrupted == interrupted
    ensures p.Of(match PlayerNext(s, p.id, c) case None => s case Some(t) => t, inp, out, deal, shared)
  {
    Answer(players, parent, rings, deals, shared, p.id, s);
    assert PlayerOk(s, p.id);
    var moved;
    ghost var discard;
    moved, discard := p.TakeTurn(interrupted, roll, inp, out, deal, shared, cap, s);
    c := Choice(discard, interrupted);
  }

  method PlayerMove(players: seq<Process>, parent: ParentProcess, rings: seq<Pipe>, deals: seq<Pipe>, shared: Announcements,
                    i: nat, cap: nat, interrupted: bool, roll: nat, ghost s: State) returns (ghost c: Choice)
    requires Seated(players, rings, deals, parent.deck) && InState(players, parent, rings, deals, shared, s) && FlowInv(s) && cap == s.cap
    requires i < |players|
    modifies players[i], players[i].hand, rings, deals, shared
    ensures c.interrupted == interrupted
    ensures InState(players, parent, rings, deals, shared, match PlayerNext(s, i, c) case None => s case Some(t) => t)
  {
    var o := if i + 1 < |players| then i + 1 else 0;
    assert Matches(players[i], rings[i], deals[i], s, i) && Matches(players[o], rings[o], deals[o], s, o);
    c := PlayerTurn(players, parent, rings, deals, shared, players[i], rings[i], rings[o], deals[i], cap, interrupted, roll, s);
    if PlayerNext(s, i, c).Some? {
      PlayerLocal(s, i, c);
    }
    ghost var t := match PlayerNext(s, i, c) case None => s case Some(t) => t;
    forall j | 0 <= j < |players|
      ensures Matches(players[j], rings[j], deals[j], t, j)
    {
      assert old(Matches(players[j], rings[j], deals[j], s, j));
    }
  }

  method ParentMove(players: seq<Process>, parent: ParentProcess, rings: seq<Pipe>, deals: seq<Pipe>, shared: Announcements, ghost s: State)
    requires Seated(players, rings, deals, parent.deck) && InState(players, parent, rings, deals, shared, s)
    modifies parent, deals, shared
    ensures InState(players, parent, rings, deals, shared, match ParentNext(s) case None => s case Some(t) => t)
  {
    ghost var t := match ParentNext(s) case None => s case Some(t) => t;
    forall j | 0 <= j < |players|
      ensures s.deal[j] == deals[j].content
    {
      assert Matches(players[j], rings[j], deals[j], s, j);
    }
    if parent.pc.Dealing? {
      parent.DealTurn(deals, s);
    } else {
      var writers, allGone := StillShared(players, parent, rings, deals, shared, s);
      var moved := parent.OtherTurn(shared, writers, allGone, s);
    }
    forall j | 0 <= j < |players|
      ensures Matches(players[j], rings[j], deals[j], t, j)
    {
      assert old(Matches(players[j], rings[j], deals[j], s, j));
    }
  }

  datatype Move = Move(p: Proc, interrupted: bool, roll: nat)

  /** One turn of a player or of the parent; the discard is whichever the rule and the roll give. */
  method Turns(players: seq<Process>, parent: ParentProcess, rings: seq<Pipe>, deals: seq<Pipe>, shared: Announcements,
               cap: nat, move: Move, ghost s: State) returns (ghost c: Choice)
    requires Seated(players, rings, deals, parent.deck) && InState(players, parent, rings, deals, shared, s) && FlowInv(s) && cap == s.cap
    modifies players, set q: Process | q in players :: q.hand
    modifies parent, rings, deals, shared
    ensures c.interrupted == move.interrupted
    ensures InState(players, parent, rings, deals, shared, match Next(s, move.p, c) case None => s case Some(t) => t)
  {
    c := Choice(0, move.interrupted);
    match move.p {
      case Of(i) =>
        if i < |players| {
          c := PlayerMove(players, parent, rings, deals, shared, i, cap, move.interrupted, move.roll, s);
        }
      case Parent =>
        ParentMove(players, parent, rings, deals, shared, s);
    }
  }

  lemma RunMore(s: State, turns: seq<Turn>, last: Turn)
    requires Shape(s) && FlowInv(Run(s, turns))
    ensures var u := Run(s, turns);
      Run(s, turns + [last]) == match Next(u, last.p, last.c) case None => u case Some(t) => t
    ensures FlowInv(Run(s, turns + [last])) && Run(s, turns + [last]).cap == Run(s, turns).cap
  {
    assert (turns + [last])[..|turns|] == turns;
    if Next(Run(s, turns), last.p, last.c).Some? {
      FlowStep(Run(s, turns), last.p, last.c);
    }
  }

  /** A whole schedule of the parent and the players. */
  method Play(players: seq<Process>, parent: ParentProcess, rings: seq<Pipe>, deals: seq<Pipe>, shared: Announcements,
              cap: nat, moves: seq<Move>, ghost s: State) returns (ghost turns: seq<Turn>)
    requires Seated(players, rings, deals, parent.deck) && InState(players, parent, rings, deals, shared, s) && Init(s) && cap == s.cap
    modifies players, set q: Process | q in players :: q.hand
    modifies parent, rings, deals, shared
    ensures |turns| == |moves|
    ensures forall k :: 0 <= k < |moves| ==> turns[k].p == moves[k].p && turns[k].c.interrupted == moves[k].interrupted
    ensures InState(players, parent, rings, deals, shared, Run(s, turns))
  {
    turns := [];
    ghost var u := s;
    InitFlow(s);
    var n := 0;
    while n < |moves|
      invariant 0 <= n <= |moves| && |turns| == n
      invariant forall k :: 0 <= k < n ==> turns[k].p == moves[k].p && turns[k].c.interrupted == moves[k].interrupted
      invariant u == Run(s, turns) && InState(players, parent, rings, deals, shared, u) && FlowInv(u) && u.cap == cap
    {
      ghost var c := Turns(players, parent, rings, deals, shared, cap, moves[n], u);
      RunMore(s, turns, Turn(moves[n].p, c));
      turns := turns + [Turn(moves[n].p, c)];
      u := Run(s, turns);
      n := n + 1;
    }
  }
}
