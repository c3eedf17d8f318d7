/**
 The card ring: n players in a ring of pipes, each passing one card on and taking one in per round,
 and a parent that deals and waits for a winner.  A pipe delivers in order; reading an empty pipe
 blocks while any process holds its write end and is end-of-file after that; writing fails with
 EPIPE once no process holds its read end.
 */
module Ring {
  import opened Counting

  // ---- the hand ----

  function Suit(card: int): int { card % 4 }

  predicate IsWinning(hand: seq<int>)
  {
    forall i :: 0 <= i < |hand| ==> Suit(hand[i]) == Suit(hand[0])
  }

  function SuitCount(hand: seq<int>, suit: int): nat
  {
    if hand == [] then 0 else SuitCount(hand[..|hand| - 1], suit) + (if Suit(hand[|hand| - 1]) == suit then 1 else 0)
  }

  /** best is the lowest-numbered among the most frequent suits. */
  ghost predicate IsBest(hand: seq<int>, best: int)
  {
    && 0 <= best < 4
    && (forall k :: 0 <= k < 4 ==> SuitCount(hand, k) <= SuitCount(hand, best))
    && (forall k :: 0 <= k < best ==> SuitCount(hand, k) < SuitCount(hand, best))
  }

  function Best(hand: seq<int>): (b: int)
    ensures IsBest(hand, b)
  {
    var b1 := if SuitCount(hand, 1) > SuitCount(hand, 0) then 1 else 0;
    var b2 := if SuitCount(hand, 2) > SuitCount(hand, b1) then 2 else b1;
    if SuitCount(hand, 3) > SuitCount(hand, b2) then 3 else b2
  }

  /** What choose_card_to_discard may return: a card outside the best suit if there is one, else any. */
  predicate MayDiscard(hand: seq<int>, i: nat)
  {
    i < |hand| && (Suit(hand[i]) != Best(hand) || forall j :: 0 <= j < |hand| ==> Suit(hand[j]) == Best(hand))
  }

  // ---- processes ----

  datatype Pc =
    | Start                  // forked, still holding a copy of every pipe end
    | TakeDeal
    | Top                    // while (keep_running)
    | Announce
    | Write(idx: nat)
    | Read(idx: nat)
    | CloseRead | CloseWrite | CloseShared | Gone

  /** hole is the position of the card passed on and not yet replaced; rounds counts completed rounds. */
  datatype Player = Player(pc: Pc, hand: seq<int>, hole: Option<nat>, rounds: nat)

  datatype ParentPc = CloseEnds | Dealing(i: nat) | Await | Reap(winner: Option<nat>) | Over(winner: Option<nat>)

  /** Pipe ring[i] is read by player i and written by the player before it; cap bounds it. */
  datatype State = State(
    players: seq<Player>, parent: ParentPc, ring: seq<seq<int>>, deal: seq<seq<int>>, shared: seq<nat>,
    deck: seq<int>, m: nat, cap: nat)
  {
    function N(): nat { |players| }
    function After(i: nat): nat { if i + 1 < N() then i + 1 else 0 }
    function Before(i: nat): int { if i > 0 then i - 1 else N() - 1 }
  }

  datatype Proc = Of(id: nat) | Parent

  /** What rand() and the signal decide: which card goes, and whether SIGINT has cleared keep_running. */
  datatype Choice = Choice(discard: nat, interrupted: bool)

  predicate Shape(s: State)
  {
    s.N() >= 2 && |s.ring| == s.N() && |s.deal| == s.N() && |s.deck| >= s.N() * s.m && s.m > 0
    && (s.parent.Dealing? ==> s.parent.i <= s.N())
  }

  // ---- who holds which pipe end ----

  predicate IsStart(p: Player) { p.pc.Start? }

  /** Some process still holds inherited copies of every end. */
  predicate Unsettled(s: State) { s.parent.CloseEnds? || exists i :: 0 <= i < |s.players| && IsStart(s.players[i]) }

  predicate HoldsRead(p: Player) { !p.pc.CloseWrite? && !p.pc.CloseShared? && !p.pc.Gone? }
  predicate HoldsWrite(p: Player) { !p.pc.CloseShared? && !p.pc.Gone? }
  predicate HoldsShared(p: Player) { !p.pc.Gone? }

  predicate ReadersLeft(s: State, i: nat)
    requires i < |s.players|
  {
    Unsettled(s) || HoldsRead(s.players[i])
  }

  predicate WritersLeft(s: State, i: nat)
    requires Shape(s) && i < |s.players|
  {
    Unsettled(s) || HoldsWrite(s.players[s.Before(i)])
  }

  predicate SharedWriters(s: State)
  {
    s.parent.CloseEnds? || exists i :: 0 <= i < |s.players| && HoldsShared(s.players[i])
  }

  predicate DealWriters(s: State, i: nat)
  {
    Unsettled(s) || (s.parent.Dealing? && s.parent.i <= i)
  }

  // ---- steps ----

  /** One step of player_work, given the state of the two ring pipes. */
  function PlayerStep(p: Player, c: Choice, inq: seq<int>, writers: bool, outq: seq<int>, readers: bool, cap: nat): Option<(Player, seq<int>, seq<int>)>
  {
    match p.pc
    case Top =>
      if c.interrupted then Some((p.(pc := CloseRead), inq, outq))
      else if IsWinning(p.hand) then Some((p.(pc := Announce), inq, outq))
      else if MayDiscard(p.hand, c.discard) then Some((p.(pc := Write(c.discard)), inq, outq))
      else None
    case Write(idx) =>
      if !readers then Some((p.(pc := CloseRead), inq, outq))
      else if |outq| >= cap || idx >= |p.hand| then None
      else Some((p.(pc := Read(idx), hole := Some(idx)), inq, outq + [p.hand[idx]]))
    case Read(idx) =>
      if inq != [] && idx < |p.hand| then
        Some((Player(Top, p.hand[idx := inq[0]], None, p.rounds + 1), inq[1..], outq))
      else if inq == [] && !writers then Some((p.(pc := CloseRead), inq, outq))
      else None
    case CloseRead => Some((p.(pc := CloseWrite), inq, outq))
    case CloseWrite => Some((p.(pc := CloseShared), inq, outq))
    case CloseShared => Some((p.(pc := Gone), inq, outq))
    case _ => None
  }

  function PlayerNext(s: State, i: nat, c: Choice): Option<State>
    requires Shape(s) && i < s.N()
  {
    var p := s.players[i];
    match p.pc
    case Start => Some(s.(players := s.players[i := p.(pc := TakeDeal)]))
    case TakeDeal =>
      if s.deal[i] != [] then
        Some(s.(players := s.players[i := p.(pc := Top, hand := s.deal[i])], deal := s.deal[i := []]))
      else if !DealWriters(s, i) then Some(s.(players := s.players[i := p.(pc := Top)]))
      else None
    case Announce => Some(s.(players := s.players[i := p.(pc := CloseRead)], shared := s.shared + [i]))
    case _ =>
      var o := s.After(i);
      match PlayerStep(p, c, s.ring[i], WritersLeft(s, i), s.ring[o], ReadersLeft(s, o), s.cap)
      case None => None
      case Some((q, inq, outq)) => Some(s.(players := s.players[i := q], ring := s.ring[i := inq][o := outq]))
  }

  function ParentNext(s: State): Option<State>
    requires Shape(s)
  {
    match s.parent
    case CloseEnds => Some(s.(parent := Dealing(0)))
    case Dealing(i) =>
      if i == s.N() then Some(s.(parent := Await))
      else Some(s.(parent := Dealing(i + 1), deal := s.deal[i := s.deal[i] + Share(s, i)]))
    case Await =>
      if s.shared != [] then Some(s.(parent := Reap(Some(s.shared[0])), shared := s.shared[1..]))
      else if !SharedWriters(s) then Some(s.(parent := Reap(None)))
      else None
    case Reap(w) =>
      if forall i :: 0 <= i < s.N() ==> s.players[i].pc.Gone? then Some(s.(parent := Over(w))) else None
    case Over(_) => None
  }

  lemma ShareFits(n: nat, m: nat, i: nat)
    requires i < n
    ensures i * m + m <= n * m
  {
    assert (i + 1) * m <= n * m;
  }

  /** The m cards dealt to player i. */
  function Share(s: State, i: nat): (r: seq<int>)
    requires Shape(s) && i < s.N()
    ensures |r| == s.m
  {
    ShareFits(s.N(), s.m, i);
    s.deck[i * s.m..i * s.m + s.m]
  }

  function Next(s: State, p: Proc, c: Choice): (r: Option<State>)
    requires Shape(s)
    ensures r.Some? ==> Shape(r.value) && r.value.N() == s.N()
  {
    match p
    case Of(i) => if i < s.N() then PlayerNext(s, i, c) else None
    case Parent => ParentNext(s)
  }

  datatype Turn = Turn(p: Proc, c: Choice)

  function Run(s: State, turns: seq<Turn>): (t: State)
    requires Shape(s)
    ensures Shape(t) && t.N() == s.N()
  {
    if turns == [] then s
    else
      var u := Run(s, turns[..|turns| - 1]);
      var last := turns[|turns| - 1];
      match Next(u, last.p, last.c) case None => u case Some(t) => t
  }

  /** All players forked, nothing dealt; cap is at least one card per player. */
  ghost predicate Init(s: State)
  {
    && Shape(s) && s.cap >= s.N()
    && (forall i :: 0 <= i < s.N() ==> s.players[i] == Player(Start, [], None, 0) && s.ring[i] == [] && s.deal[i] == [])
    && s.parent == CloseEnds && s.shared == []
  }
}
