/** The card game played through four counting semaphores and one mutex. */
module Game {
  import opened Counting
  import opened GameCards

  datatype PlayerPc =
    | WaitStart | Draw | PostReady | WaitResults
    | Decide
    | TakeMx | ReadCount | WriteCount(seen: int) | DropMx | PostLeave   // resigning
    | PostDone
    | Left(resigned: bool)

  /** round is the player's loop counter, deck and last its cards. */
  datatype Player = Player(pc: PlayerPc, round: nat, deck: seq<int>, last: int)

  /** r is the server's loop counter, c its current_active, k the counter of the inner loop. */
  datatype ServerPc =
    | TakeMx | ReadActive | DropMx(c: int)
    | PostStart(c: int, k: int) | WaitCards(c: int, k: int)
    | Score(c: int)
    | PostResults(c: int, k: int) | WaitDone(c: int, k: int)
    | Summary

  datatype Proc = Of(id: nat) | Server

  /** The four semaphores, the mutex with its holder, active_players and player_data. */
  datatype State = State(
    start: nat, ready: nat, results: nat, done: nat,
    mx: Option<Proc>, active: int, data: seq<Entry>,
    players: seq<Player>, server: ServerPc, r: nat, m: nat)
  {
    function At(i: nat, p: Player): State requires i < |players| { this.(players := players[i := p]) }
  }

  datatype Choice = Choice(roll: nat, resign: bool)

  predicate Shape(s: State) { |s.data| == |s.players| && forall i :: 0 <= i < |s.players| ==> |s.players[i].deck| == s.m }

  function PlayerNext(s: State, i: nat, c: Choice): Option<State>
    requires Shape(s) && i < |s.players|
  {
    var p := s.players[i];
    match p.pc
    case WaitStart =>
      if s.start > 0 then Some(s.(start := s.start - 1).At(i, p.(pc := Draw))) else None
    case Draw =>
      if 0 <= p.last < s.m then
        var idx := c.roll % (p.last + 1);
        Some(s.(data := s.data[i := s.data[i].(card := p.deck[idx])])
              .At(i, Player(PostReady, p.round, Drawn(p.deck, p.last, idx), p.last - 1)))
      else None
    case PostReady => Some(s.(ready := s.ready + 1).At(i, p.(pc := WaitResults)))
    case WaitResults =>
      if s.results > 0 then Some(s.(results := s.results - 1).At(i, p.(pc := Decide))) else None
    case Decide =>
      Some(s.(data := s.data[i := s.data[i].(playing := !c.resign)]).At(i, p.(pc := if c.resign then PlayerPc.TakeMx else PostDone)))
    case TakeMx =>
      if s.mx.None? then Some(s.(mx := Some(Of(i))).At(i, p.(pc := ReadCount))) else None
    case ReadCount => Some(s.At(i, p.(pc := WriteCount(s.active))))
    case WriteCount(seen) => Some(s.(active := seen - 1).At(i, p.(pc := PlayerPc.DropMx)))
    case DropMx => Some(s.(mx := None).At(i, p.(pc := PostLeave)))
    case PostLeave => Some(s.(done := s.done + 1).At(i, p.(pc := Left(true))))
    case PostDone =>
      Some(s.(done := s.done + 1).At(i, if p.round < s.m then p.(pc := WaitStart, round := p.round + 1) else p.(pc := Left(false))))
    case Left(_) => None
  }

  function ServerNext(s: State): Option<State>
    requires Shape(s)
  {
    match s.server
    case TakeMx =>
      if s.r > s.m then Some(s.(server := Summary))
      else if s.mx.None? then Some(s.(mx := Some(Server), server := ReadActive)) else None
    case ReadActive => Some(s.(server := ServerPc.DropMx(s.active)))
    case DropMx(c) => Some(s.(mx := None, server := if c == 0 then Summary else PostStart(c, 0)))
    case PostStart(c, k) =>
      if k < c then Some(s.(start := s.start + 1, server := PostStart(c, k + 1))) else Some(s.(server := WaitCards(c, 0)))
    case WaitCards(c, k) =>
      if k >= c then Some(s.(server := Score(c)))
      else if s.ready > 0 then Some(s.(ready := s.ready - 1, server := WaitCards(c, k + 1))) else None
    case Score(c) => Some(s.(data := Scored(s.data, c), server := PostResults(c, 0)))
    case PostResults(c, k) =>
      if k < c then Some(s.(results := s.results + 1, server := PostResults(c, k + 1))) else Some(s.(server := WaitDone(c, 0)))
    case WaitDone(c, k) =>
      if k >= c then Some(s.(server := ServerPc.TakeMx, r := s.r + 1))
      else if s.done > 0 then Some(s.(done := s.done - 1, server := WaitDone(c, k + 1))) else None
    case Summary => None
  }

  function Next(s: State, p: Proc, c: Choice): (t: Option<State>)
    requires Shape(s)
    ensures t.Some? ==> Shape(t.value) && |t.value.players| == |s.players| && t.value.m == s.m
  {
    match p
    case Of(i) => if i < |s.players| then PlayerNext(s, i, c) else None
    case Server => ServerNext(s)
  }

  datatype Turn = Turn(p: Proc, c: Choice)

  function Run(s: State, turns: seq<Turn>): (t: State)
    requires Shape(s)
    ensures Shape(t) && |t.players| == |s.players| && t.m == s.m
  {
    if turns == [] then s
    else
      var u := Run(s, turns[..|turns| - 1]);
      var last := turns[|turns| - 1];
      match Next(u, last.p, last.c) case None => u case Some(t) => t
  }

  /** main: n players with fresh decks of m cards, all semaphores at 0, everybody playing. */
  ghost predicate Init(s: State)
  {
    && Shape(s) && s.m > 0 && s.start == s.ready == s.results == s.done == 0 && s.mx == None && s.active == |s.players|
    && (forall i :: 0 <= i < |s.players| ==>
         s.players[i] == Player(WaitStart, 1, NewCards(s.m), s.m - 1) && s.data[i] == Entry(0, 0, true))
    && s.server == ServerPc.TakeMx && s.r == 1
  }
}
