/** Decks, points and the end of the game. */
module GameScores {
  import opened Counting
  import opened GameCards
  import opened Game
  import opened GameRounds

  // ---- decks ----

  predicate HasDrawn(p: Player) { !p.pc.WaitStart? && !p.pc.Draw? }

  ghost predicate GoodDeck(deck: seq<int>, m: nat)
  {
    |deck| == m && AllDistinct(deck) && forall v :: v in deck ==> 1 <= v <= m
  }

  /** Player i's deck is all m cards, the drawn ones behind the rest, the newest of them on the table. */
  ghost predicate DeckOk(s: State, i: nat)
    requires Shape(s) && i < |s.players|
  {
    var p := s.players[i];
    && GoodDeck(p.deck, s.m) && 1 <= p.round <= s.m
    && -1 <= p.last < s.m && p.last == s.m - p.round - (if HasDrawn(p) then 1 else 0)
    && (HasDrawn(p) ==> s.data[i].card == p.deck[p.last + 1])
    && s.data[i].card >= 0 && (s.data[i].playing <==> !HasResigned(p))
  }

  ghost predicate DecksOk(s: State)
  {
    Shape(s) && forall i :: 0 <= i < |s.players| ==> DeckOk(s, i)
  }

  /** Player i's step leaves every other player, its entry included, as it was. */
  predicate Local(s: State, i: nat, t: State)
    requires Shape(s) && i < |s.players|
  {
    && Shape(t) && |t.players| == |s.players| && t.m == s.m && t.r == s.r && t.server == s.server
    && (forall j :: 0 <= j < |s.players| && j != i ==> t.players[j] == s.players[j] && t.data[j] == s.data[j])
    && t.data[i].score == s.data[i].score
  }

  lemma StepIsLocal(s: State, i: nat, c: Choice)
    requires Shape(s) && i < |s.players| && PlayerNext(s, i, c).Some?
    ensures Local(s, i, PlayerNext(s, i, c).value)
  {
  }

  /** The deck after a draw is the same cards. */
  lemma DrawnCards(deck: seq<int>, last: nat, idx: nat, m: nat)
    requires idx <= last < |deck| && GoodDeck(deck, m)
    ensures GoodDeck(Drawn(deck, last, idx), m) && Drawn(deck, last, idx)[last] == deck[idx] && 1 <= deck[idx]
  {
    DrawMoves(deck, last, idx);
    var d := Drawn(deck, last, idx);
    forall v | v in d
      ensures 1 <= v <= m
    {
      var k :| 0 <= k < |d| && d[k] == v;
      assert d[k] == deck[From(last, idx, k)];
      assert deck[From(last, idx, k)] in deck;
    }
    assert deck[idx] in deck;
  }

  lemma DrawDeck(s: State, i: nat, c: Choice)
    requires Shape(s) && i < |s.players| && s.players[i].pc.Draw? && DeckOk(s, i) && PlayerNext(s, i, c).Some?
    ensures Shape(PlayerNext(s, i, c).value) && DeckOk(PlayerNext(s, i, c).value, i)
  {
    var p := s.players[i];
    var idx := c.roll % (p.last + 1);
    DrawnCards(p.deck, p.last, idx, s.m);
    var q := PlayerNext(s, i, c).value.players[i];
    assert q == Player(PostReady, p.round, Drawn(p.deck, p.last, idx), p.last - 1);
  }

  lemma OwnDeck(s: State, i: nat, c: Choice)
    requires Shape(s) && i < |s.players| && !s.players[i].pc.Draw? && DeckOk(s, i) && PlayerNext(s, i, c).Some?
    ensures Shape(PlayerNext(s, i, c).value) && i < |PlayerNext(s, i, c).value.players| && DeckOk(PlayerNext(s, i, c).value, i)
  {
  }

  lemma PlayerDecks(s: State, i: nat, c: Choice, j: nat)
    requires DecksOk(s) && i < |s.players| && j < |s.players| && PlayerNext(s, i, c).Some?
    ensures var t := PlayerNext(s, i, c).value; Shape(t) && |t.players| == |s.players| && DeckOk(t, j)
  {
    assert DeckOk(s, j);
    StepIsLocal(s, i, c);
    if i == j {
      if s.players[i].pc.Draw? {
        DrawDeck(s, i, c);
      } else {
        OwnDeck(s, i, c);
      }
    }
  }

  lemma {:induction false} ScoredKeeps(data: seq<Entry>, active: int, i: nat)
    requires i < |data|
    ensures Scored(data, active)[i].card == data[i].card && Scored(data, active)[i].playing == data[i].playing
  {
  }

  lemma DecksStep(s: State, p: Proc, c: Choice)
    requires Inv(s) && DecksOk(s) && Next(s, p, c).Some?
    ensures DecksOk(Next(s, p, c).value)
  {
    var t := Next(s, p, c).value;
    forall j | 0 <= j < |t.players|
      ensures DeckOk(t, j)
    {
      assert DeckOk(s, j);
      if p.Of? {
        PlayerDecks(s, p.id, c, j);
      } else if s.server.Score? {
        ScoredKeeps(s.data, s.server.c, j);
      }
    }
  }

  // ---- points ----

  /** If the playing entries are those of the players at stage k, they are as many. */
  lemma {:induction false} PlayingAtStage(data: seq<Entry>, players: seq<Player>, r: nat, k: nat)
    requires |data| == |players|
    requires forall i :: 0 <= i < |players| ==> (data[i].playing <==> Stage(players[i], r) == k)
    ensures Playing(data) == Num(players, r, k)
  {
    if data != [] {
      PlayingAtStage(data[..|data| - 1], players[..|players| - 1], r, k);
    }
  }

  /** When the server scores, the playing entries are exactly the players it counted. */
  lemma PlayingCounted(s: State)
    requires Inv(s) && DecksOk(s) && s.server.Score?
    ensures Playing(s.data) == s.server.c
  {
    NumZero(s.players, s.r, 0);
    NumZero(s.players, s.r, 1);
    NumZero(s.players, s.r, 3);
    NumZero(s.players, s.r, 4);
    forall i | 0 <= i < |s.players|
      ensures s.data[i].playing <==> Stage(s.players[i], s.r) == 2
    {
      assert PlayerOk(s, i) && DeckOk(s, i);
    }
    PlayingAtStage(s.data, s.players, s.r, 2);
  }

  lemma {:induction false} NumSum(players: seq<Player>, r: nat)
    ensures Num(players, r, 0) + Num(players, r, 1) + Num(players, r, 2) + Num(players, r, 3) + Num(players, r, 4) <= |players|
  {
    if players != [] {
      NumSum(players[..|players| - 1], r);
    }
  }

  lemma {:induction false} ScoresChange(data: seq<Entry>, i: nat, e: Entry)
    requires i < |data| && e.score == data[i].score
    ensures Scores(data[i := e]) == Scores(data)
  {
    var front := data[..|data| - 1];
    if i == |data| - 1 {
      assert data[i := e][..|data| - 1] == front;
    } else {
      assert data[i := e][..|data| - 1] == front[i := e];
      ScoresChange(front, i, e);
    }
  }

  /** Rounds scored so far. */
  function RoundsScored(s: State): int
  {
    s.r - 1 + (if s.server.PostResults? || s.server.WaitDone? then 1 else 0)
  }

  /** At most n points per round scored. */
  ghost predicate PointsOk(s: State) { Scores(s.data) <= |s.players| * RoundsScored(s) }

  lemma PlayerPoints(s: State, i: nat, t: State)
    requires Shape(s) && i < |s.players| && Local(s, i, t) && PointsOk(s)
    ensures PointsOk(t)
  {
    ScoresChange(s.data, i, t.data[i]);
    assert t.data == s.data[i := t.data[i]];
  }

  lemma ScoringPoints(s: State)
    requires Inv(s) && DecksOk(s) && PointsOk(s) && s.server.Score?
    ensures Scores(Scored(s.data, s.server.c)) <= |s.players| * s.r
  {
    PlayingCounted(s);
    NumWhole(s.players, s.r, 2);
    forall i | 0 <= i < |s.data|
      ensures s.data[i].card >= 0
    {
      assert DeckOk(s, i);
    }
    RoundAwards(s.data, s.server.c);
    OneMore(|s.players|, s.r - 1);
  }

  lemma PointsStep(s: State, p: Proc, c: Choice)
    requires Inv(s) && DecksOk(s) && PointsOk(s) && Next(s, p, c).Some?
    ensures PointsOk(Next(s, p, c).value)
  {
    var t := Next(s, p, c).value;
    if p.Of? {
      StepIsLocal(s, p.id, c);
      PlayerPoints(s, p.id, t);
    } else if s.server.Score? {
      ScoringPoints(s);
    }
  }

  lemma OneMore(n: int, r: int)
    ensures n * (r + 1) == n * r + n
  {
  }

  lemma {:induction false} NoScores(data: seq<Entry>)
    requires forall i :: 0 <= i < |data| ==> data[i].score == 0
    ensures Scores(data) == 0
  {
    if data != [] {
      NoScores(data[..|data| - 1]);
    }
  }

  lemma InitScores(s: State)
    requires Init(s)
    ensures DecksOk(s) && PointsOk(s)
  {
    NoScores(s.data);
    assert |s.players| * 0 == 0;
    forall i | 0 <= i < |s.players|
      ensures DeckOk(s, i)
    {
    }
  }

  lemma {:induction false} RunScores(s: State, turns: seq<Turn>)
    requires Init(s)
    ensures Inv(Run(s, turns)) && DecksOk(Run(s, turns)) && PointsOk(Run(s, turns))
  {
    RunInv(s, turns);
    if turns == [] {
      InitScores(s);
    } else {
      RunScores(s, turns[..|turns| - 1]);
      var u := Run(s, turns[..|turns| - 1]);
      var last := turns[|turns| - 1];
      if Next(u, last.p, last.c).Some? {
        DecksStep(u, last.p, last.c);
        PointsStep(u, last.p, last.c);
      }
    }
  }

  /** At a round boundary active_players is the number of PLAYING entries. */
  lemma ActiveIsPlaying(s: State, turns: seq<Turn>)
    requires Init(s) && Run(s, turns).server.TakeMx? && Run(s, turns).r <= s.m
    ensures Run(s, turns).active == Playing(Run(s, turns).data)
  {
    RunScores(s, turns);
    var t := Run(s, turns);
    ActiveAreWaiting(t);
    forall i | 0 <= i < |t.players|
      ensures t.data[i].playing <==> Stage(t.players[i], t.r) == 0
    {
      assert PlayerOk(t, i) && DeckOk(t, i);
      StagesEmpty(t, i);
    }
    PlayingAtStage(t.data, t.players, t.r, 0);
  }

  /** The cards player i has put on the table so far, the newest first. */
  function Played(p: Player): seq<int>
  {
    if -1 <= p.last < |p.deck| then p.deck[p.last + 1..] else []
  }

  lemma PlayedOfDeck(s: State, i: nat)
    requires Shape(s) && i < |s.players| && DeckOk(s, i)
    ensures |Played(s.players[i])| == s.players[i].round - 1 + (if HasDrawn(s.players[i]) then 1 else 0)
    ensures AllDistinct(Played(s.players[i]))
    ensures forall v :: v in Played(s.players[i]) ==> 1 <= v <= s.m
    ensures HasDrawn(s.players[i]) ==> Played(s.players[i]) != [] && s.data[i].card == Played(s.players[i])[0]
  {
    var p := s.players[i];
    forall v | v in Played(p)
      ensures 1 <= v <= s.m
    {
      assert v in p.deck;
    }
  }

  /** They are distinct cards of 1..m, one per round entered past the start, the newest one showing. */
  lemma PlayedCards(s: State, turns: seq<Turn>, i: nat)
    requires Init(s) && i < |s.players|
    ensures var p := Run(s, turns).players[i]; |Played(p)| == p.round - 1 + (if HasDrawn(p) then 1 else 0)
    ensures var p := Run(s, turns).players[i]; AllDistinct(Played(p)) && forall v :: v in Played(p) ==> 1 <= v <= s.m
    ensures var t := Run(s, turns); var p := t.players[i]; HasDrawn(p) ==> Played(p) != [] && t.data[i].card == Played(p)[0]
  {
    RunScores(s, turns);
    PlayedOfDeck(Run(s, turns), i);
  }

  /** The final scores add up to at most n m points. */
  lemma ScoresBounded(s: State, turns: seq<Turn>)
    requires Init(s)
    ensures Scores(Run(s, turns).data) <= |s.players| * s.m
  {
    RunScores(s, turns);
    var t := Run(s, turns);
    MoreRounds(|s.players|, RoundsScored(t), s.m);
  }

  lemma MoreRounds(n: nat, a: int, b: int)
    requires a <= b
    ensures n * a <= n * b
  {
  }

  // ---- progress and termination ----

  /** In every reachable state, either the game has ended or some process can move, whoever has resigned or not. */
  lemma DeadlockFree(s: State, turns: seq<Turn>)
    requires Init(s)
    ensures Ended(Run(s, turns)) || exists p :: Next(Run(s, turns), p, ANY).Some?
  {
    RunScores(s, turns);
    var t := Run(s, turns);
    if !Ended(t) {
      forall i | 0 <= i < |t.players| && t.players[i].pc.Draw?
        ensures 0 <= t.players[i].last < t.m
      {
        assert DeckOk(t, i) && PlayerOk(t, i);
      }
      var p := SomeoneMoves(t);
    }
  }

  function PcRank(pc: PlayerPc): nat
  {
    match pc
    case WaitStart => 11 case Draw => 10 case PostReady => 9 case WaitResults => 8 case Decide => 7
    case TakeMx => 6 case ReadCount => 5 case WriteCount(_) => 4 case DropMx => 3 case PostLeave => 2
    case PostDone => 1 case Left(_) => 0
  }

  function PlayerRank(p: Player, m: nat): int
  {
    if p.pc.Left? then 0 else (m - p.round) * 12 + PcRank(p.pc)
  }

  function PhaseRank(sv: ServerPc, n: nat): int
  {
    match sv
    case TakeMx => 4 * n + 9
    case ReadActive => 4 * n + 8
    case DropMx(_) => 4 * n + 7
    case PostStart(c, k) => 3 * n + (c - k) + 6
    case WaitCards(c, k) => 2 * n + (c - k) + 5
    case Score(_) => 2 * n + 4
    case PostResults(c, k) => n + (c - k) + 3
    case WaitDone(c, k) => (c - k) + 2
    case Summary => 0
  }

  function ServerRank(s: State): int
  {
    if s.server.Summary? then 0 else (s.m + 1 - s.r) * (4 * |s.players| + 10) + PhaseRank(s.server, |s.players|)
  }

  function Ranks(s: State): seq<int>
  {
    seq(|s.players|, i requires 0 <= i < |s.players| => PlayerRank(s.players[i], s.m))
  }

  function Rank(s: State): int { Sum(Ranks(s)) + ServerRank(s) }

  lemma PlayerRankFalls(s: State, i: nat, c: Choice)
    requires Shape(s) && i < |s.players| && PlayerOk(s, i) && PlayerNext(s, i, c).Some?
    ensures |PlayerNext(s, i, c).value.players| == |s.players|
    ensures PlayerRank(PlayerNext(s, i, c).value.players[i], s.m) < PlayerRank(s.players[i], s.m)
  {
  }

  /** A round is worth more than everything the server does in it. */
  lemma RoundEnds(s: State)
    requires Inv(s) && s.server.WaitDone? && s.server.k >= s.server.c
    ensures ServerRank(s.(server := ServerPc.TakeMx, r := s.r + 1)) < ServerRank(s)
  {
    var b := 4 * |s.players| + 10;
    OneMore(b, s.m - s.r);
    assert b * (s.m - s.r + 1) == (s.m + 1 - s.r) * b && b * (s.m - s.r) == (s.m - s.r) * b;
  }

  lemma PhaseBound(s: State)
    requires Inv(s) && (s.server.DropMx? || s.server.PostStart?)
    ensures s.server.c <= |s.players|
  {
    NumSum(s.players, s.r);
  }

  lemma PhaseFalls(s: State)
    requires Inv(s) && ServerNext(s).Some? && !(s.server.WaitDone? && s.server.k >= s.server.c)
    ensures PhaseRank(ServerNext(s).value.server, |s.players|) < PhaseRank(s.server, |s.players|)
  {
    if s.server.DropMx? || s.server.PostStart? {
      PhaseBound(s);
    }
    NumSum(s.players, s.r);
  }

  lemma ServerRankFalls(s: State)
    requires Inv(s) && ServerNext(s).Some?
    ensures ServerRank(ServerNext(s).value) < ServerRank(s)
  {
    if s.server.WaitDone? && s.server.k >= s.server.c {
      RoundEnds(s);
    } else {
      PhaseFalls(s);
      Nonnegative(s.m + 1 - s.r, 4 * |s.players| + 10);
    }
  }

  lemma Nonnegative(a: int, b: int)
    requires a >= 0 && b >= 0
    ensures a * b >= 0
  {
  }

  /** Every step of every process lowers the rank: no schedule goes on for ever. */
  lemma RankFalls(s: State, p: Proc, c: Choice)
    requires Inv(s) && Next(s, p, c).Some?
    ensures Rank(Next(s, p, c).value) < Rank(s)
  {
    var t := Next(s, p, c).value;
    match p
    case Server =>
      ServerRankFalls(s);
      assert Ranks(t) == Ranks(s);
    case Of(i) =>
      assert PlayerOk(s, i);
      PlayerRankFalls(s, i, c);
      PlayerTouches(s, i, c);
      SumUpdate(Ranks(s), i, PlayerRank(t.players[i], s.m));
      assert Ranks(t) == Ranks(s)[i := PlayerRank(t.players[i], s.m)];
  }

  /** How many of the turns made their process move. */
  function Moves(s: State, turns: seq<Turn>): nat
    requires Shape(s)
  {
    if turns == [] then 0
    else
      var u := Run(s, turns[..|turns| - 1]);
      var last := turns[|turns| - 1];
      Moves(s, turns[..|turns| - 1]) + (if Next(u, last.p, last.c).Some? then 1 else 0)
  }

  lemma RankNonnegative(s: State)
    requires Inv(s)
    ensures Rank(s) >= 0
  {
    forall i | 0 <= i < |s.players|
      ensures Ranks(s)[i] >= 0
    {
      assert PlayerOk(s, i);
      Nonnegative(s.m - s.players[i].round, 12);
    }
    SumNonnegative(Ranks(s));
    Nonnegative(s.m + 1 - s.r, 4 * |s.players| + 10);
  }

  /** A game makes at most Rank(initial state) moves, so with DeadlockFree every game ends. */
  lemma {:induction false} GameEnds(s: State, turns: seq<Turn>)
    requires Init(s)
    ensures Rank(Run(s, turns)) >= 0
    ensures Moves(s, turns) + Rank(Run(s, turns)) <= Rank(s)
  {
    RunInv(s, turns);
    RankNonnegative(Run(s, turns));
    if turns != [] {
      var front := turns[..|turns| - 1];
      GameEnds(s, front);
      RunInv(s, front);
      var u := Run(s, front);
      var last := turns[|turns| - 1];
      if Next(u, last.p, last.c).Some? {
        RankFalls(u, last.p, last.c);
      }
    }
  }
}
