/** Who gets which points: entry by entry for one round, and player by player for a whole game. */
module GamePoints {
  import opened Counting
  import opened GameCards
  import opened Game
  import opened GameRounds
  import opened GameScores

  // ---- one round ----

  /** Entry i plays, and no playing entry shows a higher card. */
  predicate Leads(data: seq<Entry>, i: nat)
    requires i < |data|
  {
    data[i].playing && forall j :: 0 <= j < |data| && data[j].playing ==> data[j].card <= data[i].card
  }

  /** What entry i is due when active players share a round: the leaders share equally, rounded down. */
  function Due(data: seq<Entry>, active: int, i: nat): int
    requires i < |data|
  {
    if Leads(data, i) && Holders(data, data[i].card) > 0 then active / Holders(data, data[i].card) else 0
  }

  lemma {:induction false} HoldersPositive(data: seq<Entry>, i: nat)
    requires i < |data| && data[i].playing
    ensures Holders(data, data[i].card) > 0 && Playing(data) > 0
  {
    if i < |data| - 1 {
      HoldersPositive(data[..|data| - 1], i);
    }
  }

  /** The lead is the highest card, held by as many entries as the first loop counts. */
  lemma LeadIsWinning(data: seq<Entry>, i: nat)
    requires i < |data| && forall k :: 0 <= k < |data| && data[k].playing ==> data[k].card >= 0
    ensures var (card, count) := Winning(data); Leads(data, i) <==> count > 0 && data[i].playing && data[i].card == card
  {
    WinningIsMax(data);
    var (card, count) := Winning(data);
    if Leads(data, i) {
      HoldersPositive(data, i);
      if data[i].card != card {
        NoHolders(data, card);
      }
    }
  }

  /** A round's scoring changes scores only, and gives each entry what it is due: nothing to a beaten one or one that does not play. */
  lemma GainsDue(data: seq<Entry>, active: int, i: nat)
    requires i < |data| && forall k :: 0 <= k < |data| && data[k].playing ==> data[k].card >= 0
    ensures var e := Scored(data, active)[i];
      e.card == data[i].card && e.playing == data[i].playing && e.score == data[i].score + Due(data, active, i)
  {
    LeadIsWinning(data, i);
    WinningIsMax(data);
  }

  /** Two leaders are due the same, and all who are due anything lead. */
  lemma LeadersShare(data: seq<Entry>, active: int, i: nat, j: nat)
    requires i < |data| && j < |data|
    ensures Leads(data, i) && Leads(data, j) ==> Due(data, active, i) == Due(data, active, j)
    ensures Leads(data, i) ==> Holders(data, data[i].card) > 0 && Due(data, active, i) == active / Holders(data, data[i].card)
    ensures !Leads(data, j) ==> Due(data, active, j) == 0
  {
    if Leads(data, i) {
      HoldersPositive(data, i);
    }
  }

  // ---- a whole game ----

  /** player_data as the server found it each time it scored. */
  function Tables(s: State, turns: seq<Turn>): seq<seq<Entry>>
    requires Shape(s)
  {
    if turns == [] then []
    else
      var u := Run(s, turns[..|turns| - 1]);
      Tables(s, turns[..|turns| - 1]) + (if turns[|turns| - 1].p == Server && u.server.Score? then [u.data] else [])
  }

  /** What player i is due for these rounds, everybody who plays in a round counting as active. */
  function Earned(tables: seq<seq<Entry>>, i: nat): int
  {
    if tables == [] then 0
    else
      var last := tables[|tables| - 1];
      Earned(tables[..|tables| - 1], i) + (if i < |last| then Due(last, Playing(last), i) else 0)
  }

  lemma EarnedMore(tables: seq<seq<Entry>>, last: seq<Entry>, i: nat)
    ensures Earned(tables + [last], i) == Earned(tables, i) + (if i < |last| then Due(last, Playing(last), i) else 0)
  {
    assert (tables + [last])[..|tables|] == tables;
  }

  lemma ScoreStep(s: State, p: Proc, c: Choice, i: nat)
    requires Inv(s) && DecksOk(s) && i < |s.players| && Next(s, p, c).Some?
    ensures var t := Next(s, p, c).value;
      t.data[i].score == s.data[i].score + (if p == Server && s.server.Score? then Due(s.data, Playing(s.data), i) else 0)
  {
    if p.Of? {
      StepIsLocal(s, p.id, c);
    } else if s.server.Score? {
      forall k | 0 <= k < |s.data| && s.data[k].playing
        ensures s.data[k].card >= 0
      {
        assert DeckOk(s, k);
      }
      PlayingCounted(s);
      GainsDue(s.data, s.server.c, i);
    }
  }

  lemma RoundsStep(s: State, p: Proc, c: Choice)
    requires Inv(s) && Next(s, p, c).Some?
    ensures RoundsScored(Next(s, p, c).value) == RoundsScored(s) + (if p == Server && s.server.Score? then 1 else 0)
  {
    if p.Of? {
      StepIsLocal(s, p.id, c);
    }
  }

  lemma ScoreOrStay(u: State, p: Proc, c: Choice, i: nat)
    requires Inv(u) && DecksOk(u) && i < |u.players|
    ensures var t := match Next(u, p, c) case None => u case Some(t) => t; var scored := p == Server && u.server.Score?;
      && i < |t.data| && t.data[i].score == u.data[i].score + (if scored then Due(u.data, Playing(u.data), i) else 0)
      && RoundsScored(t) == RoundsScored(u) + (if scored then 1 else 0)
  {
    if Next(u, p, c).Some? {
      ScoreStep(u, p, c, i);
      RoundsStep(u, p, c);
    }
  }

  lemma EarnedStep(s: State, turns: seq<Turn>, i: nat)
    requires Init(s) && i < |s.players| && turns != []
    ensures var front := turns[..|turns| - 1]; var u, t := Run(s, front), Run(s, turns);
      && t.data[i].score - u.data[i].score == Earned(Tables(s, turns), i) - Earned(Tables(s, front), i)
      && RoundsScored(t) - RoundsScored(u) == |Tables(s, turns)| - |Tables(s, front)|
  {
    var front, last := turns[..|turns| - 1], turns[|turns| - 1];
    RunScores(s, front);
    var u := Run(s, front);
    ScoreOrStay(u, last.p, last.c, i);
    EarnedMore(Tables(s, front), u.data, i);
    assert Tables(s, front) + [] == Tables(s, front);
  }

  /** In every run a player's score is what it is due for the rounds scored so far, and those are the rounds the server has played. */
  lemma {:induction false} ScoresAreEarned(s: State, turns: seq<Turn>, i: nat)
    requires Init(s) && i < |s.players|
    ensures var t := Run(s, turns); t.data[i].score == Earned(Tables(s, turns), i) && |Tables(s, turns)| == RoundsScored(t)
  {
    if turns != [] {
      ScoresAreEarned(s, turns[..|turns| - 1], i);
      EarnedStep(s, turns, i);
    }
  }

  // ---- how long it lasts ----

  /** A server that stops before the last round has found nobody left. */
  ghost predicate StopInv(s: State) { s.server.Summary? && s.r <= s.m ==> s.active == 0 }

  lemma StopStep(s: State, p: Proc, c: Choice)
    requires Inv(s) && StopInv(s) && Next(s, p, c).Some?
    ensures StopInv(Next(s, p, c).value)
  {
    if p.Of? {
      StepIsLocal(s, p.id, c);
      if s.server.Summary? {
        StagesEmpty(s, p.id);
      }
    }
  }

  lemma {:induction false} RunStops(s: State, turns: seq<Turn>)
    requires Init(s)
    ensures StopInv(Run(s, turns))
  {
    if turns != [] {
      var front, last := turns[..|turns| - 1], turns[|turns| - 1];
      RunStops(s, front);
      RunInv(s, front);
      if Next(Run(s, front), last.p, last.c).Some? {
        StopStep(Run(s, front), last.p, last.c);
      }
    }
  }

  /** The server ends after round m, or as soon as everybody has resigned. */
  lemma PlaysAllRounds(s: State, turns: seq<Turn>)
    requires Init(s) && Run(s, turns).server.Summary?
    ensures var t := Run(s, turns); t.r == s.m + 1 || forall i :: 0 <= i < |t.players| ==> t.players[i].pc == Left(true)
  {
    RunStops(s, turns);
    RunInv(s, turns);
    var t := Run(s, turns);
    if t.r <= s.m {
      CountFull(t.players, Discounted);
      forall i | 0 <= i < |t.players|
        ensures t.players[i].pc == Left(true)
      {
        StagesEmpty(t, i);
      }
    }
  }

  /** Player i was asked whether to resign and said yes. */
  ghost predicate SaidYes(s: State, turns: seq<Turn>, i: nat, k: int)
    requires Shape(s) && i < |s.players|
  {
    0 <= k < |turns| && turns[k].p == Of(i) && turns[k].c.resign && Run(s, turns[..k]).players[i].pc.Decide?
  }

  lemma ResignStep(s: State, p: Proc, c: Choice, i: nat)
    requires Shape(s) && i < |s.players| && Next(s, p, c).Some?
    ensures var t := Next(s, p, c).value;
      HasResigned(t.players[i]) <==> HasResigned(s.players[i]) || (p == Of(i) && c.resign && s.players[i].pc.Decide?)
  {
  }

  lemma SaidYesMore(s: State, turns: seq<Turn>, i: nat)
    requires Shape(s) && i < |s.players| && turns != []
    ensures var front := turns[..|turns| - 1];
      (exists k :: SaidYes(s, turns, i, k)) <==> (exists k :: SaidYes(s, front, i, k)) || SaidYes(s, turns, i, |front|)
  {
    var front := turns[..|turns| - 1];
    forall k | 0 <= k < |front|
      ensures SaidYes(s, turns, i, k) <==> SaidYes(s, front, i, k)
    {
      assert turns[..k] == front[..k];
    }
    if k :| SaidYes(s, turns, i, k) {
      assert k < |front| ==> SaidYes(s, front, i, k);
    }
    if k :| SaidYes(s, front, i, k) {
      assert SaidYes(s, turns, i, k);
    }
  }

  /** In every run a player has resigned if and only if it was asked and said yes; from then on its entry does not play. */
  lemma {:induction false} ResignedExactly(s: State, turns: seq<Turn>, i: nat)
    requires Init(s) && i < |s.players|
    ensures HasResigned(Run(s, turns).players[i]) <==> exists k :: SaidYes(s, turns, i, k)
    ensures Run(s, turns).data[i].playing <==> !HasResigned(Run(s, turns).players[i])
  {
    assert Run(s, turns).data[i].playing <==> !HasResigned(Run(s, turns).players[i]) by {
      RunScores(s, turns);
      assert DeckOk(Run(s, turns), i);
    }
    if turns != [] {
      var front, last := turns[..|turns| - 1], turns[|turns| - 1];
      ResignedExactly(s, front, i);
      SaidYesMore(s, turns, i);
      if Next(Run(s, front), last.p, last.c).Some? {
        ResignStep(Run(s, front), last.p, last.c, i);
      }
    }
  }

  /** A player that never resigns has put every card on the table when the game has ended, and every round is scored. */
  lemma PlaysWholeDeck(s: State, turns: seq<Turn>, i: nat)
    requires Init(s) && i < |s.players| && Ended(Run(s, turns)) && forall k :: !SaidYes(s, turns, i, k)
    ensures var t := Run(s, turns); t.players[i].round == s.m && |Played(t.players[i])| == s.m
    ensures Run(s, turns).r == s.m + 1 && |Tables(s, turns)| == s.m
  {
    ResignedExactly(s, turns, i);
    RunScores(s, turns);
    ScoresAreEarned(s, turns, i);
    PlaysAllRounds(s, turns);
    var t := Run(s, turns);
    assert PlayerOk(t, i) && DeckOk(t, i);
  }

  /** Any card still undrawn can be the next one a player puts on the table. */
  lemma AnyCardMayCome(s: State, i: nat, k: nat)
    requires Shape(s) && i < |s.players| && s.players[i].pc.Draw? && k <= s.players[i].last < s.m
    ensures k < |s.players[i].deck| && exists roll ::
      (PlayerNext(s, i, Choice(roll, false)).Some? && PlayerNext(s, i, Choice(roll, false)).value.data[i].card == s.players[i].deck[k])
  {
    var p := s.players[i];
    assert k % (p.last + 1) == k;
    assert PlayerNext(s, i, Choice(k, false)).value.data[i].card == p.deck[k];
  }

  ghost predicate DecksAscend(s: State)
  {
    forall i :: 0 <= i < |s.players| ==> Ascends(s.players[i].deck, s.players[i].last + 1)
  }

  lemma DrawAscends(s: State, i: nat, c: Choice)
    requires Shape(s) && i < |s.players| && s.players[i].pc.Draw? && PlayerNext(s, i, c).Some?
    requires Ascends(s.players[i].deck, s.players[i].last + 1)
    ensures Shape(PlayerNext(s, i, c).value) && |PlayerNext(s, i, c).value.players| == |s.players|
    ensures var q := PlayerNext(s, i, c).value.players[i]; Ascends(q.deck, q.last + 1)
  {
    var p := s.players[i];
    var idx := c.roll % (p.last + 1);
    DrawKeepsOrder(p.deck, p.last, idx);
    assert PlayerNext(s, i, c).value.players[i] == Player(PostReady, p.round, Drawn(p.deck, p.last, idx), p.last - 1);
  }

  lemma DeckStays(s: State, i: nat, c: Choice)
    requires Shape(s) && i < |s.players| && !s.players[i].pc.Draw? && PlayerNext(s, i, c).Some?
    ensures var t := PlayerNext(s, i, c).value;
      |t.players| == |s.players| && t.players[i].deck == s.players[i].deck && t.players[i].last == s.players[i].last
  {
  }

  lemma AscendStep(s: State, p: Proc, c: Choice)
    requires Shape(s) && DecksAscend(s) && Next(s, p, c).Some?
    ensures DecksAscend(Next(s, p, c).value)
  {
    if p.Of? {
      StepIsLocal(s, p.id, c);
      if s.players[p.id].pc.Draw? {
        DrawAscends(s, p.id, c);
      } else {
        DeckStays(s, p.id, c);
      }
    }
  }

  /** In every run the cards a player has not drawn lie in ascending order, so the roll says which of them by rank comes next. */
  lemma {:induction false} UndrawnAscend(s: State, turns: seq<Turn>)
    requires Init(s)
    ensures DecksAscend(Run(s, turns))
  {
    if turns != [] {
      var front, last := turns[..|turns| - 1], turns[|turns| - 1];
      UndrawnAscend(s, front);
      if Next(Run(s, front), last.p, last.c).Some? {
        AscendStep(Run(s, front), last.p, last.c);
      }
    }
  }
}
