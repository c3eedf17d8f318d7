/** The rendezvous: server and players stay in step, no token outlives its round, nobody gets stuck. */
module GameRounds {
  import opened Counting
  import opened Game

  /**
   Where a player stands relative to the server's round r: 0 waiting to start it, 1 past the start but its
   card not yet announced, 2 waiting for results, 3 past the results, 4 through with round r, 5 gone in an
   earlier round, 6 anywhere else.
   */
  function Stage(p: Player, r: nat): nat
  {
    match p.pc
    case WaitStart => if p.round == r then 0 else if p.round == r + 1 then 4 else 6
    case Draw => if p.round == r then 1 else 6
    case PostReady => if p.round == r then 1 else 6
    case WaitResults => if p.round == r then 2 else 6
    case Left(_) => if p.round == r then 4 else if p.round < r then 5 else 6
    case _ => if p.round == r then 3 else 6
  }

  function Num(players: seq<Player>, r: nat, k: nat): nat
  {
    if players == [] then 0
    else Num(players[..|players| - 1], r, k) + (if Stage(players[|players| - 1], r) == k then 1 else 0)
  }

  lemma {:induction false} NumUpdate(players: seq<Player>, i: nat, p: Player, r: nat, k: nat)
    requires i < |players|
    ensures Num(players[i := p], r, k) + (if Stage(players[i], r) == k then 1 else 0)
      == Num(players, r, k) + (if Stage(p, r) == k then 1 else 0)
  {
    var front := players[..|players| - 1];
    if i == |players| - 1 {
      assert players[i := p][..|players| - 1] == front;
    } else {
      assert players[i := p][..|players| - 1] == front[i := p];
      NumUpdate(front, i, p, r, k);
    }
  }

  lemma {:induction false} NumZero(players: seq<Player>, r: nat, k: nat)
    ensures Num(players, r, k) == 0 <==> forall i :: 0 <= i < |players| ==> Stage(players[i], r) != k
  {
    if players != [] {
      NumZero(players[..|players| - 1], r, k);
    }
  }

  lemma {:induction false} NumWhole(players: seq<Player>, r: nat, k: nat)
    ensures Num(players, r, k) <= |players|
  {
    if players != [] {
      NumWhole(players[..|players| - 1], r, k);
    }
  }

  // ---- the invariant ----

  /** Through the decrement of active_players. */
  predicate Discounted(p: Player) { p.pc.DropMx? || p.pc.PostLeave? || p.pc == Left(true) }

  predicate HasResigned(p: Player)
  {
    p.pc.TakeMx? || p.pc.ReadCount? || p.pc.WriteCount? || Discounted(p)
  }

  predicate HoldsMx(p: Player) { p.pc.ReadCount? || p.pc.WriteCount? || p.pc.DropMx? }

  ghost predicate PlayerOk(s: State, i: nat)
    requires Shape(s) && i < |s.players|
  {
    var p := s.players[i];
    && 1 <= p.round <= s.m && Stage(p, s.r) != 6
    && (p.pc == Left(false) ==> p.round == s.m)
    && (HoldsMx(p) <==> s.mx == Some(Of(i)))
    && (p.pc.WriteCount? ==> p.pc.seen == s.active)
  }

  /** What the semaphores hold in each phase of the server, given how many players are at stages 0 to 4. */
  predicate Tokens(sv: ServerPc, active: int, start: int, ready: int, results: int, done: int, a0: int, a1: int, a2: int, a3: int, a4: int)
  {
    match sv
    case TakeMx => start == ready == results == done == 0 && a1 == a2 == a3 == a4 == 0
    case ReadActive => start == ready == results == done == 0 && a1 == a2 == a3 == a4 == 0
    case DropMx(c) => start == ready == results == done == 0 && a1 == a2 == a3 == a4 == 0 && c == active
    case PostStart(c, k) =>
      0 <= k <= c == a0 + a1 + a2 && c > 0 && a3 == a4 == 0 && start + a1 + a2 == k && ready == a2 && results == done == 0
    case WaitCards(c, k) =>
      0 <= k <= c == a0 + a1 + a2 && c > 0 && a3 == a4 == 0 && start + a1 + a2 == c && ready + k == a2 && results == done == 0
    case Score(c) =>
      c == a2 && c > 0 && a0 == a1 == a3 == a4 == 0 && start == ready == results == done == 0
    case PostResults(c, k) =>
      0 <= k <= c == a2 + a3 + a4 && c > 0 && a0 == a1 == 0 && start == ready == 0 && results + a3 + a4 == k && done == a4
    case WaitDone(c, k) =>
      0 <= k <= c == a2 + a3 + a4 && c > 0 && a0 == a1 == 0 && start == ready == 0 && results + a3 + a4 == c && done + k == a4
    case Summary => start == ready == results == done == 0 && a0 == a1 == a2 == a3 == a4 == 0
  }

  ghost predicate Phase(s: State)
  {
    Tokens(s.server, s.active, s.start, s.ready, s.results, s.done,
           Num(s.players, s.r, 0), Num(s.players, s.r, 1), Num(s.players, s.r, 2), Num(s.players, s.r, 3), Num(s.players, s.r, 4))
  }

  ghost predicate Inv(s: State)
  {
    && Shape(s) && 1 <= s.r <= s.m + 1
    && (forall i :: 0 <= i < |s.players| ==> PlayerOk(s, i))
    && Phase(s)
    && s.active + Count(s.players, Discounted) == |s.players|
    && (s.mx == Some(Server) <==> s.server.ReadActive? || s.server.DropMx?)
    && (s.mx.Some? && s.mx.value.Of? ==> s.mx.value.id < |s.players|)
    && (s.r == s.m + 1 ==> s.server.TakeMx? || s.server.Summary?)
  }

  // ---- the round boundary ----

  /** Between rounds every player is waiting for the next round or has left, and active_players counts the waiting. */
  lemma ActiveAreWaiting(s: State)
    requires Inv(s) && s.r <= s.m && (s.server.TakeMx? || s.server.ReadActive? || s.server.DropMx?)
    ensures s.active == Num(s.players, s.r, 0)
  {
    forall i | 0 <= i < |s.players|
      ensures Stage(s.players[i], s.r) == 0 <==> !Discounted(s.players[i])
    {
      assert PlayerOk(s, i);
      StagesEmpty(s, i);
    }
    Complement(s.players, s.r);
  }

  /** At a boundary only stages 0 and 5 are occupied. */
  lemma StagesEmpty(s: State, i: nat)
    requires Inv(s) && (s.server.TakeMx? || s.server.ReadActive? || s.server.DropMx? || s.server.Summary?) && i < |s.players|
    ensures Stage(s.players[i], s.r) == 0 || Stage(s.players[i], s.r) == 5
    ensures s.server.Summary? || s.r > s.m ==> Stage(s.players[i], s.r) == 5
  {
    assert PlayerOk(s, i);
    NumZero(s.players, s.r, 0);
    NumZero(s.players, s.r, 1);
    NumZero(s.players, s.r, 2);
    NumZero(s.players, s.r, 3);
    NumZero(s.players, s.r, 4);
  }

  lemma {:induction false} Complement(players: seq<Player>, r: nat)
    requires forall i :: 0 <= i < |players| ==> (Stage(players[i], r) == 0 <==> !Discounted(players[i]))
    ensures Num(players, r, 0) + Count(players, Discounted) == |players|
  {
    if players != [] {
      var front := players[..|players| - 1];
      var last := players[|players| - 1];
      Complement(front, r);
      CountLast(front, last, Discounted);
      assert players == front + [last];
    }
  }

  // ---- preservation ----

  /** Any player is counted at its own stage. */
  lemma StageOccupied(s: State, i: nat)
    requires i < |s.players|
    ensures Num(s.players, s.r, Stage(s.players[i], s.r)) > 0
  {
    NumZero(s.players, s.r, Stage(s.players[i], s.r));
  }

  /** The stage player i reaches with its next step, and the token it takes or leaves on the way. */
  predicate Advances(s: State, i: nat, t: State)
  {
    && |t.players| == |s.players| && i < |s.players| && t.players == s.players[i := t.players[i]]
    && t.server == s.server && t.r == s.r
    && var a, b := Stage(s.players[i], s.r), Stage(t.players[i], s.r);
       || (a == b && (t.active != s.active ==> a == 3)
           && t.start == s.start && t.ready == s.ready && t.results == s.results && t.done == s.done)
       || (t.active == s.active && a == 0 && b == 1
           && t.start == s.start - 1 && t.ready == s.ready && t.results == s.results && t.done == s.done)
       || (t.active == s.active && a == 1 && b == 2
           && t.start == s.start && t.ready == s.ready + 1 && t.results == s.results && t.done == s.done)
       || (t.active == s.active && a == 2 && b == 3
           && t.start == s.start && t.ready == s.ready && t.results == s.results - 1 && t.done == s.done)
       || (t.active == s.active && a == 3 && b == 4
           && t.start == s.start && t.ready == s.ready && t.results == s.results && t.done == s.done + 1)
  }

  /** A player that finds a start token is waiting for the server's round, not for the next. */
  lemma StartIsCurrent(s: State, i: nat)
    requires Inv(s) && i < |s.players| && s.players[i].pc.WaitStart? && s.start > 0
    ensures s.players[i].round == s.r
  {
    assert PlayerOk(s, i);
    StageOccupied(s, i);
  }

  ghost predicate InStep(s: State, i: nat)
    requires Shape(s) && i < |s.players|
  {
    PlayerOk(s, i) && (s.players[i].pc.WaitStart? && s.start > 0 ==> s.players[i].round == s.r)
  }

  lemma PlayerAdvances(s: State, i: nat, c: Choice)
    requires Shape(s) && i < |s.players| && InStep(s, i) && PlayerNext(s, i, c).Some?
    ensures Advances(s, i, PlayerNext(s, i, c).value)
  {
  }

  lemma AdvancePhase(s: State, i: nat, t: State)
    requires Phase(s) && Advances(s, i, t)
    ensures Phase(t)
  {
    StageOccupied(s, i);
    NumUpdate(s.players, i, t.players[i], s.r, 0);
    NumUpdate(s.players, i, t.players[i], s.r, 1);
    NumUpdate(s.players, i, t.players[i], s.r, 2);
    NumUpdate(s.players, i, t.players[i], s.r, 3);
    NumUpdate(s.players, i, t.players[i], s.r, 4);
  }

  lemma PlayerOwn(s: State, i: nat, c: Choice)
    requires Shape(s) && i < |s.players| && InStep(s, i) && PlayerNext(s, i, c).Some?
    ensures Shape(PlayerNext(s, i, c).value) && |PlayerNext(s, i, c).value.players| == |s.players|
    ensures PlayerOk(PlayerNext(s, i, c).value, i)
  {
  }

  /** What a player's step may do to the mutex and the count: only as the holder, or to become it. */
  predicate Touches(s: State, i: nat, t: State)
  {
    && Shape(t) && |t.players| == |s.players| && i < |s.players| && t.players == s.players[i := t.players[i]]
    && t.server == s.server && t.r == s.r && t.m == s.m
    && (t.mx == s.mx || (s.mx.None? && t.mx == Some(Of(i))) || (s.mx == Some(Of(i)) && t.mx.None?))
    && (t.active != s.active ==> s.mx == Some(Of(i)))
    && t.active + (if Discounted(t.players[i]) then 1 else 0) == s.active + (if Discounted(s.players[i]) then 1 else 0)
  }

  predicate Resigning(pc: PlayerPc) { pc.TakeMx? || pc.ReadCount? || pc.WriteCount? || pc.DropMx? || pc.PostLeave? }

  lemma ResignerTouches(s: State, i: nat, c: Choice)
    requires Shape(s) && i < |s.players| && PlayerOk(s, i) && Resigning(s.players[i].pc) && PlayerNext(s, i, c).Some?
    ensures Touches(s, i, PlayerNext(s, i, c).value)
  {
  }

  lemma PlayerTouches(s: State, i: nat, c: Choice)
    requires Shape(s) && i < |s.players| && PlayerOk(s, i) && PlayerNext(s, i, c).Some?
    ensures Touches(s, i, PlayerNext(s, i, c).value)
  {
    if Resigning(s.players[i].pc) {
      ResignerTouches(s, i, c);
    }
  }

  lemma OtherOk(s: State, i: nat, t: State, j: nat)
    requires Inv(s) && Touches(s, i, t) && j < |s.players| && i != j
    ensures PlayerOk(t, j)
  {
    assert PlayerOk(s, i) && PlayerOk(s, j);
  }

  lemma CountOk(s: State, i: nat, t: State)
    requires Inv(s) && Touches(s, i, t)
    ensures t.active + Count(t.players, Discounted) == |t.players|
    ensures t.mx == Some(Server) <==> t.server.ReadActive? || t.server.DropMx?
    ensures t.mx.Some? && t.mx.value.Of? ==> t.mx.value.id < |t.players|
  {
    CountUpdate(s.players, i, t.players[i], Discounted);
  }

  lemma PlayerStep(s: State, i: nat, c: Choice)
    requires Inv(s) && i < |s.players| && PlayerNext(s, i, c).Some?
    ensures Inv(PlayerNext(s, i, c).value)
  {
    var t := PlayerNext(s, i, c).value;
    assert PlayerOk(s, i);
    if s.players[i].pc.WaitStart? && s.start > 0 {
      StartIsCurrent(s, i);
    }
    PlayerAdvances(s, i, c);
    AdvancePhase(s, i, t);
    PlayerTouches(s, i, c);
    CountOk(s, i, t);
    PlayerOwn(s, i, c);
    forall j | 0 <= j < |t.players|
      ensures PlayerOk(t, j)
    {
      if j != i {
        OtherOk(s, i, t, j);
      }
    }
  }

  /** When all are through with round r, it is the next round's boundary. */
  lemma NextRound(s: State, t: State)
    requires Inv(s) && s.server.WaitDone? && s.server.k >= s.server.c && ServerNext(s) == Some(t)
    ensures Inv(t)
  {
    NumZero(s.players, s.r, 0);
    NumZero(s.players, s.r, 1);
    NumZero(s.players, s.r, 2);
    NumZero(s.players, s.r, 3);
    forall i | 0 <= i < |t.players|
      ensures PlayerOk(t, i) && (Stage(t.players[i], t.r) == 0 || Stage(t.players[i], t.r) == 5)
    {
      assert PlayerOk(s, i);
    }
    NumZero(t.players, t.r, 1);
    NumZero(t.players, t.r, 2);
    NumZero(t.players, t.r, 3);
    NumZero(t.players, t.r, 4);
  }

  /** One post or wait of the server keeps the balance, whatever the stage counts are. */
  lemma ServerTokens(s: State, a0: nat, a1: nat, a2: nat, a3: nat, a4: nat)
    requires Shape(s) && ServerNext(s).Some? && !s.server.TakeMx? && !s.server.DropMx?
    requires s.server.WaitDone? ==> s.server.k < s.server.c
    requires Tokens(s.server, s.active, s.start, s.ready, s.results, s.done, a0, a1, a2, a3, a4)
    ensures var t := ServerNext(s).value;
      Tokens(t.server, t.active, t.start, t.ready, t.results, t.done, a0, a1, a2, a3, a4)
  {
  }

  lemma ServerPhase(s: State)
    requires Phase(s) && Shape(s) && ServerNext(s).Some? && !s.server.TakeMx? && !s.server.DropMx?
    requires s.server.WaitDone? ==> s.server.k < s.server.c
    ensures var t := ServerNext(s).value; Shape(t) && t.players == s.players && t.r == s.r && t.active == s.active && t.mx == s.mx && t.m == s.m
    ensures Phase(ServerNext(s).value)
  {
    ServerTokens(s, Num(s.players, s.r, 0), Num(s.players, s.r, 1), Num(s.players, s.r, 2), Num(s.players, s.r, 3), Num(s.players, s.r, 4));
  }

  /** Within a round the players stand still while the server posts or waits once. */
  lemma ServerWithin(s: State)
    requires Inv(s) && ServerNext(s).Some? && !s.server.TakeMx? && !s.server.DropMx?
    requires s.server.WaitDone? ==> s.server.k < s.server.c
    ensures Inv(ServerNext(s).value)
  {
    var t := ServerNext(s).value;
    ServerPhase(s);
    forall i | 0 <= i < |t.players|
      ensures PlayerOk(t, i)
    {
      assert PlayerOk(s, i);
    }
  }

  /** The server's look at active_players, and the end of its loop. */
  lemma ServerBoundary(s: State)
    requires Inv(s) && ServerNext(s).Some? && (s.server.TakeMx? || s.server.DropMx?)
    ensures Inv(ServerNext(s).value)
  {
    var t := ServerNext(s).value;
    forall i | 0 <= i < |t.players|
      ensures PlayerOk(t, i)
    {
      assert PlayerOk(s, i);
    }
    if s.server.DropMx? {
      ActiveAreWaiting(s);
    } else if s.r > s.m {
      forall i | 0 <= i < |s.players|
        ensures Stage(s.players[i], s.r) != 0
      {
        StagesEmpty(s, i);
      }
      NumZero(s.players, s.r, 0);
    }
  }

  lemma ServerStep(s: State)
    requires Inv(s) && ServerNext(s).Some?
    ensures Inv(ServerNext(s).value)
  {
    if s.server.WaitDone? && s.server.k >= s.server.c {
      NextRound(s, ServerNext(s).value);
    } else if s.server.TakeMx? || s.server.DropMx? {
      ServerBoundary(s);
    } else {
      ServerWithin(s);
    }
  }

  lemma InitInv(s: State)
    requires Init(s)
    ensures Inv(s)
  {
    NumZero(s.players, 1, 1);
    NumZero(s.players, 1, 2);
    NumZero(s.players, 1, 3);
    NumZero(s.players, 1, 4);
    CountNone(s.players, Discounted);
    forall i | 0 <= i < |s.players|
      ensures PlayerOk(s, i)
    {
    }
  }

  lemma {:induction false} RunInv(s: State, turns: seq<Turn>)
    requires Init(s)
    ensures Inv(Run(s, turns))
  {
    if turns == [] {
      InitInv(s);
    } else {
      RunInv(s, turns[..|turns| - 1]);
      var u := Run(s, turns[..|turns| - 1]);
      var last := turns[|turns| - 1];
      if Next(u, last.p, last.c).Some? {
        match last.p
        case Of(i) => PlayerStep(u, i, last.c);
        case Server => ServerStep(u);
      }
    }
  }

  // ---- what follows ----

  /** No semaphore token survives a round boundary, and active_players is the number of players still in the game. */
  lemma CleanBoundary(s: State, turns: seq<Turn>)
    requires Init(s) && Run(s, turns).server.TakeMx? && Run(s, turns).r <= s.m
    ensures var t := Run(s, turns);
      && t.start == t.ready == t.results == t.done == 0
      && t.active == Num(t.players, t.r, 0)
      && (forall i :: 0 <= i < |t.players| ==>
           (t.players[i].pc.WaitStart? && t.players[i].round == t.r) || (t.players[i].pc == Left(true) && t.players[i].round < t.r))
  {
    RunInv(s, turns);
    var t := Run(s, turns);
    ActiveAreWaiting(t);
    forall i | 0 <= i < |t.players|
      ensures (t.players[i].pc.WaitStart? && t.players[i].round == t.r) || (t.players[i].pc == Left(true) && t.players[i].round < t.r)
    {
      assert PlayerOk(t, i);
      StagesEmpty(t, i);
    }
  }

  /** Every player still in the game is in the server's round, or one ahead and waiting for it to start. */
  lemma SameRound(s: State, turns: seq<Turn>, i: nat)
    requires Init(s) && i < |s.players| && !Run(s, turns).players[i].pc.Left?
    ensures var t := Run(s, turns); var p := t.players[i];
      p.round == t.r || (p.round == t.r + 1 && p.pc.WaitStart?)
  {
    RunInv(s, turns);
    assert PlayerOk(Run(s, turns), i);
  }

  /** While the server scores, every player still in the game waits for results: nobody can touch player_data. */
  lemma NobodyWritesWhileScoring(s: State, turns: seq<Turn>, i: nat, c: Choice)
    requires Init(s) && Run(s, turns).server.Score? && i < |s.players|
    ensures var t := Run(s, turns);
      && (t.players[i].pc.WaitResults? || t.players[i].pc == Left(true))
      && PlayerNext(t, i, c).None?
  {
    RunInv(s, turns);
    var t := Run(s, turns);
    assert PlayerOk(t, i);
    NumZero(t.players, t.r, 0);
    NumZero(t.players, t.r, 1);
    NumZero(t.players, t.r, 3);
    NumZero(t.players, t.r, 4);
  }

  predicate Ended(s: State) { s.server.Summary? && forall i :: 0 <= i < |s.players| ==> s.players[i].pc.Left? }

  const ANY := Choice(0, false)

  /** A player of a positive stage count that can act. */
  lemma SomeoneAt(s: State, k: nat) returns (i: nat)
    requires Num(s.players, s.r, k) > 0
    ensures i < |s.players| && Stage(s.players[i], s.r) == k
  {
    NumZero(s.players, s.r, k);
    i :| i < |s.players| && Stage(s.players[i], s.r) == k;
  }

  /** The holder of the mutex can always move. */
  lemma HolderMoves(s: State)
    requires Inv(s) && s.mx.Some?
    ensures Next(s, s.mx.value, ANY).Some?
  {
    if s.mx.value.Of? {
      assert PlayerOk(s, s.mx.value.id);
    }
  }

  /** In a state that has not ended some process can move. */
  lemma SomeoneMoves(s: State) returns (p: Proc)
    requires Inv(s) && !Ended(s)
    requires forall i :: 0 <= i < |s.players| && s.players[i].pc.Draw? ==> 0 <= s.players[i].last < s.m
    ensures Next(s, p, ANY).Some?
  {
    p := Server;
    if s.mx.Some? {
      p := s.mx.value;
      HolderMoves(s);
    } else if s.server.Summary? {
      forall i | 0 <= i < |s.players|
        ensures s.players[i].pc.Left?
      {
        StagesEmpty(s, i);
      }
    } else if s.server.WaitCards? && ServerNext(s).None? {
      if Num(s.players, s.r, 1) > 0 {
        var i := SomeoneAt(s, 1);
        p := Of(i);
      } else {
        var i := SomeoneAt(s, 0);
        p := Of(i);
      }
    } else if s.server.WaitDone? && ServerNext(s).None? {
      if Num(s.players, s.r, 3) > 0 {
        var i := SomeoneAt(s, 3);
        p := Of(i);
      } else {
        var i := SomeoneAt(s, 2);
        p := Of(i);
      }
    }
  }
}
