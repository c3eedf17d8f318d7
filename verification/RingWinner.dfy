/** Who wins: without a signal somebody always does, and a player dealt one suit can. */
module RingWinner {
  import opened Counting
  import opened Ring
  import opened RingFlow
  import opened RingCards
  import opened RingCascade

  // ---- without a signal ----

  predicate Quiet(turns: seq<Turn>) { forall k :: 0 <= k < |turns| ==> !turns[k].c.interrupted }

  /** The parent has been told of a winner, or will be. */
  predicate Told(s: State)
  {
    match s.parent
    case Reap(w) => w.Some?
    case Over(w) => w.Some?
    case _ => s.shared != []
  }

  /** Nobody has left the ring but after somebody has announced itself. */
  ghost predicate LeftMeansTold(s: State)
  {
    && ((exists i :: 0 <= i < |s.players| && HasLeft(s.players[i])) ==> Told(s))
    && (s.parent.Reap? || s.parent.Over? ==> Told(s))
  }

  /** A player leaves uninterrupted only by announcing itself, or after a neighbour. */
  lemma LeavesAfter(s: State, i: nat, c: Choice)
    requires Shape(s) && i < s.N() && !c.interrupted && PlayerNext(s, i, c).Some?
    requires !HasLeft(s.players[i]) && HasLeft(PlayerNext(s, i, c).value.players[i])
    ensures s.players[i].pc.Announce? || exists k :: 0 <= k < s.N() && HasLeft(s.players[k])
  {
    if s.players[i].pc.Write? {
      assert HasLeft(s.players[s.After(i)]);
    } else if s.players[i].pc.Read? {
      assert HasLeft(s.players[s.Before(i)]);
    }
  }

  lemma PlayerTells(s: State, i: nat, c: Choice)
    requires Shape(s) && LeftMeansTold(s) && i < s.N() && !c.interrupted && PlayerNext(s, i, c).Some?
    ensures LeftMeansTold(PlayerNext(s, i, c).value)
  {
    var t := PlayerNext(s, i, c).value;
    if k :| 0 <= k < |t.players| && HasLeft(t.players[k]) {
      if !HasLeft(s.players[k]) {
        LeavesAfter(s, i, c);
      }
    }
  }

  /** While nothing has been announced somebody still may. */
  lemma SomebodyWrites(s: State)
    requires Shape(s) && LeftMeansTold(s) && s.parent.Await? && s.shared == []
    ensures SharedWriters(s)
  {
    assert !HasLeft(s.players[0]);
    assert HoldsShared(s.players[0]);
  }

  lemma ParentTells(s: State)
    requires Shape(s) && LeftMeansTold(s) && ParentNext(s).Some?
    ensures LeftMeansTold(ParentNext(s).value)
  {
    if s.parent.Await? && s.shared == [] {
      SomebodyWrites(s);
    }
  }

  lemma {:induction false} RunTells(s: State, turns: seq<Turn>)
    requires Init(s) && Quiet(turns)
    ensures LeftMeansTold(Run(s, turns))
  {
    if turns != [] {
      var u := Run(s, turns[..|turns| - 1]);
      var last := turns[|turns| - 1];
      RunTells(s, turns[..|turns| - 1]);
      if Next(u, last.p, last.c).Some? {
        match last.p
        case Parent => ParentTells(u);
        case Of(i) => PlayerTells(u, i, last.c);
      }
    }
  }

  /** In a game without a signal the parent never ends without a winner, and nobody leaves before one is announced. */
  lemma SomebodyWins(s: State, turns: seq<Turn>)
    requires Init(s) && Quiet(turns)
    ensures var t := Run(s, turns); t.parent.Over? ==> t.parent.winner.Some?
    ensures var t := Run(s, turns); forall i :: 0 <= i < t.N() && HasLeft(t.players[i]) ==> Told(t)
  {
    RunTells(s, turns);
  }

  // ---- a player dealt one suit ----

  lemma RunOne(s: State, turns: seq<Turn>, p: Proc, c: Choice) returns (more: seq<Turn>)
    requires Shape(s) && Next(Run(s, turns), p, c).Some?
    ensures Run(s, more) == Next(Run(s, turns), p, c).value
    ensures Quiet(turns) && !c.interrupted ==> Quiet(more)
  {
    more := turns + [Turn(p, c)];
    assert more[..|more| - 1] == turns;
  }

  const CALM := Choice(0, false)

  /** The deal pipes once the parent has dealt to the first k players. */
  function Shares(s: State, k: nat): (r: seq<seq<int>>)
    requires Shape(s)
    ensures |r| == s.N()
  {
    seq(s.N(), i requires 0 <= i < s.N() => if i < k then Share(s, i) else [])
  }

  lemma SharesMore(s: State, u: State, k: nat)
    requires Shape(s) && k < s.N() && u == s.(parent := Dealing(k), deal := Shares(s, k))
    ensures ParentNext(u) == Some(s.(parent := Dealing(k + 1), deal := Shares(s, k + 1)))
  {
    SameShare(s, u, k);
    assert Shares(s, k)[k] == [];
    SharesNext(s, k);
  }

  lemma SameShare(s: State, u: State, k: nat)
    requires Shape(s) && Shape(u) && u.deck == s.deck && u.m == s.m && u.N() == s.N() && k < s.N()
    ensures Share(u, k) == Share(s, k)
  {
  }

  lemma SharesNext(s: State, k: nat)
    requires Shape(s) && k < s.N()
    ensures Shares(s, k)[k := [] + Share(s, k)] == Shares(s, k + 1)
  {
    var now, next := Shares(s, k)[k := [] + Share(s, k)], Shares(s, k + 1);
    forall i | 0 <= i < s.N()
      ensures now[i] == next[i]
    {
    }
  }

  /** The parent deals; nobody else moves. */
  lemma {:induction false} Deals(s: State, k: nat) returns (turns: seq<Turn>)
    requires Init(s) && k <= s.N()
    ensures Quiet(turns) && Run(s, turns) == s.(parent := Dealing(k), deal := Shares(s, k))
  {
    if k == 0 {
      assert Run(s, []) == s;
      turns := RunOne(s, [], Parent, CALM);
      assert s.deal == Shares(s, 0);
    } else {
      var front := Deals(s, k - 1);
      SharesMore(s, Run(s, front), k - 1);
      turns := RunOne(s, front, Parent, CALM);
    }
  }

  /** Player i takes its cards and announces itself, and the parent hears of it. */
  lemma Announces(s: State, i: nat) returns (turns: seq<Turn>)
    requires Init(s) && i < s.N() && IsWinning(Share(s, i))
    ensures Quiet(turns) && Run(s, turns).parent == Reap(Some(i)) && Out(Run(s, turns).players[i])
  {
    turns := Deals(s, s.N());
    turns := RunOne(s, turns, Parent, CALM);
    turns := RunOne(s, turns, Of(i), CALM);
    turns := RunOne(s, turns, Of(i), CALM);
    assert Run(s, turns).players[i] == Player(Top, Share(s, i), None, 0);
    turns := RunOne(s, turns, Of(i), CALM);
    turns := RunOne(s, turns, Of(i), CALM);
    assert Run(s, turns).shared == [i];
    turns := RunOne(s, turns, Parent, CALM);
  }

  /** The winner the parent has read stays. */
  predicate Names(s: State, w: Option<nat>) { s.parent == Reap(w) || s.parent == Over(w) }

  lemma NamesStays(s: State, w: Option<nat>, p: Proc, c: Choice)
    requires Shape(s) && Names(s, w) && Next(s, p, c).Some?
    ensures Names(Next(s, p, c).value, w)
  {
  }

  /** Letting whoever can move do so, the ring winds down. */
  lemma {:induction false} WindsDown(s: State, turns: seq<Turn>, l: nat, w: Option<nat>) returns (more: seq<Turn>)
    requires Init(s) && Quiet(turns) && l < s.N() && Out(Run(s, turns).players[l]) && Names(Run(s, turns), w)
    ensures Quiet(more) && Ended(Run(s, more)) && Names(Run(s, more), w)
    decreases Rank(Run(s, turns), l)
  {
    var u := Run(s, turns);
    RunFlow(s, turns);
    more := turns;
    if !Ended(u) {
      RingFlow.SomeoneMoves(u);
      var p :| !Blocked(u, p);
      var discard :| Next(u, p, Choice(discard, false)).Some?;
      var c := Choice(discard, false);
      RankFalls(u, l, p, c);
      OutStays(u, l, p, c);
      NamesStays(u, w, p, c);
      var next := RunOne(s, turns, p, c);
      RunFlow(s, next);
      RankBounds(Run(s, next), l);
      more := WindsDown(s, next, l, w);
    }
  }

  /** A player whose deal is of one suit can be the winner the parent names at the end, without any signal. */
  lemma DealtOneSuitWins(s: State, i: nat) returns (turns: seq<Turn>)
    requires Init(s) && i < s.N() && IsWinning(Share(s, i))
    ensures Quiet(turns) && Run(s, turns).parent == Over(Some(i)) && Ended(Run(s, turns))
  {
    turns := Announces(s, i);
    turns := WindsDown(s, turns, i, Some(i));
  }

  // ---- the signal ----

  /** Whether player p is in the middle of an exchange. */
  function Exchanging(p: Player): nat { if p.pc.Write? || p.pc.Read? then 1 else 0 }

  /** No turn of player i finds keep_running still set. */
  predicate Interrupted(turns: seq<Turn>, i: nat)
  {
    forall k :: 0 <= k < |turns| && turns[k].p == Of(i) ==> turns[k].c.interrupted
  }

  lemma InterruptedStep(s: State, i: nat, p: Proc, c: Choice)
    requires Shape(s) && i < s.N() && (p == Of(i) ==> c.interrupted) && Next(s, p, c).Some?
    ensures var q, r := s.players[i], Next(s, p, c).value.players[i];
      && r.rounds + Exchanging(r) <= q.rounds + Exchanging(q) && (r.pc.Announce? ==> q.pc.Announce?)
  {
  }

  /** A player that gets SIGINT finishes the exchange it is in, begins no other and announces nothing. */
  lemma {:induction false} StopsAfterSignal(s: State, i: nat, more: seq<Turn>)
    requires Shape(s) && i < s.N() && Interrupted(more, i)
    ensures var q, r := s.players[i], Run(s, more).players[i];
      && r.rounds + Exchanging(r) <= q.rounds + Exchanging(q) && (r.pc.Announce? ==> q.pc.Announce?)
  {
    if more != [] {
      var front, last := more[..|more| - 1], more[|more| - 1];
      StopsAfterSignal(s, i, front);
      if Next(Run(s, front), last.p, last.c).Some? {
        InterruptedStep(Run(s, front), i, last.p, last.c);
      }
    }
  }

  // ---- the pipes keep the order ----

  /** The card player i has passed on in this step, if it has: its hand has a hole that it had not before. */
  function PassedNow(s: State, t: State, i: nat): seq<int>
    requires i < s.N() && i < t.N()
  {
    var q, r := s.players[i], t.players[i];
    if q.hole.None? && r.hole.Some? && r.hole.value < |r.hand| then [r.hand[r.hole.value]] else []
  }

  /** The card player i has taken in in this step, if it has: it has completed a round. */
  function TakenNow(s: State, t: State, i: nat): seq<int>
    requires i < s.N() && i < t.N()
  {
    var q, r := s.players[i], t.players[i];
    if r.rounds > q.rounds && q.hole.Some? && q.hole.value < |r.hand| then [r.hand[q.hole.value]] else []
  }

  function Passed(s: State, turns: seq<Turn>, i: nat): seq<int>
    requires Shape(s) && i < s.N()
  {
    if turns == [] then []
    else Passed(s, turns[..|turns| - 1], i) + PassedNow(Run(s, turns[..|turns| - 1]), Run(s, turns), i)
  }

  function TakenIn(s: State, turns: seq<Turn>, i: nat): seq<int>
    requires Shape(s) && i < s.N()
  {
    if turns == [] then []
    else TakenIn(s, turns[..|turns| - 1], i) + TakenNow(Run(s, turns[..|turns| - 1]), Run(s, turns), i)
  }

  lemma StepAtWriter(s: State, c: Choice, i: nat)
    requires FlowInv(s) && i < s.N() && PlayerNext(s, i, c).Some?
    ensures var t := PlayerNext(s, i, c).value; var o := s.After(i);
      && i < t.N() && o < t.N() && o < |t.ring| && s.ring[o] + PassedNow(s, t, i) == t.ring[o] && TakenNow(s, t, o) == []
  {
    assert PlayerOk(s, i);
  }

  lemma StepAtReader(s: State, c: Choice, i: nat)
    requires FlowInv(s) && i < s.N() && PlayerNext(s, s.After(i), c).Some?
    ensures var o := s.After(i); var t := PlayerNext(s, o, c).value;
      && i < t.N() && o < t.N() && o < |t.ring| && s.ring[o] == TakenNow(s, t, o) + t.ring[o] && PassedNow(s, t, i) == []
  {
    assert PlayerOk(s, s.After(i));
  }

  lemma StepElsewhere(s: State, p: Proc, c: Choice, i: nat)
    requires FlowInv(s) && i < s.N() && p != Of(i) && p != Of(s.After(i)) && Next(s, p, c).Some?
    ensures var o := s.After(i); var t := Next(s, p, c).value;
      t.ring[o] == s.ring[o] && PassedNow(s, t, i) == [] && TakenNow(s, t, o) == []
  {
  }

  /** What one step does to the pipe between player i and its right neighbour. */
  lemma PipeStep(s: State, p: Proc, c: Choice, i: nat)
    requires FlowInv(s) && i < s.N() && Next(s, p, c).Some?
    ensures var t := Next(s, p, c).value; var o := s.After(i);
      s.ring[o] + PassedNow(s, t, i) == TakenNow(s, t, o) + t.ring[o]
  {
    if p == Of(i) {
      StepAtWriter(s, c, i);
    } else if p == Of(s.After(i)) {
      StepAtReader(s, c, i);
    } else {
      StepElsewhere(s, p, c, i);
    }
  }

  lemma Regroup(a: seq<int>, b: seq<int>, p: seq<int>, x: seq<int>, y: seq<int>)
    requires b + p == x + y
    ensures (a + b) + p == (a + x) + y
  {
    assert (a + b) + p == a + (b + p);
    assert (a + x) + y == a + (x + y);
  }

  lemma StepOrStay(u: State, p: Proc, c: Choice, i: nat)
    requires FlowInv(u) && i < u.N()
    ensures var t := match Next(u, p, c) case None => u case Some(t) => t; var o := u.After(i);
      u.ring[o] + PassedNow(u, t, i) == TakenNow(u, t, o) + t.ring[o]
  {
    if Next(u, p, c).Some? {
      PipeStep(u, p, c, i);
    } else {
      assert PassedNow(u, u, i) == [] && TakenNow(u, u, u.After(i)) == [];
    }
  }

  lemma OrderStep(s: State, turns: seq<Turn>, i: nat)
    requires Init(s) && i < s.N() && turns != []
    ensures var u, t := Run(s, turns[..|turns| - 1]), Run(s, turns); var o := s.After(i);
      u.ring[o] + PassedNow(u, t, i) == TakenNow(u, t, o) + t.ring[o]
  {
    var front, last := turns[..|turns| - 1], turns[|turns| - 1];
    RunFlow(s, front);
    StepOrStay(Run(s, front), last.p, last.c, i);
  }

  /** In every run the cards a player has taken in, with those in its pipe, are those its left neighbour has passed on, in order. */
  lemma {:induction false} PipesKeepOrder(s: State, turns: seq<Turn>, i: nat)
    requires Init(s) && i < s.N()
    ensures var t := Run(s, turns); var o := s.After(i);
      Passed(s, turns, i) == TakenIn(s, turns, o) + t.ring[o]
  {
    if turns != [] {
      var front := turns[..|turns| - 1];
      var u, t, o := Run(s, front), Run(s, turns), s.After(i);
      PipesKeepOrder(s, front, i);
      OrderStep(s, turns, i);
      Regroup(TakenIn(s, front, o), u.ring[o], PassedNow(u, t, i), TakenNow(u, t, o), t.ring[o]);
    }
  }

  // ---- first come, first named ----

  /** The players that have announced themselves, in order. */
  function Announcers(s: State, turns: seq<Turn>): seq<nat>
    requires Shape(s)
  {
    if turns == [] then []
    else
      var u, last := Run(s, turns[..|turns| - 1]), turns[|turns| - 1];
      Announcers(s, turns[..|turns| - 1])
      + (if last.p.Of? && last.p.id < u.N() && u.players[last.p.id].pc.Announce? then [last.p.id] else [])
  }

  /** What the parent has read from the shared pipe. */
  function Named(s: State): seq<nat>
  {
    match s.parent
    case Reap(w) => if w.Some? then [w.value] else []
    case Over(w) => if w.Some? then [w.value] else []
    case _ => []
  }

  lemma NamedStep(u: State, p: Proc, c: Choice)
    requires Shape(u)
    ensures var t := match Next(u, p, c) case None => u case Some(t) => t;
      Named(t) + t.shared
      == Named(u) + u.shared + (if p.Of? && p.id < u.N() && u.players[p.id].pc.Announce? then [p.id] else [])
  {
  }

  /** In every run the winner the parent names is the first to have announced itself; the others' messages are never read. */
  lemma {:induction false} WinnerIsFirst(s: State, turns: seq<Turn>)
    requires Init(s)
    ensures Announcers(s, turns) == Named(Run(s, turns)) + Run(s, turns).shared
  {
    if turns != [] {
      var last := turns[|turns| - 1];
      WinnerIsFirst(s, turns[..|turns| - 1]);
      NamedStep(Run(s, turns[..|turns| - 1]), last.p, last.c);
    }
  }

  // ---- the parent ends last, and the rule for passing cards leaves nothing out ----

  /** In every run the parent has ended only if all players have. */
  lemma {:induction false} ParentEndsLast(s: State, turns: seq<Turn>)
    requires Init(s) && Run(s, turns).parent.Over?
    ensures forall i :: 0 <= i < Run(s, turns).N() ==> Run(s, turns).players[i].pc.Gone?
  {
    if turns != [] {
      var front, last := turns[..|turns| - 1], turns[|turns| - 1];
      var u := Run(s, front);
      if u.parent.Over? {
        ParentEndsLast(s, front);
      }
    }
  }

  /** Cards of the suit in the hand once card has come in for card d. */
  function CountWith(hand: seq<int>, d: nat, card: int, suit: int): nat
    requires d < |hand|
  {
    SuitCount(hand[d := card], suit)
  }

  /** Without card d, whatever comes in for it, there are as many of the suit as before. */
  ghost predicate Keeps(hand: seq<int>, d: nat, suit: int)
    requires d < |hand|
  {
    forall card: int :: CountWith(hand, d, card, suit) >= SuitCount(hand, suit)
  }

  lemma OnlyOthersKeep(hand: seq<int>, d: nat, suit: int)
    requires d < |hand|
    ensures Keeps(hand, d, suit) <==> Suit(hand[d]) != suit
  {
    forall card: int
      ensures CountWith(hand, d, card, suit) >= SuitCount(hand, suit) <==> Suit(hand[d]) != suit || Suit(card) == suit
    {
      SuitCountUpdate(hand, d, card, suit);
    }
    assert Keeps(hand, d, suit) ==> CountWith(hand, d, suit + 1, suit) >= SuitCount(hand, suit);
  }

  lemma DiscardIsOther(hand: seq<int>, d: nat)
    requires !IsWinning(hand) && d < |hand|
    ensures MayDiscard(hand, d) <==> Suit(hand[d]) != Best(hand)
  {
  }

  /** A player without a winning hand can pass exactly the cards whose loss costs it none of its best suit, whatever comes in. */
  lemma PassesExactly(s: State, i: nat, d: nat)
    requires Shape(s) && i < s.N() && s.players[i].pc.Top? && !IsWinning(s.players[i].hand) && d < |s.players[i].hand|
    ensures (PlayerNext(s, i, Choice(d, false)).Some? && PlayerNext(s, i, Choice(d, false)).value.players[i].pc == Write(d))
      <==> Keeps(s.players[i].hand, d, Best(s.players[i].hand))
  {
    OnlyOthersKeep(s.players[i].hand, d, Best(s.players[i].hand));
    DiscardIsOther(s.players[i].hand, d);
  }
}
