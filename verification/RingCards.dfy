/** No card is lost or duplicated in the ring, and a winner really has a single suit. */
module RingCards {
  import opened Counting
  import opened Permutations
  import opened Ring
  import opened RingFlow

  /** How often a card occurs in a list of sequences. */
  function Copies(xs: seq<seq<int>>, card: int): nat
  {
    if xs == [] then 0 else multiset(xs[0])[card] + Copies(xs[1..], card)
  }

  lemma {:induction false} CopiesUpdate(xs: seq<seq<int>>, i: nat, x: seq<int>, card: int)
    requires i < |xs|
    ensures Copies(xs[i := x], card) + multiset(xs[i])[card] == Copies(xs, card) + multiset(x)[card]
  {
    if i == 0 {
      assert xs[i := x][1..] == xs[1..];
    } else {
      assert xs[i := x][1..] == xs[1..][i - 1 := x];
      CopiesUpdate(xs[1..], i - 1, x, card);
    }
  }

  lemma {:induction false} NoCopies(xs: seq<seq<int>>, card: int)
    requires forall i :: 0 <= i < |xs| ==> xs[i] == []
    ensures Copies(xs, card) == 0
  {
    if xs != [] {
      NoCopies(xs[1..], card);
    }
  }

  /** The cards a player really has: its array minus the stale slot between its write and its read. */
  function Kept(p: Player): seq<int>
  {
    if p.hole.Some? && p.hole.value < |p.hand| then Omit(p.hand, p.hole.value) else p.hand
  }

  function Hands(players: seq<Player>): seq<seq<int>>
  {
    seq(|players|, i requires 0 <= i < |players| => Kept(players[i]))
  }

  lemma RestFits(n: nat, m: nat, i: nat)
    requires i <= n
    ensures i * m <= n * m
  {
  }

  function Undealt(s: State): seq<int>
    requires Shape(s)
  {
    match s.parent
    case CloseEnds => s.deck[..s.N() * s.m]
    case Dealing(i) => RestFits(s.N(), s.m, i); s.deck[i * s.m..s.N() * s.m]
    case _ => []
  }

  /** How often a card occurs in the whole game: in hands, in ring pipes, in deal pipes, or not yet dealt. */
  function InPlay(s: State, card: int): nat
    requires Shape(s)
  {
    Copies(Hands(s.players), card) + Copies(s.ring, card) + Copies(s.deal, card) + multiset(Undealt(s))[card]
  }

  lemma HandsUpdate(players: seq<Player>, i: nat, q: Player, card: int)
    requires i < |players|
    ensures Copies(Hands(players[i := q]), card) + multiset(Kept(players[i]))[card]
      == Copies(Hands(players), card) + multiset(Kept(q))[card]
  {
    assert Hands(players[i := q]) == Hands(players)[i := Kept(q)];
    CopiesUpdate(Hands(players), i, Kept(q), card);
  }

  lemma QuietStep(p: Player, c: Choice, inq: seq<int>, writers: bool, outq: seq<int>, readers: bool, cap: nat)
    requires PlayerStep(p, c, inq, writers, outq, readers, cap).Some?
    requires !(p.pc.Write? && readers) && !(p.pc.Read? && inq != [])
    ensures var (q, inq', outq') := PlayerStep(p, c, inq, writers, outq, readers, cap).value;
      q.hand == p.hand && q.hole == p.hole && inq' == inq && outq' == outq
  {
  }

  lemma WriteStep(p: Player, c: Choice, inq: seq<int>, writers: bool, outq: seq<int>, readers: bool, cap: nat, card: int)
    requires PcOk(p) && p.pc.Write? && readers && PlayerStep(p, c, inq, writers, outq, readers, cap).Some?
    ensures var (q, inq', outq') := PlayerStep(p, c, inq, writers, outq, readers, cap).value;
      multiset(Kept(q))[card] + multiset(inq')[card] + multiset(outq')[card]
      == multiset(Kept(p))[card] + multiset(inq)[card] + multiset(outq)[card]
  {
    WriteMoves(p.hand, p.pc.idx, outq, card);
  }

  lemma ReadStep(p: Player, c: Choice, inq: seq<int>, writers: bool, outq: seq<int>, readers: bool, cap: nat, card: int)
    requires PcOk(p) && p.pc.Read? && inq != [] && PlayerStep(p, c, inq, writers, outq, readers, cap).Some?
    ensures var (q, inq', outq') := PlayerStep(p, c, inq, writers, outq, readers, cap).value;
      multiset(Kept(q))[card] + multiset(inq')[card] + multiset(outq')[card]
      == multiset(Kept(p))[card] + multiset(inq)[card] + multiset(outq)[card]
  {
    ReadMoves(p.hand, p.pc.idx, inq, card);
  }

  /** Writing takes the card out of the hand and puts it in the pipe; reading is the reverse. */
  lemma StepMovesCards(p: Player, c: Choice, inq: seq<int>, writers: bool, outq: seq<int>, readers: bool, cap: nat, card: int)
    requires PcOk(p) && PlayerStep(p, c, inq, writers, outq, readers, cap).Some?
    ensures var (q, inq', outq') := PlayerStep(p, c, inq, writers, outq, readers, cap).value;
      multiset(Kept(q))[card] + multiset(inq')[card] + multiset(outq')[card]
      == multiset(Kept(p))[card] + multiset(inq)[card] + multiset(outq)[card]
  {
    if p.pc.Write? && readers {
      WriteStep(p, c, inq, writers, outq, readers, cap, card);
    } else if p.pc.Read? && inq != [] {
      ReadStep(p, c, inq, writers, outq, readers, cap, card);
    } else {
      QuietStep(p, c, inq, writers, outq, readers, cap);
    }
  }

  function Omit(hand: seq<int>, idx: nat): seq<int>
    requires idx < |hand|
  {
    hand[..idx] + hand[idx + 1..]
  }

  lemma WriteMoves(hand: seq<int>, idx: nat, outq: seq<int>, card: int)
    requires idx < |hand|
    ensures multiset(Omit(hand, idx))[card] + multiset(outq + [hand[idx]])[card] == multiset(hand)[card] + multiset(outq)[card]
  {
    TakeOut(hand, idx, card);
  }

  lemma ReadMoves(hand: seq<int>, idx: nat, inq: seq<int>, card: int)
    requires idx < |hand| && inq != []
    ensures multiset(hand[idx := inq[0]])[card] + multiset(inq[1..])[card] == multiset(Omit(hand, idx))[card] + multiset(inq)[card]
  {
    TakeOut(hand[idx := inq[0]], idx, card);
    assert Omit(hand[idx := inq[0]], idx) == Omit(hand, idx);
    TakeOut(inq, 0, card);
    assert Omit(inq, 0) == inq[1..];
  }

  lemma TakeOut(hand: seq<int>, idx: nat, card: int)
    requires idx < |hand|
    ensures multiset(hand)[card] == multiset(Omit(hand, idx))[card] + (if hand[idx] == card then 1 else 0)
  {
    assert hand == hand[..idx] + [hand[idx]] + hand[idx + 1..];
  }

  lemma LoopCards(s: State, i: nat, c: Choice, card: int)
    requires FlowInv(s) && i < s.N() && InLoop(s.players[i].pc) && PlayerNext(s, i, c).Some?
    ensures InPlay(PlayerNext(s, i, c).value, card) == InPlay(s, card)
  {
    var p := s.players[i];
    var o := s.After(i);
    assert PlayerOk(s, i);
    StepMovesCards(p, c, s.ring[i], WritersLeft(s, i), s.ring[o], ReadersLeft(s, o), s.cap, card);
    var (q, inq, outq) := PlayerStep(p, c, s.ring[i], WritersLeft(s, i), s.ring[o], ReadersLeft(s, o), s.cap).value;
    HandsUpdate(s.players, i, q, card);
    CopiesUpdate(s.ring, i, inq, card);
    CopiesUpdate(s.ring[i := inq], o, outq, card);
  }

  lemma EntryCards(s: State, i: nat, c: Choice, card: int)
    requires FlowInv(s) && i < s.N() && !InLoop(s.players[i].pc) && PlayerNext(s, i, c).Some?
    ensures InPlay(PlayerNext(s, i, c).value, card) == InPlay(s, card)
  {
    var t := PlayerNext(s, i, c).value;
    assert PlayerOk(s, i);
    HandsUpdate(s.players, i, t.players[i], card);
    CopiesUpdate(s.deal, i, [], card);
  }

  lemma ParentCards(s: State, card: int)
    requires FlowInv(s) && ParentNext(s).Some?
    ensures InPlay(ParentNext(s).value, card) == InPlay(s, card)
  {
    var t := ParentNext(s).value;
    if s.parent.Dealing? && s.parent.i < s.N() {
      var i := s.parent.i;
      CopiesUpdate(s.deal, i, s.deal[i] + Share(s, i), card);
      UndealtShrinks(s);
    } else if s.parent.CloseEnds? {
      assert Undealt(t) == Undealt(s);
    }
  }

  lemma UndealtShrinks(s: State)
    requires Shape(s) && s.parent.Dealing? && s.parent.i < s.N()
    ensures Undealt(s) == Share(s, s.parent.i) + Undealt(s.(parent := Dealing(s.parent.i + 1)))
  {
    var i := s.parent.i;
    ShareFits(s.N(), s.m, i);
    RestFits(s.N(), s.m, i + 1);
    assert (i + 1) * s.m == i * s.m + s.m;
  }

  lemma CardsStep(s: State, p: Proc, c: Choice, card: int)
    requires FlowInv(s) && Next(s, p, c).Some?
    ensures InPlay(Next(s, p, c).value, card) == InPlay(s, card)
  {
    match p
    case Parent => ParentCards(s, card);
    case Of(i) =>
      if InLoop(s.players[i].pc) {
        LoopCards(s, i, c, card);
      } else {
        EntryCards(s, i, c, card);
      }
  }

  lemma InitCards(s: State, card: int)
    requires Init(s)
    ensures InPlay(s, card) == multiset(s.deck[..s.N() * s.m])[card]
  {
    NoCopies(Hands(s.players), card);
    NoCopies(s.ring, card);
    NoCopies(s.deal, card);
  }

  /** In every reachable state the cards in hands and pipes are exactly the n m cards dealt. */
  lemma {:induction false} CardsConserved(s: State, turns: seq<Turn>, card: int)
    requires Init(s)
    ensures InPlay(Run(s, turns), card) == multiset(s.deck[..s.N() * s.m])[card]
  {
    if turns == [] {
      InitCards(s, card);
    } else {
      CardsConserved(s, turns[..|turns| - 1], card);
      RunFlow(s, turns[..|turns| - 1]);
      var u := Run(s, turns[..|turns| - 1]);
      var last := turns[|turns| - 1];
      if Next(u, last.p, last.c).Some? {
        CardsStep(u, last.p, last.c, card);
      }
    }
  }

  /** From a deck without repetition no card is ever in two places. */
  lemma NoCardTwice(s: State, turns: seq<Turn>, card: int)
    requires Init(s) && Permutation(s.deck)
    ensures InPlay(Run(s, turns), card) <= 1
  {
    CardsConserved(s, turns, card);
    OnceInMultiset(s.deck[..s.N() * s.m], card);
  }

  // ---- winners ----

  predicate HasLeft(p: Player) { p.pc.CloseRead? || p.pc.CloseWrite? || p.pc.CloseShared? || p.pc.Gone? }

  /** A player that announced itself has left with a full hand of one suit. */
  ghost predicate Won(s: State, w: nat)
  {
    w < s.N() && HasLeft(s.players[w]) && IsWinning(s.players[w].hand) && s.players[w].hole.None?
  }

  predicate Announced(s: State, w: nat)
  {
    || w in s.shared
    || (s.parent.Reap? && s.parent.winner == Some(w))
    || (s.parent.Over? && s.parent.winner == Some(w))
  }

  ghost predicate WinInv(s: State)
  {
    && (forall i :: 0 <= i < s.N() && s.players[i].pc.Announce? ==> IsWinning(s.players[i].hand))
    && (forall w: nat :: Announced(s, w) ==> Won(s, w))
  }

  lemma WinStep(s: State, p: Proc, c: Choice)
    requires FlowInv(s) && WinInv(s) && Next(s, p, c).Some?
    ensures WinInv(Next(s, p, c).value)
  {
    var t := Next(s, p, c).value;
    if p.Of? {
      assert PlayerOk(s, p.id);
    }
    forall w: nat | Announced(t, w)
      ensures Won(t, w)
    {
      if Announced(s, w) {
        assert Won(s, w);
      }
    }
  }

  lemma {:induction false} RunWin(s: State, turns: seq<Turn>)
    requires Init(s)
    ensures WinInv(Run(s, turns))
  {
    if turns != [] {
      RunWin(s, turns[..|turns| - 1]);
      RunFlow(s, turns[..|turns| - 1]);
      var u := Run(s, turns[..|turns| - 1]);
      var last := turns[|turns| - 1];
      if Next(u, last.p, last.c).Some? {
        WinStep(u, last.p, last.c);
      }
    }
  }

  /** The winner the parent prints holds m cards of one suit. */
  lemma WinnerHasOneSuit(s: State, turns: seq<Turn>, w: nat)
    requires Init(s)
    requires Run(s, turns).parent == Reap(Some(w)) || Run(s, turns).parent == Over(Some(w))
    ensures var t := Run(s, turns);
      w < t.N() && |t.players[w].hand| == t.m && Kept(t.players[w]) == t.players[w].hand && IsWinning(t.players[w].hand)
  {
    RunWin(s, turns);
    RunFlow(s, turns);
    var t := Run(s, turns);
    assert Announced(t, w) && Won(t, w) && PlayerOk(t, w);
  }

  // ---- the discard rule ----

  /** Passing a card by the rule and taking any other in never lowers the count of the best suit. */
  lemma ExchangeKeepsBest(hand: seq<int>, i: nat, card: int)
    requires MayDiscard(hand, i) && !IsWinning(hand)
    ensures SuitCount(hand[i := card], Best(hand[i := card])) >= SuitCount(hand, Best(hand))
  {
    var best := Best(hand);
    assert Suit(hand[i]) != best;
    SuitCountUpdate(hand, i, card, best);
  }

  lemma {:induction false} SuitCountUpdate(hand: seq<int>, i: nat, card: int, suit: int)
    requires i < |hand|
    ensures SuitCount(hand[i := card], suit) + (if Suit(hand[i]) == suit then 1 else 0)
      == SuitCount(hand, suit) + (if Suit(card) == suit then 1 else 0)
  {
    var now := hand[i := card];
    if i == |hand| - 1 {
      assert now[..|now| - 1] == hand[..|hand| - 1];
    } else {
      assert now[..|now| - 1] == hand[..|hand| - 1][i := card];
      SuitCountUpdate(hand[..|hand| - 1], i, card, suit);
    }
  }

  /** A hand wins exactly when all its cards are of its best suit. */
  lemma {:induction false} WinningMeansFull(hand: seq<int>, suit: int)
    ensures SuitCount(hand, suit) <= |hand|
    ensures SuitCount(hand, suit) == |hand| <==> forall i :: 0 <= i < |hand| ==> Suit(hand[i]) == suit
  {
    if hand != [] {
      var front := hand[..|hand| - 1];
      WinningMeansFull(front, suit);
      assert forall i :: 0 <= i < |front| ==> front[i] == hand[i];
    }
  }
}
