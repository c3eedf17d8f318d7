/** Once any player leaves, the whole ring winds down: nobody gets more than its distance further. */
module RingCascade {
  import opened Counting
  import opened Ring
  import opened RingFlow

  /** A player that will never write or read a card again. */
  predicate Out(p: Player)
  {
    p.pc.Announce? || p.pc.CloseRead? || p.pc.CloseWrite? || p.pc.CloseShared? || p.pc.Gone?
  }

  function Distance(n: nat, from: nat, to: nat): int { if to >= from then to - from else to + n - from }

  /** Rounds player i can still complete once player l is out. */
  function Budget(s: State, l: nat, i: nat): int
    requires l < s.N() && i < s.N()
  {
    s.players[l].rounds + Distance(s.N(), l, i) - s.players[i].rounds
  }

  /** Steps player i can still take. */
  function PlayerRank(s: State, l: nat, i: nat): int
    requires l < s.N() && i < s.N()
  {
    match s.players[i].pc
    case Start => 3 * Budget(s, l, i) + 8
    case TakeDeal => 3 * Budget(s, l, i) + 7
    case Top => 3 * Budget(s, l, i) + 6
    case Write(_) => 3 * Budget(s, l, i) + 5
    case Read(_) => 3 * Budget(s, l, i) + 4
    case Announce => 4
    case CloseRead => 3
    case CloseWrite => 2
    case CloseShared => 1
    case Gone => 0
  }

  function ParentRank(s: State): int
  {
    match s.parent
    case CloseEnds => s.N() + 4
    case Dealing(i) => s.N() - i + 3
    case Await => 2
    case Reap(_) => 1
    case Over(_) => 0
  }

  function Ranks(s: State, l: nat): seq<int>
    requires l < s.N()
  {
    seq(s.N(), i requires 0 <= i < s.N() => PlayerRank(s, l, i))
  }

  function Rank(s: State, l: nat): int
    requires l < s.N()
  {
    Sum(Ranks(s, l)) + ParentRank(s)
  }

  /** A budget is never negative, in any state: player i cannot have read more than reached it. */
  lemma BudgetLeft(s: State, l: nat, i: nat)
    requires FlowInv(s) && l < s.N() && i < s.N()
    ensures Budget(s, l, i) >= 0
  {
    DownIs(s, l, Distance(s.N(), l, i));
    DownstreamLead(s, l, Distance(s.N(), l, i));
  }

  lemma OutStays(s: State, l: nat, p: Proc, c: Choice)
    requires Shape(s) && l < s.N() && Out(s.players[l]) && Next(s, p, c).Some?
    ensures var t := Next(s, p, c).value; Out(t.players[l]) && t.players[l].rounds == s.players[l].rounds
  {
  }

  /** A player's own step lowers its rank. */
  lemma OwnRankFalls(s: State, l: nat, i: nat, c: Choice)
    requires FlowInv(s) && l < s.N() && Out(s.players[l]) && i < s.N() && PlayerNext(s, i, c).Some?
    requires PlayerNext(s, i, c).value.N() == s.N()
    ensures PlayerRank(PlayerNext(s, i, c).value, l, i) < PlayerRank(s, l, i)
  {
    BudgetLeft(s, l, i);
    assert PlayerOk(s, i);
  }

  /** Everyone else's rank is untouched by it, because the one who is out completes no more rounds. */
  lemma OtherRankStays(s: State, l: nat, i: nat, c: Choice, k: nat)
    requires Shape(s) && l < s.N() && Out(s.players[l]) && i < s.N() && k < s.N() && k != i && PlayerNext(s, i, c).Some?
    ensures PlayerNext(s, i, c).value.N() == s.N() && PlayerRank(PlayerNext(s, i, c).value, l, k) == PlayerRank(s, l, k)
  {
    OutStays(s, l, Of(i), c);
  }

  lemma OneRankChanges(s: State, l: nat, i: nat, c: Choice)
    requires Shape(s) && l < s.N() && Out(s.players[l]) && i < s.N() && PlayerNext(s, i, c).Some?
    requires PlayerNext(s, i, c).value.N() == s.N()
    ensures var t := PlayerNext(s, i, c).value; Ranks(t, l) == Ranks(s, l)[i := PlayerRank(t, l, i)]
  {
    var t := PlayerNext(s, i, c).value;
    forall k | 0 <= k < s.N() && k != i
      ensures Ranks(t, l)[k] == Ranks(s, l)[k]
    {
      OtherRankStays(s, l, i, c, k);
    }
  }

  lemma ParentRankFalls(s: State, l: nat)
    requires Shape(s) && l < s.N() && ParentNext(s).Some?
    ensures ParentNext(s).value.N() == s.N() && Rank(ParentNext(s).value, l) < Rank(s, l)
  {
    assert Ranks(ParentNext(s).value, l) == Ranks(s, l);
  }

  lemma RankFalls(s: State, l: nat, p: Proc, c: Choice)
    requires FlowInv(s) && l < s.N() && Out(s.players[l]) && Next(s, p, c).Some?
    ensures Rank(Next(s, p, c).value, l) < Rank(s, l)
  {
    var t := Next(s, p, c).value;
    match p
    case Parent => ParentRankFalls(s, l);
    case Of(i) =>
      OwnRankFalls(s, l, i, c);
      OneRankChanges(s, l, i, c);
      SumUpdate(Ranks(s, l), i, PlayerRank(t, l, i));
  }

  /** How many of the turns made their process move. */
  function Moves(s: State, turns: seq<Turn>): nat
    requires Shape(s)
  {
    if turns == [] then 0
    else
      var u := Run(s, turns[..|turns| - 1]);
      var last := turns[|turns| - 1];
      Moves(s, turns[..|turns| - 1]) + (if Next(u, last.p, last.c).Some? then 1 else 0)
  }

  lemma {:induction false} MovesSpendRank(s: State, l: nat, more: seq<Turn>)
    requires FlowInv(s) && l < s.N() && Out(s.players[l])
    ensures FlowInv(Run(s, more)) && Out(Run(s, more).players[l])
    ensures Run(s, more).players[l].rounds == s.players[l].rounds && Run(s, more).cap == s.cap
    ensures Moves(s, more) + Rank(Run(s, more), l) <= Rank(s, l)
  {
    if more != [] {
      MovesSpendRank(s, l, more[..|more| - 1]);
      var u := Run(s, more[..|more| - 1]);
      var last := more[|more| - 1];
      if Next(u, last.p, last.c).Some? {
        FlowStep(u, last.p, last.c);
        OutStays(u, l, last.p, last.c);
        RankFalls(u, l, last.p, last.c);
      }
    }
  }

  /** A bound on the moves of n players and the parent after one is out. */
  function MovesLeft(n: nat): nat { (6 * n + 2) * n + n + 4 }

  lemma RankBounds(s: State, l: nat)
    requires FlowInv(s) && l < s.N()
    ensures 0 <= Rank(s, l) <= MovesLeft(s.N())
  {
    forall i | 0 <= i < s.N()
      ensures 0 <= Ranks(s, l)[i] <= 6 * s.N() + 2
    {
      BudgetLeft(s, l, i);
      BudgetLeft(s, i, l);
    }
    SumBounds(Ranks(s, l), 6 * s.N() + 2);
  }

  /** A player d places downstream of one that is out completes at most d rounds beyond the leaver's count. */
  lemma CascadeBound(s: State, turns: seq<Turn>, more: seq<Turn>, l: nat, d: nat)
    requires Init(s) && l < s.N() && Out(Run(s, turns).players[l])
    ensures var t := Run(s, turns); var u := Run(t, more);
      u.players[Down(u, l, d)].rounds <= t.players[l].rounds + d
  {
    RunFlow(s, turns);
    MovesSpendRank(Run(s, turns), l, more);
    DownstreamLead(Run(Run(s, turns), more), l, d);
  }

  /** Once one player is out, at most (6 n + 2) n + n + 4 more moves happen, whatever the schedule. */
  lemma CascadeMoves(s: State, turns: seq<Turn>, more: seq<Turn>, l: nat)
    requires Init(s) && l < s.N() && Out(Run(s, turns).players[l])
    ensures Moves(Run(s, turns), more) <= MovesLeft(s.N())
  {
    RunFlow(s, turns);
    var t := Run(s, turns);
    MovesSpendRank(t, l, more);
    RankBounds(t, l);
    RankBounds(Run(t, more), l);
  }

  /** And when then nobody can move, every player and the parent have ended: the cascade reaches all of them. */
  lemma CascadeEnds(s: State, turns: seq<Turn>, more: seq<Turn>, l: nat)
    requires Init(s) && l < s.N() && Out(Run(s, turns).players[l])
    requires forall p :: Blocked(Run(Run(s, turns), more), p)
    ensures Ended(Run(Run(s, turns), more))
  {
    RunFlow(s, turns);
    MovesSpendRank(Run(s, turns), l, more);
    if !Ended(Run(Run(s, turns), more)) {
      SomeoneMoves(Run(Run(s, turns), more));
    }
  }
}
