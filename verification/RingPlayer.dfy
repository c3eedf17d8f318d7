/** The code of one player, in place: its hand is an array, its pipes are shared queues. */
module RingPlayer {
  import opened Counting
  import opened Ring

  /** A pipe as one process sees it: its contents, and whether the far end is still held by anybody. */
  class Pipe {
    var content: seq<int>
    var readers: bool
    var writers: bool

    constructor ()
      ensures content == [] && readers && writers
    {
      content, readers, writers := [], true, true;
    }
  }

  /** is_winning. */
  method IsWinningHand(hand: array<int>) returns (wins: bool)
    requires hand.Length > 0
    ensures wins == IsWinning(hand[..])
  {
    var suit := hand[0] % 4;
    var i := 1;
    while i < hand.Length
      invariant 1 <= i <= hand.Length
      invariant forall k :: 0 <= k < i ==> Suit(hand[k]) == suit
    {
      if hand[i] % 4 != suit {
        assert hand[..][i] == hand[i] && hand[..][0] == hand[0];
        return false;
      }
      i := i + 1;
    }
    return true;
  }

  /** The counting loops of choose_card_to_discard. */
  method BestSuit(hand: array<int>) returns (best: int)
    ensures best == Best(hand[..])
  {
    var counts := new int[4](_ => 0);
    var i := 0;
    while i < hand.Length
      invariant 0 <= i <= hand.Length
      invariant forall k :: 0 <= k < 4 ==> counts[k] == SuitCount(hand[..i], k)
    {
      assert hand[..i + 1][..i] == hand[..i];
      counts[hand[i] % 4] := counts[hand[i] % 4] + 1;
      i := i + 1;
    }
    assert hand[..hand.Length] == hand[..];
    best := 0;
    i := 1;
    while i < 4
      invariant 1 <= i <= 4 && 0 <= best < i
      invariant forall k :: 0 <= k < 4 ==> counts[k] == SuitCount(hand[..], k)
      invariant forall k :: 0 <= k < i ==> SuitCount(hand[..], k) <= SuitCount(hand[..], best)
      invariant forall k :: 0 <= k < best ==> SuitCount(hand[..], k) < SuitCount(hand[..], best)
    {
      if counts[i] > counts[best] {
        best := i;
      }
      i := i + 1;
    }
    BestIsUnique(hand[..], best, Best(hand[..]));
  }

  lemma BestIsUnique(hand: seq<int>, a: int, b: int)
    requires IsBest(hand, a) && IsBest(hand, b)
    ensures a == b
  {
    assert SuitCount(hand, a) == SuitCount(hand, b);
  }

  /** The positions of the cards outside the best suit. */
  function OffSuit(hand: seq<int>, best: int): seq<int>
  {
    if hand == [] then []
    else OffSuit(hand[..|hand| - 1], best) + (if Suit(hand[|hand| - 1]) != best then [|hand| - 1] else [])
  }

  /** Which card the roll picks. */
  function Discarded(hand: seq<int>, roll: nat): int
    requires hand != []
  {
    var bad := OffSuit(hand, Best(hand));
    if bad != [] then bad[roll % |bad|] else roll % |hand|
  }

  lemma {:induction false} OffSuitHas(hand: seq<int>, best: int, i: nat)
    requires i < |hand|
    ensures Suit(hand[i]) != best <==> i in OffSuit(hand, best)
    ensures forall k :: 0 <= k < |OffSuit(hand, best)| ==> 0 <= OffSuit(hand, best)[k] < |hand|
  {
    var front := hand[..|hand| - 1];
    if i < |hand| - 1 {
      OffSuitHas(front, best, i);
    } else if front != [] {
      OffSuitHas(front, best, 0);
    }
  }

  lemma SmallModulus(a: nat, n: nat)
    requires a < n
    ensures a % n == a
  {
  }

  lemma SomeRoll(xs: seq<int>, x: int) returns (roll: nat)
    requires x in xs
    ensures xs[roll % |xs|] == x
  {
    roll :| roll < |xs| && xs[roll] == x;
    SmallModulus(roll, |xs|);
  }

  /** Every card the rule allows comes for some roll. */
  lemma AnyDiscardMayCome(hand: seq<int>, i: nat) returns (roll: nat)
    requires hand != [] && MayDiscard(hand, i)
    ensures Discarded(hand, roll) == i
  {
    var bad := OffSuit(hand, Best(hand));
    OffSuitHas(hand, Best(hand), i);
    if bad == [] {
      roll := i;
      SmallModulus(i, |hand|);
    } else {
      OffSuitHas(hand, Best(hand), bad[0]);
      assert bad[0] in bad;
      roll := SomeRoll(bad, i);
    }
  }

  /** choose_card_to_discard; roll is rand(). */
  method ChooseDiscard(hand: array<int>, roll: nat) returns (idx: nat)
    requires hand.Length > 0
    ensures MayDiscard(hand[..], idx) && idx == Discarded(hand[..], roll)
  {
    var best := BestSuit(hand);
    var bad := new int[hand.Length];
    var count := 0;
    var i := 0;
    while i < hand.Length
      invariant 0 <= i <= hand.Length && 0 <= count <= i && bad[..count] == OffSuit(hand[..i], best)
      invariant forall k :: 0 <= k < count ==> 0 <= bad[k] < i && Suit(hand[bad[k]]) != best
      invariant count == 0 ==> forall k :: 0 <= k < i ==> Suit(hand[k]) == best
    {
      assert hand[..i + 1][..i] == hand[..i];
      if hand[i] % 4 != best {
        bad[count] := i;
        count := count + 1;
      }
      i := i + 1;
    }
    assert hand[..hand.Length] == hand[..];
    if count > 0 {
      assert bad[roll % count] == bad[..count][roll % count];
      assert 0 <= bad[roll % count] < hand.Length;
      idx := bad[roll % count];
    } else {
      idx := roll % hand.Length;
    }
  }

  /** The shared pipe on which winners announce themselves. */
  class Announcements {
    var content: seq<nat>

    constructor ()
      ensures content == []
    {
      content := [];
    }
  }

  /** Player number id; dealt says that hand has been filled. */
  class Process {
    const id: nat
    const hand: array<int>
    var dealt: bool
    var pc: Pc
    var hole: Option<nat>
    var rounds: nat

    function View(): Player
      reads this, hand
    {
      Player(pc, if dealt then hand[..] else [], hole, rounds)
    }

    /** The malloc at the start of player_work. */
    constructor (id: nat, m: nat)
      ensures this.id == id && fresh(hand) && hand.Length == m && View() == Player(Start, [], None, 0)
    {
      this.id := id;
      hand := new int[m];
      dealt, pc, hole, rounds := false, Start, None, 0;
    }

    /** Closing the unused ends, then reading the deal, which is m cards in one piece, or its end. */
    method EntryTurn(deal: Pipe) returns (moved: bool)
      requires (pc.Start? || pc.TakeDeal?) && !dealt && (deal.content == [] || |deal.content| == hand.Length)
      modifies this`pc, this`dealt, hand, deal`content
      ensures moved == (old(pc).Start? || old(deal.content) != [] || !deal.writers)
      ensures old(pc).Start? ==> View() == old(View()).(pc := TakeDeal) && deal.content == old(deal.content)
      ensures old(pc).TakeDeal? && old(deal.content) != [] ==>
        View() == old(View()).(pc := Top, hand := old(deal.content)) && deal.content == []
      ensures old(pc).TakeDeal? && old(deal.content) == [] ==>
        View() == (if deal.writers then old(View()) else old(View()).(pc := Top)) && deal.content == []
    {
      moved := true;
      if pc.Start? {
        pc := TakeDeal;
      } else if deal.content != [] {
        var share := deal.content;
        var got := 0;
        while got < hand.Length
          invariant 0 <= got <= hand.Length && hand[..got] == share[..got]
          modifies hand
        {
          hand[got] := share[got];
          got := got + 1;
        }
        assert share[..got] == share;
        dealt := true;
        deal.content := [];
        pc := Top;
      } else if !deal.writers {
        pc := Top;
      } else {
        moved := false;
      }
    }

    /** One turn of the loop against its two pipes: exactly Ring.PlayerStep, with some discard the rule allows. */
    method LoopTurn(interrupted: bool, roll: nat, inp: Pipe, out: Pipe, cap: nat) returns (moved: bool, ghost discard: nat)
      requires dealt && hand.Length > 0 && inp != out
      requires !pc.Start? && !pc.TakeDeal? && !pc.Announce?
      requires (pc.Write? ==> pc.idx < hand.Length) && (pc.Read? ==> pc.idx < hand.Length)
      modifies this`pc, this`hole, this`rounds, hand, inp`content, out`content
      ensures match PlayerStep(old(View()), Choice(discard, interrupted), old(inp.content), old(inp.writers), old(out.content), old(out.readers), cap)
        case None => !moved && View() == old(View()) && inp.content == old(inp.content) && out.content == old(out.content)
        case Some((q, i, o)) => moved && View() == q && inp.content == i && out.content == o
    {
      moved, discard := true, 0;
      match pc
      case Top =>
        if interrupted {
          pc := CloseRead;
          return;
        }
        var wins := IsWinningHand(hand);
        if wins {
          pc := Announce;
        } else {
          var idx := ChooseDiscard(hand, roll);
          discard := idx;
          pc := Write(idx);
        }
      case Write(idx) =>
        if !out.readers {
          pc := CloseRead;
        } else if |out.content| >= cap {
          moved := false;
        } else {
          var card := hand[idx];
          out.content := out.content + [card];
          hole := Some(idx);
          pc := Read(idx);
        }
      case Read(idx) =>
        if inp.content != [] {
          hand[idx] := inp.content[0];
          inp.content := inp.content[1..];
          hole := None;
          rounds := rounds + 1;
          pc := Top;
        } else if !inp.writers {
          pc := CloseRead;
        } else {
          moved := false;
        }
      case CloseRead => pc := CloseWrite;
      case CloseWrite => pc := CloseShared;
      case CloseShared => pc := Gone;
      case Gone => moved := false;
    }

    /** s is a state in which this is player id and these are its pipes. */
    ghost predicate Of(s: State, inp: Pipe, out: Pipe, deal: Pipe, shared: Announcements)
      reads this, hand, inp, out, deal, shared
    {
      && Shape(s) && id < s.N() && s.players[id] == View() && s.shared == shared.content
      && s.ring[id] == inp.content && s.ring[s.After(id)] == out.content && s.deal[id] == deal.content
    }

    /** Any turn of the player; the pipes know what the kernel knows of their far ends. */
    method TakeTurn(interrupted: bool, roll: nat, inp: Pipe, out: Pipe, deal: Pipe, shared: Announcements, cap: nat, ghost s: State)
        returns (moved: bool, ghost discard: nat)
      requires inp != out && inp != deal && out != deal && Of(s, inp, out, deal, shared) && cap == s.cap
      requires if pc.Start? || pc.TakeDeal? then !dealt && (deal.content == [] || |deal.content| == hand.Length) else dealt && hand.Length > 0
      requires (pc.Write? ==> pc.idx < hand.Length) && (pc.Read? ==> pc.idx < hand.Length)
      requires inp.writers == WritersLeft(s, id) && out.readers == ReadersLeft(s, s.After(id)) && deal.writers == DealWriters(s, id)
      modifies this, hand, inp`content, out`content, deal`content, shared
      ensures match PlayerNext(s, id, Choice(discard, interrupted))
        case None => !moved && Of(s, inp, out, deal, shared)
        case Some(t) => moved && Of(t, inp, out, deal, shared)
    {
      discard := 0;
      if pc.Announce? {
        moved := true;
        shared.content := shared.content + [id];
        pc := CloseRead;
      } else if pc.Start? || pc.TakeDeal? {
        moved := EntryTurn(deal);
      } else {
        moved, discard := LoopTurn(interrupted, roll, inp, out, cap);
      }
    }
  }
}
