/** Drawing without replacement and scoring a round of the semaphore card game. */
module GameCards {
  import opened Counting

  // ---- create_cards, draw_card ----

  function NewCards(m: nat): seq<int> { seq(m, i => i + 1) }

  /** The deck after drawing position idx of the undrawn part deck[..last+1]: the drawn card moves to position last. */
  function Drawn(deck: seq<int>, last: nat, idx: nat): (r: seq<int>)
    requires idx <= last < |deck|
    ensures |r| == |deck|
  {
    deck[..idx] + deck[idx + 1..last + 1] + [deck[idx]] + deck[last + 1..]
  }

  method CreateCards(cards: array<int>)
    modifies cards
    ensures cards[..] == NewCards(cards.Length)
  {
    for i := 0 to cards.Length
      invariant forall k :: 0 <= k < i ==> cards[k] == k + 1
    {
      cards[i] := i + 1;
    }
  }

  /** draw_card; last is returned decremented, None is the ERR branch. */
  method DrawCard(cards: array<int>, last: int, roll: nat) returns (drawn: Option<int>, left: int)
    requires last < cards.Length
    modifies cards
    ensures last < 0 ==> drawn == None && left == last && cards[..] == old(cards[..])
    ensures last >= 0 ==>
      && roll % (last + 1) <= last && left == last - 1
      && drawn == Some(old(cards[roll % (last + 1)]))
      && cards[..] == Drawn(old(cards[..]), last, roll % (last + 1))
  {
    if last < 0 {
      return None, last;
    }
    var idx := roll % (last + 1);
    var card := cards[idx];
    ghost var was := cards[..];
    var i := idx;
    while i < last
      invariant idx <= i <= last
      invariant forall k :: 0 <= k < idx ==> cards[k] == was[k]
      invariant forall k :: idx <= k < i ==> cards[k] == was[k + 1]
      invariant forall k :: i <= k < cards.Length ==> cards[k] == was[k]
    {
      cards[i] := cards[i + 1];
      i := i + 1;
    }
    cards[last] := card;
    assert cards[..] == Drawn(was, last, idx);
    return Some(card), last - 1;
  }

  /** No card is repeated in the deck. */
  ghost predicate AllDistinct(s: seq<int>)
  {
    forall i, j :: 0 <= i < j < |s| ==> s[i] != s[j]
  }

  lemma DrawKeepsDistinct(deck: seq<int>, last: nat, idx: nat)
    requires idx <= last < |deck| && AllDistinct(deck)
    ensures AllDistinct(Drawn(deck, last, idx))
  {
    var r := Drawn(deck, last, idx);
    forall i, j | 0 <= i < j < |r|
      ensures r[i] != r[j]
    {
      assert r[i] == deck[From(last, idx, i)] && r[j] == deck[From(last, idx, j)];
    }
  }

  lemma DrawLeavesOthers(deck: seq<int>, last: nat, idx: nat, v: int)
    requires idx <= last < |deck| && AllDistinct(deck)
    ensures v in Drawn(deck, last, idx)[..last] <==> v in deck[..last + 1] && v != deck[idx]
  {
    assert Drawn(deck, last, idx)[..last] == deck[..idx] + deck[idx + 1..last + 1];
    assert deck[..last + 1] == deck[..idx] + [deck[idx]] + deck[idx + 1..last + 1];
    if v in deck[..idx] {
      var k :| 0 <= k < idx && deck[..idx][k] == v;
      assert deck[k] == v;
    }
    if v in deck[idx + 1..last + 1] {
      var k :| 0 <= k < last - idx && deck[idx + 1..last + 1][k] == v;
      assert deck[idx + 1 + k] == v;
    }
  }

  /** A draw takes one card of the undrawn part, leaves the rest of it, and only rearranges the deck. */
  lemma DrawMoves(deck: seq<int>, last: nat, idx: nat)
    requires idx <= last < |deck| && AllDistinct(deck)
    ensures var r := Drawn(deck, last, idx);
      && AllDistinct(r) && multiset(r) == multiset(deck)
      && r[last..] == [deck[idx]] + deck[last + 1..]
      && (forall v :: v in r[..last] <==> v in deck[..last + 1] && v != deck[idx])
  {
    DrawKeepsDistinct(deck, last, idx);
    assert deck == deck[..idx] + [deck[idx]] + deck[idx + 1..last + 1] + deck[last + 1..];
    forall v
      ensures v in Drawn(deck, last, idx)[..last] <==> v in deck[..last + 1] && v != deck[idx]
    {
      DrawLeavesOthers(deck, last, idx, v);
    }
  }

  /** The first n cards of the deck are in ascending order. */
  ghost predicate Ascends(deck: seq<int>, n: int)
  {
    n <= |deck| && forall i, j :: 0 <= i < j < n ==> deck[i] < deck[j]
  }

  /** Taking one out and closing the gap keeps the undrawn cards in order. */
  lemma DrawKeepsOrder(deck: seq<int>, last: nat, idx: nat)
    requires idx <= last < |deck| && Ascends(deck, last + 1)
    ensures Ascends(Drawn(deck, last, idx), last)
  {
    var r := Drawn(deck, last, idx);
    forall i, j | 0 <= i < j < last
      ensures r[i] < r[j]
    {
      assert r[i] == deck[From(last, idx, i)] && r[j] == deck[From(last, idx, j)];
    }
  }

  /** Where position i of the deck after the draw came from. */
  function From(last: nat, idx: nat, i: nat): nat
  {
    if i < idx || i > last then i else if i == last then idx else i + 1
  }

  /** The cards a player draws, in order, and the deck it is left with. */
  function Draws(deck: seq<int>, last: int, rolls: seq<nat>): (seq<int>, seq<int>)
    requires |rolls| <= last + 1 <= |deck|
    decreases |rolls|
  {
    if rolls == [] then ([], deck)
    else
      var idx := rolls[0] % (last + 1);
      var (rest, final) := Draws(Drawn(deck, last, idx), last - 1, rolls[1..]);
      ([deck[idx]] + rest, final)
  }

  /** ds are distinct cards of the undrawn part of deck, and what final leaves undrawn is exactly the others. */
  ghost predicate FairDraws(deck: seq<int>, last: int, ds: seq<int>, final: seq<int>)
  {
    && 0 <= |ds| <= last + 1 <= |deck| == |final| && AllDistinct(ds)
    && (forall v :: v in ds ==> v in deck[..last + 1])
    && (forall v :: Remains(v, deck, last, ds, final))
  }

  /** v is still undrawn in final exactly if it was undrawn in deck and is not among ds. */
  ghost predicate Remains(v: int, deck: seq<int>, last: int, ds: seq<int>, final: seq<int>)
    requires 0 <= |ds| <= last + 1 <= |deck| == |final|
  {
    v in final[..last + 1 - |ds|] <==> v in deck[..last + 1] && v !in ds
  }

  /** One more draw in front of fair ones. */
  lemma FairDrawsExtend(deck: seq<int>, last: nat, idx: nat, rest: seq<int>, final: seq<int>)
    requires idx <= last < |deck| && AllDistinct(deck) && FairDraws(Drawn(deck, last, idx), last - 1, rest, final)
    ensures FairDraws(deck, last, [deck[idx]] + rest, final)
  {
    DrawMoves(deck, last, idx);
    var ds := [deck[idx]] + rest;
    var next := Drawn(deck, last, idx);
    assert next[..last - 1 + 1] == next[..last];
    assert deck[idx] == deck[..last + 1][idx];
    assert forall v :: v in ds <==> v == deck[idx] || v in rest;
    assert final[..last + 1 - |ds|] == final[..last - 1 + 1 - |rest|];
    forall v
      ensures Remains(v, deck, last, ds, final)
    {
      assert v in ds <==> v == deck[idx] || v in rest;
      assert v in next[..last] <==> v in deck[..last + 1] && v != deck[idx];
      assert Remains(v, next, last - 1, rest, final);
    }
    forall i, j | 0 <= i < j < |ds|
      ensures ds[i] != ds[j]
    {
      if i == 0 {
        assert ds[j] == rest[j - 1] && rest[j - 1] in rest;
      }
    }
  }

  /** Successive draws are distinct cards of the undrawn part, and what is left undrawn is exactly the others. */
  lemma {:induction false} DrawsAreDistinct(deck: seq<int>, last: int, rolls: seq<nat>)
    requires |rolls| <= last + 1 <= |deck| && AllDistinct(deck)
    ensures var (ds, final) := Draws(deck, last, rolls); |ds| == |rolls| && FairDraws(deck, last, ds, final)
    decreases |rolls|
  {
    if rolls != [] {
      var idx := rolls[0] % (last + 1);
      DrawMoves(deck, last, idx);
      DrawsAreDistinct(Drawn(deck, last, idx), last - 1, rolls[1..]);
      var (rest, final) := Draws(Drawn(deck, last, idx), last - 1, rolls[1..]);
      FairDrawsExtend(deck, last, idx, rest, final);
    }
  }

  // ---- scoring ----

  datatype Entry = Entry(card: int, score: int, playing: bool)

  /** The highest card on the table and how many playing entries hold it. */
  function Winning(data: seq<Entry>): (int, nat)
  {
    if data == [] then (-1, 0)
    else
      var (card, count) := Winning(data[..|data| - 1]);
      var e := data[|data| - 1];
      if !e.playing then (card, count)
      else if e.card > card then (e.card, 1)
      else if e.card == card then (card, count + 1)
      else (card, count)
  }

  function Awarded(data: seq<Entry>, card: int, points: int): (r: seq<Entry>)
    ensures |r| == |data|
    ensures forall i :: 0 <= i < |data| ==>
      r[i] == if data[i].playing && data[i].card == card then data[i].(score := data[i].score + points) else data[i]
  {
    seq(|data|, i requires 0 <= i < |data| =>
      if data[i].playing && data[i].card == card then data[i].(score := data[i].score + points) else data[i])
  }

  /** A round's scoring with active players on the server's count. */
  function Scored(data: seq<Entry>, active: int): (r: seq<Entry>)
    ensures |r| == |data|
  {
    var (card, count) := Winning(data);
    if count > 0 then Awarded(data, card, active / count) else data
  }

  /** The two scoring loops of game_server_work. */
  method ScoreRound(data: array<Entry>, active: int)
    modifies data
    ensures data[..] == Scored(old(data[..]), active)
  {
    var card, count := -1, 0;
    ghost var was := data[..];
    var j := 0;
    while j < data.Length
      invariant 0 <= j <= data.Length && data[..] == was && (card, count) == Winning(was[..j])
    {
      assert was[..j + 1][..j] == was[..j];
      if data[j].playing {
        if data[j].card > card {
          card, count := data[j].card, 1;
        } else if data[j].card == card {
          count := count + 1;
        }
      }
      j := j + 1;
    }
    assert was[..data.Length] == was;
    if count > 0 {
      var points := active / count;
      j := 0;
      while j < data.Length
        invariant 0 <= j <= data.Length
        invariant forall k :: 0 <= k < j ==> data[k] == Awarded(was, card, points)[k]
        invariant forall k :: j <= k < data.Length ==> data[k] == was[k]
      {
        if data[j].playing && data[j].card == card {
          data[j] := data[j].(score := data[j].score + points);
        }
        j := j + 1;
      }
    }
  }

  function Scores(data: seq<Entry>): int
  {
    if data == [] then 0 else Scores(data[..|data| - 1]) + data[|data| - 1].score
  }

  function Holders(data: seq<Entry>, card: int): nat
  {
    if data == [] then 0
    else Holders(data[..|data| - 1], card) + (if data[|data| - 1].playing && data[|data| - 1].card == card then 1 else 0)
  }

  function Playing(data: seq<Entry>): nat
  {
    if data == [] then 0 else Playing(data[..|data| - 1]) + (if data[|data| - 1].playing then 1 else 0)
  }

  /** Winning finds the maximum over the playing entries and counts its holders. */
  lemma {:induction false} WinningIsMax(data: seq<Entry>)
    requires forall i :: 0 <= i < |data| && data[i].playing ==> data[i].card >= 0
    ensures var (card, count) := Winning(data);
      && count == Holders(data, card) <= Playing(data)
      && (forall i :: 0 <= i < |data| && data[i].playing ==> data[i].card <= card)
      && (count == 0 <==> Playing(data) == 0) && card >= -1 && (count == 0 ==> card == -1)
  {
    if data != [] {
      var front := data[..|data| - 1];
      WinningIsMax(front);
      var (card, count) := Winning(front);
      var e := data[|data| - 1];
      assert forall i :: 0 <= i < |front| ==> front[i] == data[i];
      if e.playing && e.card > card {
        NoHolders(front, e.card);
      }
    }
  }

  lemma {:induction false} NoHolders(data: seq<Entry>, card: int)
    requires forall i :: 0 <= i < |data| && data[i].playing ==> data[i].card != card
    ensures Holders(data, card) == 0
  {
    if data != [] {
      NoHolders(data[..|data| - 1], card);
    }
  }

  lemma {:induction false} AwardedScores(data: seq<Entry>, card: int, points: int)
    ensures Scores(Awarded(data, card, points)) == Scores(data) + points * Holders(data, card)
  {
    if data != [] {
      AwardedScores(data[..|data| - 1], card, points);
      assert Awarded(data, card, points)[..|data| - 1] == Awarded(data[..|data| - 1], card, points);
      var e := data[|data| - 1];
      Distribute(points, Holders(data[..|data| - 1], card), if e.playing && e.card == card then 1 else 0);
    }
  }

  lemma Distribute(points: int, a: nat, b: nat)
    ensures points * (a + b) == points * a + points * b
  {
  }

  /** A round awards at most active points, and fewer than the number of winners go to waste. */
  lemma RoundAwards(data: seq<Entry>, active: int)
    requires forall i :: 0 <= i < |data| && data[i].playing ==> data[i].card >= 0
    requires active == Playing(data) > 0
    ensures var winners := Winning(data).1; var gain := Scores(Scored(data, active)) - Scores(data);
      winners > 0 && active - winners < gain <= active
  {
    WinningIsMax(data);
    var (card, count) := Winning(data);
    AwardedScores(data, card, active / count);
    WasteBound(active, count);
  }

  lemma WasteBound(a: int, c: int)
    requires c > 0
    ensures a - c < (a / c) * c <= a
  {
  }
}
