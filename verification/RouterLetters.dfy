/** What the boss sends: every route once for each letter it reads, in order. */
module RouterLetters {
  import opened Router

  /** The boss reads a letter in this turn. */
  ghost predicate Reads(s: State, turn: Turn)
    requires Shape(s)
  {
    turn.p == Boss && s.boss.Fifo? && turn.c.trigger
  }

  /** How many letters the boss has read. */
  ghost function Letters(s: State, turns: seq<Turn>): nat
    requires Shape(s)
  {
    if turns == [] then 0
    else
      var front := turns[..|turns| - 1];
      Letters(s, front) + (if Reads(Run(s, front), turns[|turns| - 1]) then 1 else 0)
  }

  /** The first r routes, by number. */
  function UpTo(r: nat): seq<nat> { seq(r, i => i) }

  /** All n routes, times over. */
  function Rounds(n: nat, times: nat): seq<nat>
  {
    if times == 0 then [] else Rounds(n, times - 1) + UpTo(n)
  }

  /** What must have been injected, given how many letters have been read and where the boss is. */
  function Due(n: nat, letters: nat, boss: BossPc): seq<nat>
  {
    match boss
    case Inject(r) => (if letters > 0 then Rounds(n, letters - 1) else []) + UpTo(r)
    case _ => Rounds(n, letters)
  }

  ghost predicate Sent(s: State, letters: nat)
  {
    s.injected == Due(|s.net.routes|, letters, s.boss) && (s.boss.Inject? ==> letters > 0 && s.boss.r <= |s.net.routes|)
  }

  lemma OneMoreRoute(before: seq<nat>, r: nat)
    ensures before + UpTo(r) + [r] == before + UpTo(r + 1)
  {
    assert UpTo(r + 1) == UpTo(r) + [r];
  }

  lemma BossSends(s: State, c: Choice, letters: nat)
    requires Shape(s) && Sent(s, letters) && BossNext(s, c).Some?
    ensures Sent(BossNext(s, c).value, letters + (if s.boss.Fifo? && c.trigger then 1 else 0))
  {
    if s.boss.Inject? && s.boss.r < |s.net.routes| {
      OneMoreRoute(Rounds(|s.net.routes|, letters - 1), s.boss.r);
    } else if s.boss.Fifo? {
      assert UpTo(0) == [];
    }
  }

  lemma ProvinceSends(s: State, k: nat, c: Choice, letters: nat)
    requires Shape(s) && Sent(s, letters) && k < |s.provs| && ProvinceNext(s, k, c).Some?
    ensures Sent(ProvinceNext(s, k, c).value, letters)
  {
  }

  lemma {:induction false} RunSends(s: State, turns: seq<Turn>)
    requires Init(s)
    ensures Sent(Run(s, turns), Letters(s, turns))
  {
    if turns != [] {
      var front, last := turns[..|turns| - 1], turns[|turns| - 1];
      RunSends(s, front);
      var u := Run(s, front);
      if Next(u, last.p, last.c).Some? {
        match last.p
        case Boss => BossSends(u, last.c, Letters(s, front));
        case Province(k) => ProvinceSends(u, k, last.c, Letters(s, front));
      }
    }
  }

  /** In every run, whenever the boss is not in the middle of sending, it has sent all routes in order once for each letter. */
  lemma EachRoutePerLetter(s: State, turns: seq<Turn>)
    requires Init(s) && !Run(s, turns).boss.Inject?
    ensures Run(s, turns).injected == Rounds(|s.net.routes|, Letters(s, turns))
  {
    RunSends(s, turns);
  }

  function Occurrences(xs: seq<nat>, x: nat): nat
  {
    if xs == [] then 0 else Occurrences(xs[..|xs| - 1], x) + (if xs[|xs| - 1] == x then 1 else 0)
  }

  lemma {:induction false} OccurrencesConcat(xs: seq<nat>, ys: seq<nat>, x: nat)
    ensures Occurrences(xs + ys, x) == Occurrences(xs, x) + Occurrences(ys, x)
  {
    if ys == [] {
      assert xs + ys == xs;
    } else {
      assert (xs + ys)[..|xs + ys| - 1] == xs + ys[..|ys| - 1];
      OccurrencesConcat(xs, ys[..|ys| - 1], x);
    }
  }

  lemma {:induction false} OnceInUpTo(n: nat, r: nat)
    ensures Occurrences(UpTo(n), r) == if r < n then 1 else 0
  {
    if n > 0 {
      assert UpTo(n)[..n - 1] == UpTo(n - 1);
      OnceInUpTo(n - 1, r);
    }
  }

  /** So each route has been sent exactly as often as letters were read. */
  lemma {:induction false} OncePerLetter(n: nat, letters: nat, r: nat)
    requires r < n
    ensures Occurrences(Rounds(n, letters), r) == letters
  {
    if letters > 0 {
      OncePerLetter(n, letters - 1, r);
      OnceInUpTo(n, r);
      OccurrencesConcat(Rounds(n, letters - 1), UpTo(n), r);
    }
  }
}
