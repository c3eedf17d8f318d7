/**
 The code of the players and of the server, in place: the shared memory is one object, a player's
 cards an array.  A turn is the code between two points where another process may run, and does to
 shared memory and to the process exactly what Game.Next says.
 */
module GameTable {
  import opened Counting
  import opened GameCards
  import opened Game

  class SharedMemory {
    const data: array<Entry>
    var start: nat
    var ready: nat
    var results: nat
    var done: nat
    var mx: Option<Proc>
    var active: int

    /** main: clear the memory, all semaphores at 0, n players active. */
    constructor (n: nat)
      ensures fresh(data) && data.Length == n && forall i :: 0 <= i < n ==> data[i] == Entry(0, 0, true)
      ensures start == ready == results == done == 0 && mx == None && active == n
    {
      data := new Entry[n](_ => Entry(0, 0, true));
      start, ready, results, done, mx, active := 0, 0, 0, 0, None, n;
    }

    /** s is a state with this shared memory. */
    predicate Of(s: State)
      reads this, data
    {
      && s.data == data[..] && s.start == start && s.ready == ready && s.results == results && s.done == done
      && s.mx == mx && s.active == active
    }

    /** sem_wait, when it need not sleep. */
    static method Take(sem: nat) returns (got: bool, left: nat)
      ensures got == (sem > 0) && left == if got then sem - 1 else sem
    {
      got := sem > 0;
      left := if got then sem - 1 else sem;
    }
  }

  /** player_work. */
  class PlayerProcess {
    const id: nat
    const m: nat
    const cards: array<int>
    var last: int
    var round: nat
    var pc: PlayerPc

    constructor (id: nat, m: nat)
      ensures this.id == id && this.m == m && fresh(cards) && View() == Player(WaitStart, 1, NewCards(m), m - 1)
    {
      this.id, this.m, last, round, pc := id, m, m - 1, 1, WaitStart;
      cards := new int[m];
      new;
      CreateCards(cards);
    }

    function View(): Player
      reads this, cards
    {
      Player(pc, round, cards[..], last)
    }

    predicate Of(s: State)
      reads this, cards
    {
      Shape(s) && id < |s.players| && s.players[id] == View() && s.m == m
    }

    /** draw_card, and the card on the table. */
    method DrawTurn(shm: SharedMemory, roll: nat, ghost resign: bool, ghost s: State) returns (moved: bool)
      requires Of(s) && shm.Of(s) && pc.Draw?
      modifies this`last, this`pc, cards, shm.data
      ensures match PlayerNext(s, id, Choice(roll, resign))
        case None => !moved && Of(s) && shm.Of(s)
        case Some(t) => moved && Of(t) && shm.Of(t)
    {
      moved := 0 <= last < m;
      if moved {
        var drawn: Option<int>;
        drawn, last := DrawCard(cards, last, roll);
        shm.data[id] := shm.data[id].(card := drawn.value);
        pc := PostReady;
      }
    }

    /** Leaving the count of active players, then the round. */
    method ResignTurn(shm: SharedMemory, ghost roll: nat, ghost resign: bool, ghost s: State) returns (moved: bool)
      requires Of(s) && shm.Of(s) && (pc.TakeMx? || pc.ReadCount? || pc.WriteCount? || pc.DropMx? || pc.PostLeave?)
      modifies this`pc, shm`mx, shm`active, shm`done
      ensures match PlayerNext(s, id, Choice(roll, resign))
        case None => !moved && Of(s) && shm.Of(s)
        case Some(t) => moved && Of(t) && shm.Of(t)
    {
      moved := true;
      match pc
      case TakeMx =>
        moved := shm.mx.None?;
        if moved { shm.mx := Some(Proc.Of(id)); pc := ReadCount; }
      case ReadCount => pc := WriteCount(shm.active);
      case WriteCount(seen) =>
        shm.active := seen - 1;
        pc := PlayerPc.DropMx;
      case DropMx =>
        shm.mx := None;
        pc := PostLeave;
      case PostLeave =>
        shm.done := shm.done + 1;
        pc := Left(true);
    }

    method TakeTurn(shm: SharedMemory, roll: nat, resign: bool, ghost s: State) returns (moved: bool)
      requires Of(s) && shm.Of(s)
      modifies this, cards, shm, shm.data
      ensures match PlayerNext(s, id, Choice(roll, resign))
        case None => !moved && Of(s) && shm.Of(s)
        case Some(t) => moved && Of(t) && shm.Of(t)
    {
      moved := true;
      match pc
      case WaitStart =>
        moved, shm.start := SharedMemory.Take(shm.start);
        if moved { pc := Draw; }
      case Draw => moved := DrawTurn(shm, roll, resign, s);
      case PostReady =>
        shm.ready := shm.ready + 1;
        pc := WaitResults;
      case WaitResults =>
        moved, shm.results := SharedMemory.Take(shm.results);
        if moved { pc := Decide; }
      case Decide =>
        shm.data[id] := shm.data[id].(playing := !resign);
        pc := if resign then PlayerPc.TakeMx else PostDone;
      case PostDone =>
        shm.done := shm.done + 1;
        if round < m {
          pc, round := WaitStart, round + 1;
        } else {
          pc := Left(false);
        }
      case Left(_) => moved := false;
      case _ => moved := ResignTurn(shm, roll, resign, s);
    }
  }

  /** game_server_work. */
  class ServerProcess {
    const m: nat
    var pc: ServerPc
    var r: nat

    constructor (m: nat)
      ensures this.m == m && pc == ServerPc.TakeMx && r == 1
    {
      this.m, pc, r := m, ServerPc.TakeMx, 1;
    }

    predicate Of(s: State)
      reads this
    {
      Shape(s) && s.server == pc && s.r == r && s.m == m
    }

    method TakeTurn(shm: SharedMemory, ghost s: State) returns (moved: bool)
      requires Of(s) && shm.Of(s)
      modifies this, shm, shm.data
      ensures match ServerNext(s)
        case None => !moved && Of(s) && shm.Of(s)
        case Some(t) => moved && Of(t) && shm.Of(t)
    {
      moved := true;
      match pc
      case TakeMx =>
        if r > m {
          pc := Summary;
        } else {
          moved := shm.mx.None?;
          if moved { shm.mx := Some(Server); pc := ReadActive; }
        }
      case ReadActive => pc := ServerPc.DropMx(shm.active);
      case DropMx(c) =>
        shm.mx := None;
        pc := if c == 0 then Summary else PostStart(c, 0);
      case PostStart(c, k) =>
        if k < c {
          shm.start := shm.start + 1;
          pc := PostStart(c, k + 1);
        } else {
          pc := WaitCards(c, 0);
        }
      case WaitCards(c, k) =>
        if k >= c {
          pc := Score(c);
        } else {
          moved, shm.ready := SharedMemory.Take(shm.ready);
          if moved { pc := WaitCards(c, k + 1); }
        }
      case Score(c) =>
        ScoreRound(shm.data, c);
        pc := PostResults(c, 0);
      case PostResults(c, k) =>
        if k < c {
          shm.results := shm.results + 1;
          pc := PostResults(c, k + 1);
        } else {
          pc := WaitDone(c, 0);
        }
      case WaitDone(c, k) =>
        if k >= c {
          pc, r := ServerPc.TakeMx, r + 1;
        } else {
          moved, shm.done := SharedMemory.Take(shm.done);
          if moved { pc := WaitDone(c, k + 1); }
        }
      case Summary => moved := false;
    }
  }

  // ---- a whole game ----

  /** The processes of one game: player i has number i, and no two share anything but the shared memory. */
  ghost predicate Seated(players: seq<PlayerProcess>)
  {
    && (forall i :: 0 <= i < |players| ==> players[i].id == i)
    && (forall i, j :: 0 <= i < j < |players| ==> players[i] != players[j] && players[i].cards != players[j].cards)
  }

  /** s is the state these processes and this memory are in. */
  ghost predicate InState(players: seq<PlayerProcess>, server: ServerProcess, shm: SharedMemory, s: State)
    reads players, set p: PlayerProcess | p in players :: p.cards, server, shm, shm.data
  {
    && server.Of(s) && shm.Of(s) && |s.players| == |players|
    && (forall i :: 0 <= i < |players| ==> players[i].Of(s))
  }

  /** main up to the first turn: the shared memory, n players with m cards each, the server. */
  method Seat(n: nat, m: nat) returns (players: seq<PlayerProcess>, server: ServerProcess, shm: SharedMemory, ghost s: State)
    requires m > 0
    ensures |players| == n && Seated(players) && InState(players, server, shm, s) && Init(s) && s.m == m
  {
    players := [];
    while |players| < n
      invariant |players| <= n && Seated(players)
      invariant forall i :: 0 <= i < |players| ==>
        players[i].m == m && players[i].View() == Player(WaitStart, 1, NewCards(m), m - 1)
      decreases n - |players|
    {
      var p := new PlayerProcess(|players|, m);
      players := players + [p];
    }
    shm := new SharedMemory(n);
    server := new ServerProcess(m);
    s := State(0, 0, 0, 0, None, n, shm.data[..], seq(n, i => Player(WaitStart, 1, NewCards(m), m - 1)), ServerPc.TakeMx, 1, m);
  }

  /** A step changes only its own process. */
  lemma StepLocal(s: State, p: Proc, c: Choice)
    requires Shape(s) && Next(s, p, c).Some?
    ensures var t := Next(s, p, c).value;
      && (forall j :: 0 <= j < |s.players| && p != Proc.Of(j) ==> t.players[j] == s.players[j])
      && (p.Of? ==> t.server == s.server && t.r == s.r)
  {
  }

  /** One turn of a player or of the server. */
  method Turns(players: seq<PlayerProcess>, server: ServerProcess, shm: SharedMemory, p: Proc, c: Choice, ghost s: State)
    requires Seated(players) && InState(players, server, shm, s)
    modifies players, set q: PlayerProcess | q in players :: q.cards
    modifies server, shm, shm.data
    ensures InState(players, server, shm, match Next(s, p, c) case None => s case Some(t) => t)
  {
    ghost var step := Next(s, p, c);
    if step.Some? {
      StepLocal(s, p, c);
    }
    var moved;
    match p {
      case Server => moved := server.TakeTurn(shm, s);
      case Of(i) =>
        if i < |players| {
          moved := players[i].TakeTurn(shm, c.roll, c.resign, s);
          assert Choice(c.roll, c.resign) == c;
        }
    }
    ghost var t := match step case None => s case Some(t) => t;
    forall j | 0 <= j < |players|
      ensures players[j].Of(t)
    {
    }
  }

  /** A whole schedule of the players and the server. */
  method Play(players: seq<PlayerProcess>, server: ServerProcess, shm: SharedMemory, turns: seq<Turn>, ghost s: State)
    requires Seated(players) && InState(players, server, shm, s)
    modifies players, set q: PlayerProcess | q in players :: q.cards
    modifies server, shm, shm.data
    ensures InState(players, server, shm, Run(s, turns))
  {
    var n := 0;
    assert turns[..0] == [];
    while n < |turns|
      invariant 0 <= n <= |turns| && InState(players, server, shm, Run(s, turns[..n]))
    {
      Turns(players, server, shm, turns[n].p, turns[n].c, Run(s, turns[..n]));
      assert turns[..n + 1][..n] == turns[..n];
      n := n + 1;
    }
    assert turns[..n] == turns;
  }
}
