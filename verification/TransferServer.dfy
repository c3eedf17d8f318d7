/** The UDP server of the file transfer: its table of connections and its accept, re-ack or drop rule. */
module TransferServer {
  import opened Counting

  newtype Byte = b: int | 0 <= b < 256

  /** The header is (number, last); the payload is the rest of the buffer. */
  datatype Datagram = Datagram(number: int, last: bool, payload: seq<Byte>)

  /** One entry of con[].  life is history: which connection lifetime occupies or last occupied it. */
  datatype Slot = Slot(free: bool, chunkNo: int, addr: nat, life: nat)

  /** One connection lifetime, from allocation to release: what the server printed during it. */
  datatype Lifetime = Lifetime(addr: nat, printed: seq<Datagram>)

  datatype Server = Server(con: seq<Slot>, lives: seq<Lifetime>)

  /** The first live entry for addr at or after i. */
  function LiveFrom(con: seq<Slot>, addr: nat, i: nat): (r: Option<nat>)
    requires i <= |con|
    ensures match r
      case Some(k) => i <= k < |con| && !con[k].free && con[k].addr == addr
      case None => forall k :: i <= k < |con| ==> con[k].free || con[k].addr != addr
    decreases |con| - i
  {
    if i == |con| then None else if !con[i].free && con[i].addr == addr then Some(i) else LiveFrom(con, addr, i + 1)
  }

  /** The last free entry before i. */
  function LastFree(con: seq<Slot>, i: nat): (r: Option<nat>)
    requires i <= |con|
    ensures match r
      case Some(k) => k < i && con[k].free && forall m :: k < m < i ==> !con[m].free
      case None => forall k :: 0 <= k < i ==> !con[k].free
  {
    if i == 0 then None else if con[i - 1].free then Some(i - 1) else LastFree(con, i - 1)
  }

  /** findIndex: the entry for addr, allocating the last free one if it has none; None when the table is full. */
  function Find(s: Server, addr: nat): (Server, Option<nat>)
  {
    match LiveFrom(s.con, addr, 0)
    case Some(k) => (s, Some(k))
    case None =>
      match LastFree(s.con, |s.con|)
      case Some(k) =>
        (Server(s.con[k := Slot(false, 0, addr, |s.lives|)], s.lives + [Lifetime(addr, [])]), Some(k))
      case None => (s, None)
  }

  function Print(lives: seq<Lifetime>, l: nat, d: Datagram): seq<Lifetime>
  {
    if l < |lives| then lives[l := lives[l].(printed := lives[l].printed + [d])] else lives
  }

  /** One turn of doServer's loop: the new server, and whether the datagram is echoed back. */
  function Handle(s: Server, addr: nat, d: Datagram): (Server, bool)
  {
    var (t, pos) := Find(s, addr);
    match pos
    case None => (t, false)
    case Some(i) =>
      if i >= |t.con| || d.number > t.con[i].chunkNo + 1 then (t, false)
      else if d.number == t.con[i].chunkNo + 1 then
        var slot := t.con[i];
        (Server(t.con[i := slot.(free := d.last, chunkNo := slot.chunkNo + 1)], Print(t.lives, slot.life, d)), true)
      else (t, true)
  }

  // ---- what every run of the server keeps, whoever sends what ----

  predicate Live(s: Server, i: nat) { i < |s.con| && !s.con[i].free }

  /** A lifetime prints chunks numbered 1, 2, 3, ... and nothing after one flagged last. */
  ghost predicate WellPrinted(l: Lifetime)
  {
    && (forall j :: 0 <= j < |l.printed| ==> l.printed[j].number == j + 1)
    && (forall j :: 0 <= j < |l.printed| - 1 ==> !l.printed[j].last)
  }

  ghost predicate Ended(l: Lifetime) { l.printed != [] && l.printed[|l.printed| - 1].last }

  ghost predicate SlotOk(s: Server, i: nat)
    requires i < |s.con|
  {
    var c := s.con[i];
    !c.free ==>
      && c.life < |s.lives| && s.lives[c.life].addr == c.addr
      && c.chunkNo == |s.lives[c.life].printed| && !Ended(s.lives[c.life])
  }

  ghost predicate ServerInv(s: Server)
  {
    && (forall i :: 0 <= i < |s.con| ==> SlotOk(s, i))
    && (forall i: nat, j: nat :: i < j && Live(s, i) && Live(s, j) ==>
         s.con[i].addr != s.con[j].addr && s.con[i].life != s.con[j].life)
    && (forall l :: 0 <= l < |s.lives| ==> WellPrinted(s.lives[l]))
    && (forall l :: 0 <= l < |s.lives| ==> Ended(s.lives[l]) || Served(s, l))
  }

  /** Some live entry is collecting lifetime l. */
  ghost predicate Served(s: Server, l: int)
  {
    exists i: nat :: Live(s, i) && s.con[i].life == l
  }

  ghost predicate Extends(l: Lifetime, m: Lifetime, addr: nat, d: Datagram)
  {
    l.addr == addr && d.number == |l.printed| + 1 && m == Lifetime(addr, l.printed + [d])
  }

  /** The lifetimes after a datagram: the same, at most one new, at most one longer by d. */
  ghost predicate LivesGrow(s: Server, t: Server, addr: nat, d: Datagram)
  {
    && |s.lives| <= |t.lives| <= |s.lives| + 1
    && (forall l :: 0 <= l < |s.lives| ==> t.lives[l] == s.lives[l] || Extends(s.lives[l], t.lives[l], addr, d))
    && (|t.lives| > |s.lives| ==>
         (t.lives[|s.lives|] == Lifetime(addr, []) || Extends(Lifetime(addr, []), t.lives[|s.lives|], addr, d)))
  }

  lemma FindKeeps(s: Server, addr: nat)
    requires ServerInv(s)
    ensures var (t, pos) := Find(s, addr);
      && ServerInv(t)
      && |t.con| == |s.con| && |s.lives| <= |t.lives| <= |s.lives| + 1 && t.lives[..|s.lives|] == s.lives
      && (|t.lives| > |s.lives| ==> t.lives[|s.lives|] == Lifetime(addr, []))
      && (pos.Some? ==> pos.value < |t.con| && Live(t, pos.value) && t.con[pos.value].addr == addr)
  {
    var (t, pos) := Find(s, addr);
    if pos.Some? && t != s {
      forall l | 0 <= l < |t.lives|
        ensures Ended(t.lives[l]) || Served(t, l)
      {
        if l < |s.lives| {
          if !Ended(s.lives[l]) {
            var i: nat :| Live(s, i) && s.con[i].life == l;
            assert Live(t, i) && t.con[i].life == l;
          }
        } else {
          assert Live(t, pos.value) && t.con[pos.value].life == l;
        }
      }
      forall i | 0 <= i < |t.con|
        ensures SlotOk(t, i)
      {
        assert SlotOk(s, i);
      }
      forall i: nat, j: nat | i < j && Live(t, i) && Live(t, j)
        ensures t.con[i].addr != t.con[j].addr && t.con[i].life != t.con[j].life
      {
        assert SlotOk(s, i) && SlotOk(s, j);
      }
    }
  }

  /** Accepting the next chunk on live entry i. */
  lemma AcceptKeeps(t: Server, i: nat, d: Datagram)
    requires ServerInv(t) && Live(t, i) && d.number == t.con[i].chunkNo + 1
    ensures t.con[i].life < |t.lives|
    ensures ServerInv(Server(t.con[i := t.con[i].(free := d.last, chunkNo := t.con[i].chunkNo + 1)], Print(t.lives, t.con[i].life, d)))
  {
    assert SlotOk(t, i);
    var here := t.con[i].life;
    var u := Server(t.con[i := t.con[i].(free := d.last, chunkNo := t.con[i].chunkNo + 1)], Print(t.lives, here, d));
    forall k | 0 <= k < |u.con|
      ensures SlotOk(u, k)
    {
      assert SlotOk(t, k);
      if k != i && Live(t, k) {
        assert t.con[k].life != here;
      }
    }
    forall l | 0 <= l < |u.lives|
      ensures Ended(u.lives[l]) || Served(u, l)
    {
      if l == here {
        assert d.last || (Live(u, i) && u.con[i].life == l);
      } else if !Ended(t.lives[l]) {
        var k: nat :| Live(t, k) && t.con[k].life == l;
        assert Live(u, k) && u.con[k].life == l;
      }
    }
  }

  /** Whatever datagram arrives from whomever, the table and the printed record stay right. */
  lemma HandleKeeps(s: Server, addr: nat, d: Datagram)
    requires ServerInv(s)
    ensures ServerInv(Handle(s, addr, d).0) && |Handle(s, addr, d).0.con| == |s.con|
    ensures LivesGrow(s, Handle(s, addr, d).0, addr, d)
  {
    FindKeeps(s, addr);
    var (t, pos) := Find(s, addr);
    assert forall l :: 0 <= l < |s.lives| ==> t.lives[l] == t.lives[..|s.lives|][l];
    if pos.Some? {
      assert SlotOk(t, pos.value);
      if d.number == t.con[pos.value].chunkNo + 1 {
        AcceptKeeps(t, pos.value, d);
      }
    }
  }

  /** An echo is a promise: some lifetime of that address has by then printed chunk d.number (if it is a chunk number at all). */
  lemma EchoMeansPrinted(s: Server, addr: nat, d: Datagram)
    requires ServerInv(s) && Handle(s, addr, d).1
    ensures var t := Handle(s, addr, d).0;
      exists l :: 0 <= l < |t.lives| && t.lives[l].addr == addr && d.number <= |t.lives[l].printed|
  {
    FindKeeps(s, addr);
    HandleKeeps(s, addr, d);
    var (u, pos) := Find(s, addr);
    var t := Handle(s, addr, d).0;
    assert SlotOk(u, pos.value);
    var l := u.con[pos.value].life;
    assert t.lives[l].addr == addr && d.number <= |t.lives[l].printed|;
  }

  /** And what is not echoed is not printed: at most an empty lifetime has been begun. */
  lemma PrintedMeansEcho(s: Server, addr: nat, d: Datagram)
    requires ServerInv(s) && !Handle(s, addr, d).1
    ensures var t := Handle(s, addr, d).0; t.lives == s.lives || t.lives == s.lives + [Lifetime(addr, [])]
  {
    FindKeeps(s, addr);
  }

  /** Live entry i is the one found for its address. */
  lemma FoundLive(s: Server, i: nat)
    requires ServerInv(s) && Live(s, i)
    ensures Find(s, s.con[i].addr) == (s, Some(i))
  {
    var k := LiveFrom(s.con, s.con[i].addr, 0).value;
    assert Live(s, k);
  }

  /** A chunk that the entry's lifetime has printed already is acknowledged again, and nothing else happens. */
  lemma ReAcks(s: Server, i: nat, d: Datagram)
    requires ServerInv(s) && Live(s, i) && s.con[i].life < |s.lives| && d.number <= |s.lives[s.con[i].life].printed|
    ensures Handle(s, s.con[i].addr, d) == (s, true)
  {
    FoundLive(s, i);
    assert SlotOk(s, i);
  }

  /** The next chunk is printed, acknowledged, and frees the entry exactly if it is flagged last. */
  lemma TakesNext(s: Server, i: nat, d: Datagram)
    requires ServerInv(s) && Live(s, i) && s.con[i].life < |s.lives| && d.number == |s.lives[s.con[i].life].printed| + 1
    ensures var (t, echo) := Handle(s, s.con[i].addr, d); var l := s.con[i].life;
      && echo && |t.con| == |s.con| && |t.lives| == |s.lives| && t.lives[l].printed == s.lives[l].printed + [d]
      && (Live(t, i) <==> !d.last) && t.con[i].addr == s.con[i].addr && t.con[i].life == l
      && (forall k :: 0 <= k < |s.con| && k != i ==> t.con[k] == s.con[k])
      && (forall m :: 0 <= m < |s.lives| && m != l ==> t.lives[m] == s.lives[m])
  {
    FoundLive(s, i);
    assert SlotOk(s, i);
  }

  /** A chunk further ahead is dropped without an answer. */
  lemma DropsAhead(s: Server, i: nat, d: Datagram)
    requires ServerInv(s) && Live(s, i) && s.con[i].life < |s.lives| && d.number > |s.lives[s.con[i].life].printed| + 1
    ensures Handle(s, s.con[i].addr, d) == (s, false)
  {
    FoundLive(s, i);
    assert SlotOk(s, i);
  }

  /** Traffic of one address never touches the live entry of another. */
  lemma OthersUntouched(s: Server, addr: nat, d: Datagram, i: nat)
    requires ServerInv(s) && Live(s, i) && s.con[i].addr != addr
    ensures var t := Handle(s, addr, d).0;
      |t.con| == |s.con| && t.con[i] == s.con[i] && s.con[i].life < |s.lives| <= |t.lives| && t.lives[s.con[i].life] == s.lives[s.con[i].life]
  {
    FindKeeps(s, addr);
    var (t, pos) := Find(s, addr);
    assert SlotOk(s, i);
    assert t.lives[s.con[i].life] == t.lives[..|s.lives|][s.con[i].life];
    if pos.Some? {
      assert pos.value != i;
      assert Live(t, i) && t.con[i] == s.con[i];
      assert t.con[pos.value].life != t.con[i].life;
    }
  }

  // ---- the code, in place ----

  class Connections {
    const con: array<Slot>
    var lives: seq<Lifetime>  // history: what has been printed

    function View(): Server
      reads this, con
    {
      Server(con[..], lives)
    }

    /** doServer's prologue: every entry free. */
    constructor (n: nat)
      ensures fresh(con) && con.Length == n && lives == []
      ensures ServerInv(View()) && forall i :: 0 <= i < n ==> con[i].free
    {
      con := new Slot[n](_ => Slot(true, 0, 0, 0));
      lives := [];
    }

    method FindIndex(addr: nat) returns (pos: int)
      modifies this`lives, con
      ensures View() == Find(old(View()), addr).0
      ensures match Find(old(View()), addr).1 case Some(k) => pos == k case None => pos == -1
    {
      var empty := -1;
      pos := -1;
      ghost var was := con[..];
      var i := 0;
      while i < con.Length
        invariant 0 <= i <= con.Length && pos == -1 && con[..] == was && lives == old(lives)
        invariant LiveFrom(was, addr, 0) == LiveFrom(was, addr, i)
        invariant match LastFree(was, i) case Some(k) => empty == k case None => empty == -1
      {
        if con[i].free {
          empty := i;
        } else if con[i].addr == addr {
          pos := i;
          break;
        }
        i := i + 1;
      }
      if pos == -1 && empty != -1 {
        con[empty] := Slot(false, 0, addr, |lives|);
        lives := lives + [Lifetime(addr, [])];
        pos := empty;
      }
    }

    /** One turn of the receive loop. */
    method Receive(addr: nat, d: Datagram) returns (echo: bool)
      modifies this`lives, con
      ensures View() == Handle(old(View()), addr, d).0 && echo == Handle(old(View()), addr, d).1
    {
      var index := FindIndex(addr);
      echo := false;
      if index >= 0 {
        if d.number > con[index].chunkNo + 1 {
          return;
        } else if d.number == con[index].chunkNo + 1 {
          lives := Print(lives, con[index].life, d);
          if d.last {
            con[index] := con[index].(free := true);
          }
          con[index] := con[index].(chunkNo := con[index].chunkNo + 1);
        }
        echo := true;
      }
    }
  }
}
