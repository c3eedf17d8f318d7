/**
 One transfer over a link that loses and duplicates but keeps the order, against a server that
 serves anybody else at the same time: is any chunk ever printed twice?
 */
module TransferFifo {
  import opened Counting
  import opened TransferServer
  import opened TransferFile
  import opened TransferClient

  datatype Link = Link(server: Server, c: Client, dataQ: seq<Datagram>, echoQ: seq<Datagram>)

  datatype Event =
    | Send | Hear | Alarm
    | LoseData(i: nat) | LoseEcho(i: nat)
    | DupData(i: nat) | DupEcho(i: nat)
    | Arrive
    | Other(addr: nat, d: Datagram)

  function Without<T>(q: seq<T>, i: nat): seq<T>
    requires i < |q|
  {
    q[..i] + q[i + 1..]
  }

  /** q with element i doubled in its place. */
  function Twice<T>(q: seq<T>, i: nat): seq<T>
    requires i < |q|
  {
    q[..i] + [q[i]] + q[i..]
  }

  /** a is the client's address. */
  function Next(s: Link, a: nat, e: Event): Option<Link>
    requires s.c.k < |s.c.plan|
  {
    match e
    case Send =>
      if s.c.phase.Sending? then Some(s.(c := Sent(s.c), dataQ := s.dataQ + [s.c.plan[s.c.k]])) else None
    case Hear =>
      if s.c.phase.Waiting? && s.echoQ != [] then Some(s.(c := Heard(s.c, Some(s.echoQ[0].number)), echoQ := s.echoQ[1..])) else None
    case Alarm =>
      if s.c.phase.Waiting? then Some(s.(c := Heard(s.c, None))) else None
    case LoseData(i) => if i < |s.dataQ| then Some(s.(dataQ := Without(s.dataQ, i))) else None
    case LoseEcho(i) => if i < |s.echoQ| then Some(s.(echoQ := Without(s.echoQ, i))) else None
    case DupData(i) => if i < |s.dataQ| then Some(s.(dataQ := Twice(s.dataQ, i))) else None
    case DupEcho(i) => if i < |s.echoQ| then Some(s.(echoQ := Twice(s.echoQ, i))) else None
    case Arrive =>
      if s.dataQ == [] then None
      else
        var (t, echo) := Handle(s.server, a, s.dataQ[0]);
        Some(s.(server := t, dataQ := s.dataQ[1..], echoQ := if echo then s.echoQ + [s.dataQ[0]] else s.echoQ))
    case Other(addr, d) =>
      if addr == a then None else Some(s.(server := Handle(s.server, addr, d).0))
  }

  function Run(s: Link, a: nat, events: seq<Event>): (t: Link)
    requires IsPlan(s.c.plan) && s.c.k < |s.c.plan|
    ensures t.c.plan == s.c.plan && t.c.k < |t.c.plan|
  {
    if events == [] then s
    else
      var u := Run(s, a, events[..|events| - 1]);
      match Next(u, a, events[|events| - 1]) case None => u case Some(t) => t
  }

  /** Everything printed for address a, over all lifetimes. */
  function Output(lives: seq<Lifetime>, a: nat): seq<Datagram>
  {
    if lives == [] then []
    else
      var last := lives[|lives| - 1];
      Output(lives[..|lives| - 1], a) + (if last.addr == a then last.printed else [])
  }

  /** A transfer about to start against a server in any state in which it knows nothing of address a. */
  ghost predicate Init(s: Link, a: nat)
  {
    && IsPlan(s.c.plan) && s.c == Fresh(s.c.plan) && s.dataQ == [] && s.echoQ == []
    && ServerInv(s.server) && (forall l :: 0 <= l < |s.server.lives| ==> s.server.lives[l].addr != a)
  }

  // ---- how the printed output changes ----

  lemma {:induction false} OutputNothing(lives: seq<Lifetime>, a: nat)
    requires forall l :: 0 <= l < |lives| ==> lives[l].addr != a
    ensures Output(lives, a) == []
  {
    if lives != [] {
      OutputNothing(lives[..|lives| - 1], a);
    }
  }

  lemma OutputNew(lives: seq<Lifetime>, b: nat, a: nat)
    ensures Output(lives + [Lifetime(b, [])], a) == Output(lives, a)
  {
    var more := lives + [Lifetime(b, [])];
    assert more[..|more| - 1] == lives;
  }

  /** Printing d in lifetime l adds d at the end if l is a's latest, and nothing if l is not a's. */
  lemma {:induction false} OutputPrint(lives: seq<Lifetime>, l: nat, d: Datagram, a: nat)
    requires l < |lives|
    requires lives[l].addr == a ==> forall m :: l < m < |lives| ==> lives[m].addr != a
    ensures Output(Print(lives, l, d), a) == Output(lives, a) + (if lives[l].addr == a then [d] else [])
  {
    var now := Print(lives, l, d);
    var front := lives[..|lives| - 1];
    if l < |lives| - 1 {
      assert now[..|now| - 1] == Print(front, l, d);
      OutputPrint(front, l, d, a);
    } else {
      assert now[..|now| - 1] == front;
    }
  }

  // ---- invariant ----

  /** The live entry of a, if any, serves a's latest lifetime and expects chunk number chunk + 1. */
  ghost predicate EntryOk(s: Server, a: nat, i: nat, chunk: int)
    requires i < |s.con|
  {
    Live(s, i) && s.con[i].addr == a ==>
      && s.con[i].chunkNo == chunk
      && forall m :: s.con[i].life < m < |s.lives| ==> s.lives[m].addr != a
  }

  ghost predicate NoEntry(s: Server, a: nat)
  {
    forall i: nat :: Live(s, i) ==> s.con[i].addr != a
  }

  function Expected(got: nat, total: nat): int { if got < total then got else 0 }

  /** got chunks have been printed; a live entry after that is a leftover that expects chunk 1. */
  ghost predicate TableOk(s: Server, a: nat, got: nat, total: nat)
  {
    && ServerInv(s)
    && (forall i :: 0 <= i < |s.con| ==> EntryOk(s, a, i, Expected(got, total)))
    && (NoEntry(s, a) ==> got == 0 || got == total)
  }

  /** Datagrams in flight: chunks of the plan between lo and hi, in order. */
  ghost predicate DataOk(q: seq<Datagram>, plan: seq<Datagram>, lo: int, hi: int)
  {
    && (forall j :: 0 <= j < |q| ==> q[j] in plan && lo <= q[j].number <= hi)
    && (forall i, j :: 0 <= i < j < |q| ==> q[i].number <= q[j].number)
  }

  ghost predicate EchoOk(q: seq<Datagram>, hi: int)
  {
    forall j :: 0 <= j < |q| ==> q[j].number <= hi
  }

  ghost predicate Inv(s: Link, a: nat)
  {
    var out := Output(s.server.lives, a);
    var got, total := |out|, |s.c.plan|;
    && IsPlan(s.c.plan) && s.c.k < total && out <= s.c.plan
    && s.c.k <= got <= s.c.k + 1
    && TableOk(s.server, a, got, total)
    && DataOk(s.dataQ, s.c.plan, got, s.c.k + 1)
    && EchoOk(s.echoQ, got)
  }

  lemma InitInv(s: Link, a: nat)
    requires Init(s, a)
    ensures Inv(s, a)
  {
    OutputNothing(s.server.lives, a);
    NothingKnown(s.server, a);
    assert forall i :: 0 <= i < |s.server.con| ==> EntryOk(s.server, a, i, Expected(0, |s.c.plan|));
  }

  lemma NothingKnown(s: Server, a: nat)
    requires ServerInv(s) && forall l :: 0 <= l < |s.lives| ==> s.lives[l].addr != a
    ensures NoEntry(s, a)
  {
    forall i: nat | Live(s, i)
      ensures s.con[i].addr != a
    {
      assert SlotOk(s, i);
    }
  }

  lemma FindOutput(s: Server, addr: nat, a: nat)
    ensures Output(Find(s, addr).0.lives, a) == Output(s.lives, a)
  {
    OutputNew(s.lives, addr, a);
  }

  /** Entry i is a's before another address is served exactly if it is a's afterwards, and it is the same. */
  lemma OtherEntry(s: Server, addr: nat, d: Datagram, a: nat, i: nat)
    requires ServerInv(s) && addr != a && i < |s.con|
    ensures var t := Handle(s, addr, d).0;
      && |t.con| == |s.con|
      && (Live(t, i) && t.con[i].addr == a <==> Live(s, i) && s.con[i].addr == a)
      && (Live(s, i) && s.con[i].addr == a ==> t.con[i] == s.con[i])
  {
    FindKeeps(s, addr);
    if Live(s, i) && s.con[i].addr == a {
      OthersUntouched(s, addr, d, i);
    }
  }

  lemma OtherOutput(s: Server, addr: nat, d: Datagram, a: nat)
    requires ServerInv(s) && addr != a
    ensures Output(Handle(s, addr, d).0.lives, a) == Output(s.lives, a)
  {
    FindKeeps(s, addr);
    FindOutput(s, addr, a);
    var (u, pos) := Find(s, addr);
    if pos.Some? {
      assert SlotOk(u, pos.value);
      OutputPrint(u.lives, u.con[pos.value].life, d, a);
    }
  }

  /** Other addresses leave a's entry and output alone. */
  lemma OtherKeeps(s: Server, addr: nat, d: Datagram, a: nat, got: nat, total: nat)
    requires TableOk(s, a, got, total) && addr != a
    ensures TableOk(Handle(s, addr, d).0, a, got, total)
  {
    var t := Handle(s, addr, d).0;
    HandleKeeps(s, addr, d);
    forall i | 0 <= i < |t.con|
      ensures EntryOk(t, a, i, Expected(got, total))
    {
      OtherEntry(s, addr, d, a, i);
      assert EntryOk(s, a, i, Expected(got, total));
    }
    if NoEntry(t, a) && !NoEntry(s, a) {
      var i: nat :| Live(s, i) && s.con[i].addr == a;
      OtherEntry(s, addr, d, a, i);
    }
  }

  /** After findIndex for a itself there is an entry, expecting what it should, or the table is full. */
  lemma FindOwn(s: Server, a: nat, got: nat, total: nat)
    requires TableOk(s, a, got, total)
    ensures var (t, pos) := Find(s, a);
      && TableOk(t, a, got, total)
      && (pos.None? ==> t == s)
      && (pos.Some? ==>
           (pos.value < |t.con| && Live(t, pos.value) && t.con[pos.value].addr == a
            && t.con[pos.value].chunkNo == Expected(got, total)))
  {
    FindKeeps(s, a);
    var (t, pos) := Find(s, a);
    var chunk := Expected(got, total);
    forall i | 0 <= i < |t.con|
      ensures EntryOk(t, a, i, chunk)
    {
      assert EntryOk(s, a, i, chunk);
    }
    if pos.Some? {
      assert EntryOk(t, a, pos.value, chunk);
    }
  }

  /** A chunk a's server entry accepts: the output grows by exactly it. */
  lemma AcceptOwn(t: Server, a: nat, i: nat, d: Datagram, got: nat, total: nat)
    requires TableOk(t, a, got, total) && Live(t, i) && t.con[i].addr == a && got < total
    requires d.number == got + 1 == t.con[i].chunkNo + 1 && (d.last <==> got + 1 == total)
    ensures t.con[i].life < |t.lives|
    ensures var u := Server(t.con[i := t.con[i].(free := d.last, chunkNo := t.con[i].chunkNo + 1)], Print(t.lives, t.con[i].life, d));
      TableOk(u, a, got + 1, total) && Output(u.lives, a) == Output(t.lives, a) + [d]
  {
    assert EntryOk(t, a, i, Expected(got, total)) && SlotOk(t, i);
    AcceptKeeps(t, i, d);
    OutputPrint(t.lives, t.con[i].life, d, a);
    var u := Server(t.con[i := t.con[i].(free := d.last, chunkNo := t.con[i].chunkNo + 1)], Print(t.lives, t.con[i].life, d));
    var now := got + 1;
    forall j | 0 <= j < |u.con|
      ensures EntryOk(u, a, j, Expected(now, total))
    {
      assert EntryOk(t, a, j, Expected(got, total));
      if j != i && Live(u, j) {
        assert Live(t, j) && t.con[j].addr != a;
      }
    }
    if !d.last {
      assert Live(u, i) && u.con[i].addr == a;
    }
  }

  lemma ServeOther(s: Server, a: nat, d: Datagram, got: nat, total: nat)
    requires TableOk(s, a, got, total) && total >= 2 && got <= total
    requires got <= d.number && (got == total ==> d.number == total) && !(got < total && d.number == got + 1)
    ensures var (t, echo) := Handle(s, a, d);
      TableOk(t, a, got, total) && Output(t.lives, a) == Output(s.lives, a) && (echo ==> d.number <= got)
  {
    FindOwn(s, a, got, total);
    FindOutput(s, a, a);
  }

  /** The accepting branch of Handle, and the full table. */
  lemma Accepts(s: Server, a: nat, d: Datagram)
    requires var (t, pos) := Find(s, a); pos.Some? ==> pos.value < |t.con| && d.number == t.con[pos.value].chunkNo + 1
    ensures var (t, pos) := Find(s, a);
      match pos
      case None => Handle(s, a, d) == (t, false)
      case Some(i) =>
        Handle(s, a, d) ==
        (Server(t.con[i := t.con[i].(free := d.last, chunkNo := t.con[i].chunkNo + 1)], Print(t.lives, t.con[i].life, d)), true)
  {
  }

  lemma ServeExpected(s: Server, a: nat, d: Datagram, got: nat, total: nat)
    requires TableOk(s, a, got, total) && got < total && d.number == got + 1 && (d.last <==> d.number == total)
    ensures var (t, echo) := Handle(s, a, d);
      if Find(s, a).1.None? then t == s && !echo
      else TableOk(t, a, got + 1, total) && Output(t.lives, a) == Output(s.lives, a) + [d]
  {
    FindOwn(s, a, got, total);
    Accepts(s, a, d);
    var (t, pos) := Find(s, a);
    if pos.Some? {
      FindOutput(s, a, a);
      AcceptOwn(t, a, pos.value, d, got, total);
    }
  }

  /** What serving a's own datagram d does: print the next chunk, or nothing. */
  lemma ServeOwn(s: Server, a: nat, d: Datagram, got: nat, total: nat)
    requires TableOk(s, a, got, total) && total >= 2 && got <= total
    requires got <= d.number && (d.last <==> d.number == total) && (got == total ==> d.number == total)
    ensures var (t, echo) := Handle(s, a, d);
      || (TableOk(t, a, got, total) && Output(t.lives, a) == Output(s.lives, a) && (echo ==> d.number <= got))
      || (TableOk(t, a, got + 1, total) && Output(t.lives, a) == Output(s.lives, a) + [d] && got < total && d.number == got + 1)
  {
    if got < total && d.number == got + 1 {
      ServeExpected(s, a, d, got, total);
    } else {
      ServeOther(s, a, d, got, total);
    }
  }

  lemma DataTail(q: seq<Datagram>, plan: seq<Datagram>, lo: int, now: int, hi: int)
    requires DataOk(q, plan, lo, hi) && q != [] && now <= q[0].number
    ensures DataOk(q[1..], plan, now, hi)
  {
  }

  lemma DataAppend(q: seq<Datagram>, plan: seq<Datagram>, lo: int, hi: int, d: Datagram)
    requires DataOk(q, plan, lo, hi) && d in plan && lo <= hi == d.number
    ensures DataOk(q + [d], plan, lo, hi)
  {
  }

  lemma DataWithout(q: seq<Datagram>, plan: seq<Datagram>, lo: int, hi: int, i: nat)
    requires DataOk(q, plan, lo, hi) && i < |q|
    ensures DataOk(Without(q, i), plan, lo, hi)
  {
  }

  lemma DataTwice(q: seq<Datagram>, plan: seq<Datagram>, lo: int, hi: int, i: nat)
    requires DataOk(q, plan, lo, hi) && i < |q|
    ensures DataOk(Twice(q, i), plan, lo, hi)
  {
  }

  lemma EchoTwice(q: seq<Datagram>, hi: int, i: nat)
    requires EchoOk(q, hi) && i < |q|
    ensures EchoOk(Twice(q, i), hi)
  {
  }

  /** An arrival that prints nothing. */
  lemma ArriveQuiet(s: Link, a: nat, t: Server, echo: bool)
    requires Inv(s, a) && s.dataQ != [] && (t, echo) == Handle(s.server, a, s.dataQ[0])
    requires TableOk(t, a, |Output(s.server.lives, a)|, |s.c.plan|) && Output(t.lives, a) == Output(s.server.lives, a)
    requires echo ==> s.dataQ[0].number <= |Output(s.server.lives, a)|
    ensures Inv(Next(s, a, Arrive).value, a)
  {
    var got := |Output(s.server.lives, a)|;
    DataTail(s.dataQ, s.c.plan, got, got, s.c.k + 1);
  }

  /** An arrival that prints the next chunk. */
  lemma ArrivePrints(s: Link, a: nat, t: Server, echo: bool)
    requires Inv(s, a) && s.dataQ != [] && (t, echo) == Handle(s.server, a, s.dataQ[0])
    requires TableOk(t, a, |Output(s.server.lives, a)| + 1, |s.c.plan|)
    requires Output(t.lives, a) == Output(s.server.lives, a) + [s.dataQ[0]]
    requires s.dataQ[0].number == |Output(s.server.lives, a)| + 1
    ensures Inv(Next(s, a, Arrive).value, a)
  {
    var got := |Output(s.server.lives, a)|;
    DataTail(s.dataQ, s.c.plan, got, got + 1, s.c.k + 1);
    PrefixGrows(Output(s.server.lives, a), s.c.plan, s.dataQ[0]);
    EchoAppend(s.echoQ, s.dataQ[0], got, got + 1);
  }

  lemma EchoAppend(q: seq<Datagram>, d: Datagram, hi: int, now: int)
    requires EchoOk(q, hi) && hi <= now && d.number <= now
    ensures EchoOk(q, now) && EchoOk(q + [d], now)
  {
  }

  lemma PrefixGrows(out: seq<Datagram>, plan: seq<Datagram>, d: Datagram)
    requires IsPlan(plan) && out <= plan && d in plan && d.number == |out| + 1
    ensures out + [d] <= plan
  {
  }

  /** The next datagram in order arrives: an old one is echoed, the next is printed, a leftover is dropped. */
  lemma ArriveKeeps(s: Link, a: nat)
    requires Inv(s, a) && |s.c.plan| >= 2 && s.dataQ != []
    ensures Inv(Next(s, a, Arrive).value, a)
  {
    var d := s.dataQ[0];
    var got, total := |Output(s.server.lives, a)|, |s.c.plan|;
    var n :| 0 <= n < total && s.c.plan[n] == d;
    ServeOwn(s.server, a, d, got, total);
    var (t, echo) := Handle(s.server, a, d);
    if Output(t.lives, a) == Output(s.server.lives, a) {
      ArriveQuiet(s, a, t, echo);
    } else {
      ArrivePrints(s, a, t, echo);
    }
  }

  lemma ClientMoves(s: Link, a: nat, e: Event)
    requires Inv(s, a) && (e.Send? || e.Hear? || e.Alarm?) && Next(s, a, e).Some?
    ensures Inv(Next(s, a, e).value, a)
  {
    var got := |Output(s.server.lives, a)|;
    var t := Next(s, a, e).value;
    if e.Send? {
      DataAppend(s.dataQ, s.c.plan, got, s.c.k + 1, s.c.plan[s.c.k]);
    }
  }

  lemma StepKeeps(s: Link, a: nat, e: Event)
    requires Inv(s, a) && |s.c.plan| >= 2 && Next(s, a, e).Some?
    ensures Inv(Next(s, a, e).value, a)
  {
    match e
    case Arrive => ArriveKeeps(s, a);
    case Other(addr, d) =>
      OtherOutput(s.server, addr, d, a);
      OtherKeeps(s.server, addr, d, a, |Output(s.server.lives, a)|, |s.c.plan|);
    case LoseData(i) => DataWithout(s.dataQ, s.c.plan, |Output(s.server.lives, a)|, s.c.k + 1, i);
    case LoseEcho(i) =>
    case DupData(i) => DataTwice(s.dataQ, s.c.plan, |Output(s.server.lives, a)|, s.c.k + 1, i);
    case DupEcho(i) => EchoTwice(s.echoQ, |Output(s.server.lives, a)|, i);
    case Send => ClientMoves(s, a, e);
    case Hear => ClientMoves(s, a, e);
    case Alarm => ClientMoves(s, a, e);
  }

  lemma {:induction false} RunKeeps(s: Link, a: nat, events: seq<Event>)
    requires Init(s, a) && |s.c.plan| >= 2
    ensures Inv(Run(s, a, events), a)
  {
    if events == [] {
      InitInv(s, a);
    } else {
      RunKeeps(s, a, events[..|events| - 1]);
      var u := Run(s, a, events[..|events| - 1]);
      if Next(u, a, events[|events| - 1]).Some? {
        StepKeeps(u, a, events[|events| - 1]);
      }
    }
  }

  // ---- exactly when no chunk is printed twice ----

  ghost predicate AtMostOnce(s: Link, a: nat)
    requires IsPlan(s.c.plan) && s.c.k < |s.c.plan|
  {
    forall events :: Output(Run(s, a, events).server.lives, a) <= s.c.plan
  }

  lemma RunOne(s: Link, a: nat, events: seq<Event>, e: Event)
    requires IsPlan(s.c.plan) && s.c.k < |s.c.plan|
    ensures Run(s, a, events + [e]) == match Next(Run(s, a, events), a, e) case None => Run(s, a, events) case Some(t) => t
  {
    assert (events + [e])[..|events + [e]| - 1] == events;
  }

  lemma RunOneMore(s: Link, a: nat, first: seq<Event>, front: seq<Event>, e: Event)
    requires IsPlan(s.c.plan) && s.c.k < |s.c.plan| && Run(s, a, first + front) == Run(Run(s, a, first), a, front)
    ensures Run(s, a, first + front + [e]) == Run(Run(s, a, first), a, front + [e])
  {
    RunOne(s, a, first + front, e);
    RunOne(Run(s, a, first), a, front, e);
  }

  lemma SplitLast<T>(first: seq<T>, second: seq<T>)
    requires second != []
    ensures first + second == first + second[..|second| - 1] + [second[|second| - 1]]
    ensures second == second[..|second| - 1] + [second[|second| - 1]]
  {
  }

  lemma {:induction false} RunConcat(s: Link, a: nat, first: seq<Event>, second: seq<Event>)
    requires IsPlan(s.c.plan) && s.c.k < |s.c.plan|
    ensures Run(s, a, first + second) == Run(Run(s, a, first), a, second)
    decreases |second|
  {
    if second == [] {
      assert first + second == first;
    } else {
      RunConcat(s, a, first, second[..|second| - 1]);
      RunOneMore(s, a, first, second[..|second| - 1], second[|second| - 1]);
      SplitLast(first, second);
    }
  }

  /** A last chunk from the address that holds the first entry frees it. */
  lemma FreesFirst(s: Server, d: Datagram)
    requires |s.con| > 0 && !s.con[0].free && d.number == s.con[0].chunkNo + 1 && d.last
    ensures var t := Handle(s, s.con[0].addr, d).0; |t.con| == |s.con| && t.con[0].free
  {
  }

  lemma StillUnknown(s: Server, b: nat, d: Datagram, a: nat)
    requires ServerInv(s) && a != b && forall l :: 0 <= l < |s.lives| ==> s.lives[l].addr != a
    ensures var t := Handle(s, b, d).0; forall l :: 0 <= l < |t.lives| ==> t.lives[l].addr != a
  {
    HandleKeeps(s, b, d);
  }

  /** The last chunk of whoever holds the first entry of a full table makes room in it. */
  lemma MakesRoom(s: Link, a: nat) returns (events: seq<Event>)
    requires Init(s, a) && |s.server.con| > 0
    ensures var t := Run(s, a, events); Init(t, a) && Roomy(t.server) && t.c == s.c && |t.server.con| == |s.server.con|
  {
    assert Run(s, a, []) == s;
    events := [];
    if !Roomy(s.server) {
      assert !s.server.con[0].free;
      var b := s.server.con[0].addr;
      NothingKnown(s.server, a);
      assert Live(s.server, 0);
      var d := Datagram(s.server.con[0].chunkNo + 1, true, []);
      HandleKeeps(s.server, b, d);
      StillUnknown(s.server, b, d, a);
      FreesFirst(s.server, d);
      RunOne(s, a, [], Other(b, d));
      events := [] + [Other(b, d)];
    }
  }

  /** A one-chunk transfer whose first echo is slow: the resent chunk is printed again; no copy is needed. */
  lemma OneChunkTwice(s: Link, a: nat)
    requires Init(s, a) && |s.c.plan| == 1 && |s.server.con| > 0
    ensures !AtMostOnce(s, a)
  {
    var first := MakesRoom(s, a);
    var t := Run(s, a, first);
    var second := Resend(t, a);
    PrintedTwice(t.server, a, t.c.plan[0]);
    RunConcat(s, a, first, second);
    assert |Output(Run(s, a, first + second).server.lives, a)| > |s.c.plan|;
  }

  lemma NoTableStep(s: Link, a: nat, e: Event)
    requires s.c.k < |s.c.plan| && s.server.con == [] && Next(s, a, e).Some?
    ensures Next(s, a, e).value.server == s.server
  {
  }

  /** A server without a table never prints anything. */
  lemma {:induction false} NoTable(s: Link, a: nat, events: seq<Event>)
    requires Init(s, a) && s.server.con == []
    ensures Run(s, a, events).server == s.server
  {
    if events != [] {
      var front := events[..|events| - 1];
      NoTable(s, a, front);
      if Next(Run(s, a, front), a, events[|events| - 1]).Some? {
        NoTableStep(Run(s, a, front), a, events[|events| - 1]);
      }
    }
  }

  /** Send, arrive, alarm, send, arrive: the server handles the first datagram twice. */
  lemma Resend(s: Link, a: nat) returns (events: seq<Event>)
    requires Init(s, a)
    ensures var d := s.c.plan[0]; Run(s, a, events).server == Handle(Handle(s.server, a, d).0, a, d).0
  {
    assert Run(s, a, []) == s;
    var s2 := SendArrive(s, a, []);
    var past := [] + [Send, Arrive];
    AlarmTurn(s, a, past);
    events := past + [Alarm] + [Send, Arrive];
    var s5 := SendArrive(s, a, past + [Alarm]);
  }

  lemma PrintedTwice(s: Server, a: nat, d: Datagram)
    requires ServerInv(s) && (forall l :: 0 <= l < |s.lives| ==> s.lives[l].addr != a) && Roomy(s) && d.number == 1 && d.last
    ensures Output(Handle(Handle(s, a, d).0, a, d).0.lives, a) == [d, d]
  {
    NothingKnown(s, a);
    OutputNothing(s.lives, a);
    FreshPrint(s, a, d);
    FreshPrint(Handle(s, a, d).0, a, d);
  }

  lemma AlarmTurn(s: Link, a: nat, past: seq<Event>)
    requires IsPlan(s.c.plan) && s.c.k < |s.c.plan| && Run(s, a, past).c.phase.Waiting?
    ensures Run(s, a, past + [Alarm]) == Run(s, a, past).(c := Heard(Run(s, a, past).c, None))
  {
    RunOne(s, a, past, Alarm);
  }

  /** From a client about to send and an empty data queue: send, and let it arrive. */
  lemma SendArrive(s: Link, a: nat, past: seq<Event>) returns (s2: Link)
    requires IsPlan(s.c.plan) && s.c.k < |s.c.plan|
    requires Run(s, a, past).c.phase.Sending? && Run(s, a, past).dataQ == []
    ensures var u := Run(s, a, past); var d := u.c.plan[u.c.k];
      && s2 == Run(s, a, past + [Send, Arrive])
      && s2.server == Handle(u.server, a, d).0 && s2.c == Sent(u.c) && s2.dataQ == []
      && s2.echoQ == u.echoQ + (if Handle(u.server, a, d).1 then [d] else [])
  {
    RunOne(s, a, past, Send);
    RunOne(s, a, past + [Send], Arrive);
    assert past + [Send] + [Arrive] == past + [Send, Arrive];
    s2 := Run(s, a, past + [Send, Arrive]);
  }

  ghost predicate Roomy(s: Server) { exists i: nat :: i < |s.con| && s.con[i].free }

  /** With no entry for a and room for one, datagram 1 flagged last is printed and the entry freed again. */
  lemma FreshPrint(s: Server, a: nat, d: Datagram)
    requires ServerInv(s) && NoEntry(s, a) && d.number == 1 && d.last
    requires Roomy(s)
    ensures var t := Handle(s, a, d).0;
      && ServerInv(t) && NoEntry(t, a) && Roomy(t) && Handle(s, a, d).1
      && Output(t.lives, a) == Output(s.lives, a) + [d]
  {
    HandleKeeps(s, a, d);
    FindKeeps(s, a);
    FindOutput(s, a, a);
    var (u, pos) := Find(s, a);
    assert SlotOk(u, pos.value);
    OutputPrint(u.lives, u.con[pos.value].life, d, a);
    var t := Handle(s, a, d).0;
    assert pos.value < |t.con| && t.con[pos.value].free;
  }

  /**
   Over a link that loses and duplicates but keeps the order the output of an address, over all its lifetimes, is always an
   initial part of the file with no chunk repeated, if and only if the file makes two or more chunks or the server
   has no table at all.
   */
  lemma AtMostOnceExactly(s: Link, a: nat)
    requires Init(s, a)
    ensures AtMostOnce(s, a) <==> |s.c.plan| >= 2 || |s.server.con| == 0
  {
    if |s.server.con| == 0 {
      forall events
        ensures Output(Run(s, a, events).server.lives, a) <= s.c.plan
      {
        NoTable(s, a, events);
        OutputNothing(s.server.lives, a);
      }
    } else if |s.c.plan| == 1 {
      OneChunkTwice(s, a);
    } else {
      forall events
        ensures Output(Run(s, a, events).server.lives, a) <= s.c.plan
      {
        RunKeeps(s, a, events);
      }
    }
  }

  /** In bytes: exactly the files of at least 568 bytes are safe. */
  lemma LongFilesOnly(s: Link, a: nat, file: seq<Byte>)
    requires Init(s, a) && s.c.plan == Plan(file)
    ensures AtMostOnce(s, a) <==> |file| >= CHUNK || |s.server.con| == 0
  {
    PlanShape(file, 1);
    AtMostOnceExactly(s, a);
  }

  // ---- runs that deliver ----

  /** Room for a's next chunk: an entry waiting for it, or a free one to start with. */
  ghost predicate HasRoom(s: Server, a: nat) { !NoEntry(s, a) || Roomy(s) }

  /** Once an entry has accepted a chunk it waits for the next one or is free. */
  lemma RoomAfter(u: Server, a: nat, i: nat, d: Datagram)
    requires Live(u, i) && u.con[i].addr == a
    ensures HasRoom(Server(u.con[i := u.con[i].(free := d.last, chunkNo := u.con[i].chunkNo + 1)], Print(u.lives, u.con[i].life, d)), a)
  {
    var t := Server(u.con[i := u.con[i].(free := d.last, chunkNo := u.con[i].chunkNo + 1)], Print(u.lives, u.con[i].life, d));
    if d.last {
      assert i < |t.con| && t.con[i].free;
    } else {
      assert Live(t, i) && t.con[i].addr == a;
    }
  }

  /** The chunk a live or new entry waits for is printed and echoed. */
  lemma ServesNext(s: Server, a: nat, d: Datagram, got: nat, total: nat)
    requires TableOk(s, a, got, total) && got < total && HasRoom(s, a)
    requires d.number == got + 1 && (d.last <==> d.number == total)
    ensures var (t, echo) := Handle(s, a, d);
      echo && TableOk(t, a, got + 1, total) && HasRoom(t, a) && Output(t.lives, a) == Output(s.lives, a) + [d]
  {
    RoomFound(s, a, got, total);
    Accepts(s, a, d);
    FindOutput(s, a, a);
    var (u, pos) := Find(s, a);
    AcceptOwn(u, a, pos.value, d, got, total);
    RoomAfter(u, a, pos.value, d);
  }

  lemma RoomFound(s: Server, a: nat, got: nat, total: nat)
    requires TableOk(s, a, got, total) && HasRoom(s, a)
    ensures var (t, pos) := Find(s, a);
      && TableOk(t, a, got, total) && pos.Some? && pos.value < |t.con|
      && Live(t, pos.value) && t.con[pos.value].addr == a && t.con[pos.value].chunkNo == Expected(got, total)
  {
    FindOwn(s, a, got, total);
    if !NoEntry(s, a) {
      var i: nat :| Live(s, i) && s.con[i].addr == a;
    }
  }

  /** Between chunks: nothing in flight, the server one step from the next chunk. */
  ghost predicate Between(s: Link, a: nat, k: nat)
  {
    && IsPlan(s.c.plan) && k < |s.c.plan| && s.c == Client(s.c.plan, k, 0, Sending)
    && s.dataQ == [] && s.echoQ == [] && Output(s.server.lives, a) == s.c.plan[..k]
    && TableOk(s.server, a, k, |s.c.plan|) && HasRoom(s.server, a)
  }

  /** Between chunks, one chunk further on; or the end. */
  ghost predicate Onward(u: Link, a: nat, k: nat, plan: seq<Datagram>)
  {
    if k < |plan| then u.c.plan == plan && Between(u, a, k)
    else u.c.phase == Finished(true) && Output(u.server.lives, a) == plan
  }

  lemma ClientOnward(plan: seq<Datagram>, k: nat)
    requires IsPlan(plan) && k < |plan|
    ensures var c := Heard(Sent(Client(plan, k, 0, Sending)), Some(plan[k].number));
      c.plan == plan && (if k + 1 < |plan| then c == Client(plan, k + 1, 0, Sending) else c.phase == Finished(true))
  {
  }

  lemma OnePrintedMore(plan: seq<Datagram>, k: nat)
    requires k < |plan|
    ensures plan[..k] + [plan[k]] == plan[..k + 1] && (k + 1 == |plan| ==> plan[..k + 1] == plan)
  {
  }

  lemma RoundEffect(u: Link, a: nat, k: nat)
    requires Between(u, a, k)
    ensures var (t, echo) := Handle(u.server, a, u.c.plan[k]); echo
    ensures var (t, echo) := Handle(u.server, a, u.c.plan[k]);
      Onward(Link(t, Heard(Sent(u.c), Some(u.c.plan[k].number)), [], []), a, k + 1, u.c.plan)
  {
    ServesNext(u.server, a, u.c.plan[k], k, |u.c.plan|);
    ClientOnward(u.c.plan, k);
    OnePrintedMore(u.c.plan, k);
  }

  lemma HearTurn(s: Link, a: nat, past: seq<Event>)
    requires IsPlan(s.c.plan) && s.c.k < |s.c.plan| && Run(s, a, past).c.phase.Waiting? && Run(s, a, past).echoQ != []
    ensures var u := Run(s, a, past);
      Run(s, a, past + [Hear]) == u.(c := Heard(u.c, Some(u.echoQ[0].number)), echoQ := u.echoQ[1..])
  {
    RunOne(s, a, past, Hear);
  }

  /** Send, arrive, hear: one chunk further. */
  lemma OneRound(s: Link, a: nat, past: seq<Event>, k: nat) returns (events: seq<Event>)
    requires IsPlan(s.c.plan) && s.c.k < |s.c.plan| && Between(Run(s, a, past), a, k)
    ensures Onward(Run(s, a, events), a, k + 1, s.c.plan)
  {
    var u := Run(s, a, past);
    RoundEffect(u, a, k);
    var t := SendArrive(s, a, past);
    HearTurn(s, a, past + [Send, Arrive]);
    events := past + [Send, Arrive] + [Hear];
    assert t.echoQ == [u.c.plan[k]];
  }

  /** Chunk after chunk, up to before chunk goal. */
  lemma {:induction false} Rounds(s: Link, a: nat, past: seq<Event>, k: nat, goal: nat) returns (events: seq<Event>)
    requires IsPlan(s.c.plan) && s.c.k < |s.c.plan| && Between(Run(s, a, past), a, k) && k <= goal < |s.c.plan|
    ensures Between(Run(s, a, events), a, goal) && Run(s, a, events).c.plan == s.c.plan
    decreases goal - k
  {
    events := past;
    if k < goal {
      events := OneRound(s, a, past, k);
      events := Rounds(s, a, events, k + 1, goal);
    }
  }

  lemma StartsBetween(s: Link, a: nat)
    requires Init(s, a) && Roomy(s.server)
    ensures Between(s, a, 0)
  {
    InitInv(s, a);
    OutputNothing(s.server.lives, a);
  }

  /** A new transfer, brought up to before its last chunk. */
  lemma AllButLast(s: Link, a: nat) returns (events: seq<Event>)
    requires Init(s, a) && |s.server.con| > 0
    ensures Run(s, a, events).c.plan == s.c.plan && Between(Run(s, a, events), a, |s.c.plan| - 1)
  {
    events := MakesRoom(s, a);
    StartsBetween(Run(s, a, events), a);
    events := Rounds(s, a, events, 0, |s.c.plan| - 1);
  }

  /** Every file can get through: some run prints it exactly once and ends acknowledged. */
  lemma SomeRunDelivers(s: Link, a: nat) returns (events: seq<Event>)
    requires Init(s, a) && |s.server.con| > 0
    ensures Run(s, a, events).c.phase == Finished(true) && Output(Run(s, a, events).server.lives, a) == s.c.plan
  {
    events := AllButLast(s, a);
    events := OneRound(s, a, events, |s.c.plan| - 1);
  }

  /** With every further try timing out, the client gives up and the server notices nothing. */
  lemma {:induction false} TimesOut(s: Link, a: nat, past: seq<Event>) returns (events: seq<Event>)
    requires IsPlan(s.c.plan) && s.c.k < |s.c.plan| && Run(s, a, past).c.phase.Sending? && Run(s, a, past).c.tries <= 5
    ensures Run(s, a, events).c.phase == Finished(false) && Run(s, a, events).server == Run(s, a, past).server
    decreases 6 - Run(s, a, past).c.tries
  {
    RunOne(s, a, past, Send);
    AlarmTurn(s, a, past + [Send]);
    events := past + [Send] + [Alarm];
    if Run(s, a, events).c.phase.Sending? {
      events := TimesOut(s, a, events);
    }
  }

  /** Every file can also be printed whole, exactly once, by a run in which the client gives up: the last echo is lost. */
  lemma DeliveredButGivenUp(s: Link, a: nat) returns (events: seq<Event>)
    requires Init(s, a) && |s.server.con| > 0
    ensures Run(s, a, events).c.phase == Finished(false) && Output(Run(s, a, events).server.lives, a) == s.c.plan
  {
    var past := AllButLast(s, a);
    var u := Run(s, a, past);
    RoundEffect(u, a, |s.c.plan| - 1);
    var t := SendArrive(s, a, past);
    past := past + [Send, Arrive];
    RunOne(s, a, past, LoseEcho(0));
    AlarmTurn(s, a, past + [LoseEcho(0)]);
    events := TimesOut(s, a, past + [LoseEcho(0)] + [Alarm]);
  }
}
