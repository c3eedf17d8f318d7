/**
 Clients and server over a network that may lose, duplicate and reorder: whatever has been sent
 may arrive at any time, any number of times, or never.  Addresses below |clients| run one
 transfer each; every other address may send anything.
 */
module TransferNet {
  import opened Counting
  import opened TransferServer
  import opened TransferFile
  import opened TransferClient

  datatype State = State(server: Server, clients: seq<Client>, data: set<(nat, Datagram)>, echoes: set<(nat, Datagram)>)

  datatype Event =
    | Send(a: nat)
    | Hear(a: nat, d: Datagram)      // the client receives an echo addressed to it
    | Alarm(a: nat)
    | Arrive(a: nat, d: Datagram)    // the server receives a client's datagram
    | Stranger(a: nat, d: Datagram)  // the server receives anything from anyone else

  function Next(s: State, e: Event): Option<State>
  {
    match e
    case Send(a) =>
      if a < |s.clients| && s.clients[a].phase.Sending? && s.clients[a].k < |s.clients[a].plan| then
        var c := s.clients[a];
        Some(s.(clients := s.clients[a := Sent(c)], data := s.data + {(a, c.plan[c.k])}))
      else None
    case Hear(a, d) =>
      if a < |s.clients| && s.clients[a].phase.Waiting? && s.clients[a].k < |s.clients[a].plan| && (a, d) in s.echoes then
        Some(s.(clients := s.clients[a := Heard(s.clients[a], Some(d.number))]))
      else None
    case Alarm(a) =>
      if a < |s.clients| && s.clients[a].phase.Waiting? && s.clients[a].k < |s.clients[a].plan| then
        Some(s.(clients := s.clients[a := Heard(s.clients[a], None)]))
      else None
    case Arrive(a, d) =>
      if (a, d) in s.data then Some(Serve(s, a, d)) else None
    case Stranger(a, d) =>
      if a >= |s.clients| then Some(Serve(s, a, d)) else None
  }

  function Serve(s: State, a: nat, d: Datagram): State
  {
    var (t, echo) := Handle(s.server, a, d);
    s.(server := t, echoes := if echo then s.echoes + {(a, d)} else s.echoes)
  }

  function Run(s: State, events: seq<Event>): State
  {
    if events == [] then s
    else
      var u := Run(s, events[..|events| - 1]);
      match Next(u, events[|events| - 1]) case None => u case Some(t) => t
  }

  /** Any number of transfers about to start against an idle server with a table of any size. */
  ghost predicate Init(s: State)
  {
    && s.server.lives == [] && (forall i :: 0 <= i < |s.server.con| ==> s.server.con[i].free)
    && s.data == {} && s.echoes == {}
    && forall a :: 0 <= a < |s.clients| ==> IsPlan(s.clients[a].plan) && s.clients[a] == Fresh(s.clients[a].plan)
  }

  // ---- invariant ----

  ghost predicate Has(s: State, a: nat, n: int)
  {
    exists l :: 0 <= l < |s.server.lives| && s.server.lives[l].addr == a && n <= |s.server.lives[l].printed|
  }

  /** What one lifetime of a client's address has printed is an initial part of that client's plan. */
  ghost predicate Faithful(s: State, l: Lifetime)
  {
    l.addr < |s.clients| ==>
      |l.printed| <= |s.clients[l.addr].plan| && l.printed == s.clients[l.addr].plan[..|l.printed|]
  }

  ghost predicate ClientOk(s: State, a: nat)
    requires a < |s.clients|
  {
    var c := s.clients[a];
    && IsPlan(c.plan) && c.k < |c.plan| && c.tries <= 6 && (c.phase.Sending? ==> c.tries <= 5)
    && (c.phase == Finished(true) ==> Has(s, a, |c.plan|))
    && (c.phase == Finished(false) ==> c.tries == 6)
  }

  ghost predicate Inv(s: State)
  {
    && ServerInv(s.server)
    && (forall a :: 0 <= a < |s.clients| ==> ClientOk(s, a))
    && (forall p | p in s.data :: p.0 < |s.clients| && p.1 in s.clients[p.0].plan)
    && (forall l :: 0 <= l < |s.server.lives| ==> Faithful(s, s.server.lives[l]))
    && (forall p | p in s.echoes :: Has(s, p.0, p.1.number))
  }

  lemma HasKept(s: State, t: State, a: nat, d: Datagram, b: nat, n: int)
    requires LivesGrow(s.server, t.server, a, d) && Has(s, b, n)
    ensures Has(t, b, n)
  {
    var l :| 0 <= l < |s.server.lives| && s.server.lives[l].addr == b && n <= |s.server.lives[l].printed|;
    assert t.server.lives[l].addr == b && n <= |t.server.lives[l].printed|;
  }

  /** A datagram of the plan that a lifetime accepts extends its initial part by one. */
  lemma ExtendFaithful(s: State, l: Lifetime, m: Lifetime, a: nat, d: Datagram)
    requires Inv(s) && Faithful(s, l) && Extends(l, m, a, d)
    requires a < |s.clients| ==> d in s.clients[a].plan
    ensures Faithful(s, m)
  {
    if a < |s.clients| {
      assert ClientOk(s, a);
      var plan := s.clients[a].plan;
      var i :| 0 <= i < |plan| && plan[i] == d;
      assert i == |l.printed|;
      assert plan[..i + 1] == plan[..i] + [plan[i]];
    }
  }

  lemma ServeKeeps(s: State, a: nat, d: Datagram)
    requires Inv(s) && (a < |s.clients| ==> d in s.clients[a].plan)
    ensures Inv(Serve(s, a, d))
  {
    var t := Serve(s, a, d);
    HandleKeeps(s.server, a, d);
    forall b | 0 <= b < |t.clients|
      ensures ClientOk(t, b)
    {
      assert ClientOk(s, b);
      if s.clients[b].phase == Finished(true) {
        HasKept(s, t, a, d, b, |s.clients[b].plan|);
      }
    }
    forall l | 0 <= l < |t.server.lives|
      ensures Faithful(t, t.server.lives[l])
    {
      var was := if l < |s.server.lives| then s.server.lives[l] else Lifetime(a, []);
      assert Faithful(s, was);
      if t.server.lives[l] != was {
        ExtendFaithful(s, was, t.server.lives[l], a, d);
      }
    }
    forall p | p in t.echoes
      ensures Has(t, p.0, p.1.number)
    {
      if p in s.echoes {
        HasKept(s, t, a, d, p.0, p.1.number);
      } else {
        EchoMeansPrinted(s.server, a, d);
      }
    }
  }

  lemma ClientKeeps(s: State, a: nat, c: Client, extra: set<(nat, Datagram)>)
    requires Inv(s) && a < |s.clients| && c.plan == s.clients[a].plan
    requires ClientOk(s.(clients := s.clients[a := c]), a)
    requires forall p | p in extra :: p.0 == a && p.1 in c.plan
    ensures Inv(s.(clients := s.clients[a := c], data := s.data + extra))
  {
    var t := s.(clients := s.clients[a := c], data := s.data + extra);
    var u := s.(clients := s.clients[a := c]);
    forall b, n | Has(s, b, n)
      ensures Has(t, b, n)
    {
    }
    forall b | 0 <= b < |t.clients|
      ensures ClientOk(t, b)
    {
      if b != a {
        assert ClientOk(s, b);
      } else {
        assert ClientOk(u, b);
        assert c.phase == Finished(true) ==> Has(u, a, |c.plan|);
      }
    }
    forall l | 0 <= l < |t.server.lives|
      ensures Faithful(t, t.server.lives[l])
    {
      assert Faithful(s, s.server.lives[l]);
    }
  }

  lemma StepKeeps(s: State, e: Event)
    requires Inv(s) && Next(s, e).Some?
    ensures Inv(Next(s, e).value)
  {
    match e
    case Send(a) =>
      var c := s.clients[a];
      assert ClientOk(s, a);
      ClientKeeps(s, a, Sent(c), {(a, c.plan[c.k])});
    case Hear(a, d) =>
      var c := s.clients[a];
      assert ClientOk(s, a) && Has(s, a, d.number);
      var next := Heard(c, Some(d.number));
      var t := s.(clients := s.clients[a := next]);
      var l :| 0 <= l < |s.server.lives| && s.server.lives[l].addr == a && d.number <= |s.server.lives[l].printed|;
      assert t.server.lives[l].addr == a && d.number <= |t.server.lives[l].printed|;
      ClientKeeps(s, a, next, {});
      assert s.data + {} == s.data;
    case Alarm(a) =>
      assert ClientOk(s, a);
      ClientKeeps(s, a, Heard(s.clients[a], None), {});
      assert s.data + {} == s.data;
    case Arrive(a, d) =>
      ServeKeeps(s, a, d);
    case Stranger(a, d) =>
      ServeKeeps(s, a, d);
  }

  lemma {:induction false} RunKeeps(s: State, events: seq<Event>)
    requires Init(s)
    ensures Inv(Run(s, events)) && SamePlans(s, Run(s, events))
  {
    if events != [] {
      RunKeeps(s, events[..|events| - 1]);
      var u := Run(s, events[..|events| - 1]);
      var e := events[|events| - 1];
      if Next(u, e).Some? {
        StepKeeps(u, e);
      }
    }
  }

  ghost predicate SamePlans(s: State, t: State)
  {
    |t.clients| == |s.clients| && forall a :: 0 <= a < |s.clients| ==> t.clients[a].plan == s.clients[a].plan
  }

  /**
   Under any loss, duplication and reordering, each connection lifetime of a transfer's address has
   printed exactly chunks 1..n of that transfer, in order, whatever all other addresses send.
   */
  lemma LifetimePrintsPrefix(s: State, events: seq<Event>, l: nat)
    requires Init(s) && l < |Run(s, events).server.lives| && Run(s, events).server.lives[l].addr < |s.clients|
    ensures var life := Run(s, events).server.lives[l];
      life.printed <= s.clients[life.addr].plan
  {
    RunKeeps(s, events);
    assert Faithful(Run(s, events), Run(s, events).server.lives[l]);
  }

  /** If a client leaves its loop with the last chunk echoed, one lifetime of its address printed the whole file. */
  lemma AckedMeansDelivered(s: State, events: seq<Event>, a: nat)
    requires Init(s) && a < |s.clients|
    requires |Run(s, events).clients| == |s.clients| && Run(s, events).clients[a].phase == Finished(true)
    ensures Lifetime(a, s.clients[a].plan) in Run(s, events).server.lives
  {
    RunKeeps(s, events);
    var t := Run(s, events);
    assert ClientOk(t, a);
    var l :| 0 <= l < |t.server.lives| && t.server.lives[l].addr == a && |t.clients[a].plan| <= |t.server.lives[l].printed|;
    assert Faithful(t, t.server.lives[l]);
    assert t.server.lives[l] == Lifetime(a, s.clients[a].plan);
  }

  /** End to end: a client that was fully acknowledged has had its NUL-free file printed, byte for byte, by one lifetime. */
  lemma FileDelivered(s: State, events: seq<Event>, a: nat, file: seq<Byte>)
    requires Init(s) && a < |s.clients| && s.clients[a].plan == Plan(file) && 0 !in file
    requires |Run(s, events).clients| == |s.clients| && Run(s, events).clients[a].phase == Finished(true)
    ensures exists life :: life in Run(s, events).server.lives && life.addr == a && Texts(life.printed) == file
  {
    AckedMeansDelivered(s, events, a);
    ChunkRoundTrip(file);
    var life := Lifetime(a, s.clients[a].plan);
    assert life in Run(s, events).server.lives && life.addr == a && Texts(life.printed) == file;
  }

  /** A client gives up only after six sends of the same chunk. */
  lemma GivesUpAfterSix(s: State, events: seq<Event>, a: nat)
    requires Init(s) && a < |s.clients|
    ensures |Run(s, events).clients| == |s.clients| && Run(s, events).clients[a].tries <= 6
    ensures Run(s, events).clients[a].phase == Finished(false) ==> Run(s, events).clients[a].tries == 6
  {
    RunKeeps(s, events);
    assert ClientOk(Run(s, events), a);
  }

  /** The plans the client code sends are plans in this sense. */
  lemma FilesMakePlans(file: seq<Byte>)
    ensures IsPlan(Plan(file))
  {
    PlanShape(file, 1);
  }
}
