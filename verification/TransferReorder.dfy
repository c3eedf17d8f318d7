/** A link that loses and reorders but delivers each datagram and each echo at most once. */
module TransferReorder {
  import opened Counting
  import opened TransferServer
  import opened TransferClient
  import F = TransferFifo
  import R = TransferReplay

  datatype Event =
    | Send | Alarm
    | Hear(i: nat)                 // whichever echo comes first
    | Arrive(i: nat)               // whichever datagram comes first
    | LoseData(i: nat) | LoseEcho(i: nat)
    | Other(addr: nat, d: Datagram)

  /** dataQ and echoQ are what is in flight, in no particular order of delivery. */
  function Next(s: F.Link, a: nat, e: Event): Option<F.Link>
    requires s.c.k < |s.c.plan|
  {
    match e
    case Send =>
      if s.c.phase.Sending? then Some(s.(c := Sent(s.c), dataQ := s.dataQ + [s.c.plan[s.c.k]])) else None
    case Alarm =>
      if s.c.phase.Waiting? then Some(s.(c := Heard(s.c, None))) else None
    case Hear(i) =>
      if s.c.phase.Waiting? && i < |s.echoQ| then
        Some(s.(c := Heard(s.c, Some(s.echoQ[i].number)), echoQ := F.Without(s.echoQ, i)))
      else None
    case Arrive(i) =>
      if i >= |s.dataQ| then None
      else
        var (t, echo) := Handle(s.server, a, s.dataQ[i]);
        Some(s.(server := t, dataQ := F.Without(s.dataQ, i), echoQ := if echo then s.echoQ + [s.dataQ[i]] else s.echoQ))
    case LoseData(i) => if i < |s.dataQ| then Some(s.(dataQ := F.Without(s.dataQ, i))) else None
    case LoseEcho(i) => if i < |s.echoQ| then Some(s.(echoQ := F.Without(s.echoQ, i))) else None
    case Other(addr, d) =>
      if addr == a then None else Some(s.(server := Handle(s.server, addr, d).0))
  }

  function Run(s: F.Link, a: nat, events: seq<Event>): (t: F.Link)
    requires IsPlan(s.c.plan) && s.c.k < |s.c.plan|
    ensures t.c.plan == s.c.plan && t.c.k < |t.c.plan|
  {
    if events == [] then s
    else
      var u := Run(s, a, events[..|events| - 1]);
      match Next(u, a, events[|events| - 1]) case None => u case Some(t) => t
  }

  lemma RunOne(s: F.Link, a: nat, past: seq<Event>, e: Event) returns (events: seq<Event>)
    requires IsPlan(s.c.plan) && s.c.k < |s.c.plan| && Next(Run(s, a, past), a, e).Some?
    ensures events == past + [e] && Run(s, a, events) == Next(Run(s, a, past), a, e).value
  {
    events := past + [e];
    assert events[..|events| - 1] == past;
  }

  // ---- a first chunk that comes late ----

  /** Between chunks, with a copy of chunk 1 still on its way. */
  ghost predicate Trailing(u: F.Link, a: nat, k: nat)
  {
    F.Between(u.(dataQ := []), a, k) && u.dataQ == [u.c.plan[0]]
  }

  /** As on the link that keeps the order. */
  lemma MakesRoom(s: F.Link, a: nat) returns (events: seq<Event>)
    requires F.Init(s, a) && |s.server.con| > 0
    ensures var t := Run(s, a, events); F.Init(t, a) && F.Roomy(t.server) && t.c == s.c
  {
    assert Run(s, a, []) == s;
    events := [];
    if !F.Roomy(s.server) {
      assert !s.server.con[0].free;
      var b := s.server.con[0].addr;
      F.NothingKnown(s.server, a);
      assert Live(s.server, 0);
      var d := Datagram(s.server.con[0].chunkNo + 1, true, []);
      HandleKeeps(s.server, b, d);
      F.StillUnknown(s.server, b, d, a);
      F.FreesFirst(s.server, d);
      events := RunOne(s, a, [], Other(b, d));
    }
  }

  /** u waits for chunk 1 of a's transfer. */
  ghost predicate AtFirst(u: Server, a: nat, plan: seq<Datagram>)
  {
    F.TableOk(u, a, 0, |plan|) && F.HasRoom(u, a) && F.Output(u.lives, a) == []
  }

  /** Chunk 1 sent twice and one of the two printed. */
  lemma SentTwice(s: F.Link, a: nat) returns (events: seq<Event>, u: Server)
    requires F.Init(s, a) && |s.server.con| > 0
    ensures var d := s.c.plan[0];
      AtFirst(u, a, s.c.plan) && Run(s, a, events) == F.Link(Handle(u, a, d).0, Client(s.c.plan, 0, 2, Waiting), [d], [d])
  {
    events := MakesRoom(s, a);
    var t := Run(s, a, events);
    u := t.server;
    F.StartsBetween(t, a);
    F.RoundEffect(t, a, 0);
    events := RunOne(s, a, events, Send);
    events := RunOne(s, a, events, Alarm);
    events := RunOne(s, a, events, Send);
    events := RunOne(s, a, events, Arrive(0));
  }

  lemma FirstServed(u: Server, a: nat, plan: seq<Datagram>)
    requires IsPlan(plan) && |plan| > 1 && AtFirst(u, a, plan)
    ensures var t := Handle(u, a, plan[0]).0; F.TableOk(t, a, 1, |plan|) && F.HasRoom(t, a) && F.Output(t.lives, a) == plan[..1]
  {
    F.ServesNext(u, a, plan[0], 0, |plan|);
  }

  /** Its echo heard: the transfer is at chunk 2, and the other copy still on its way. */
  lemma FirstRound(s: F.Link, a: nat) returns (events: seq<Event>)
    requires F.Init(s, a) && |s.server.con| > 0 && |s.c.plan| > 1
    ensures Trailing(Run(s, a, events), a, 1)
  {
    var u;
    events, u := SentTwice(s, a);
    FirstServed(u, a, s.c.plan);
    events := RunOne(s, a, events, Hear(0));
  }

  /** The current chunk overtakes the old copy. */
  lemma Overtakes(s: F.Link, a: nat, past: seq<Event>, k: nat) returns (events: seq<Event>)
    requires IsPlan(s.c.plan) && s.c.k < |s.c.plan| && Trailing(Run(s, a, past), a, k)
    ensures var u, t := Run(s, a, past), Run(s, a, events); var (v, echo) := Handle(u.server, a, u.c.plan[k]);
      t == F.Link(v, Sent(u.c), u.dataQ, [u.c.plan[k]])
  {
    var u := Run(s, a, past);
    F.RoundEffect(u.(dataQ := []), a, k);
    events := RunOne(s, a, past, Send);
    events := RunOne(s, a, events, Arrive(1));
  }

  lemma OneRound(s: F.Link, a: nat, past: seq<Event>, k: nat) returns (events: seq<Event>)
    requires IsPlan(s.c.plan) && s.c.k < |s.c.plan| && Trailing(Run(s, a, past), a, k) && k + 1 < |s.c.plan|
    ensures Trailing(Run(s, a, events), a, k + 1)
  {
    var u := Run(s, a, past);
    events := Overtakes(s, a, past, k);
    F.RoundEffect(u.(dataQ := []), a, k);
    events := RunOne(s, a, events, Hear(0));
  }

  lemma {:induction false} Rounds(s: F.Link, a: nat, past: seq<Event>, k: nat, goal: nat) returns (events: seq<Event>)
    requires IsPlan(s.c.plan) && s.c.k < |s.c.plan| && Trailing(Run(s, a, past), a, k) && k <= goal < |s.c.plan|
    ensures Trailing(Run(s, a, events), a, goal)
    decreases goal - k
  {
    events := past;
    if k < goal {
      events := OneRound(s, a, past, k);
      events := Rounds(s, a, events, k + 1, goal);
    }
  }

  /** The whole file is printed and its entry freed; a copy of chunk 1 is still on its way. */
  ghost predicate Freed(t: F.Link, a: nat)
  {
    && IsPlan(t.c.plan) && ServerInv(t.server) && F.NoEntry(t.server, a) && F.Roomy(t.server) && F.Output(t.server.lives, a) == t.c.plan
    && t.dataQ == [t.c.plan[0]]
  }

  lemma LastFrees(s: Server, a: nat, plan: seq<Datagram>)
    requires IsPlan(plan) && F.TableOk(s, a, |plan| - 1, |plan|) && F.HasRoom(s, a) && F.Output(s.lives, a) == plan[..|plan| - 1]
    ensures var t := Handle(s, a, plan[|plan| - 1]).0;
      ServerInv(t) && F.NoEntry(t, a) && F.Roomy(t) && F.Output(t.lives, a) == plan
  {
    var d := plan[|plan| - 1];
    F.ServesNext(s, a, d, |plan| - 1, |plan|);
    R.LastFrees(s, a, d, |plan|);
    F.OnePrintedMore(plan, |plan| - 1);
  }

  lemma Prints(s: F.Link, a: nat) returns (events: seq<Event>)
    requires F.Init(s, a) && |s.server.con| > 0
    ensures Freed(Run(s, a, events), a)
  {
    if |s.c.plan| == 1 {
      var u;
      events, u := SentTwice(s, a);
      LastFrees(u, a, s.c.plan);
    } else {
      events := FirstRound(s, a);
      events := Rounds(s, a, events, 1, |s.c.plan| - 1);
      var u := Run(s, a, events);
      LastFrees(u.server, a, s.c.plan);
      events := Overtakes(s, a, events, |s.c.plan| - 1);
    }
  }

  /** Without any copying every file can be printed whole and then its first chunk again: a resent chunk 1 comes last. */
  lemma LateChunkReprints(s: F.Link, a: nat) returns (events: seq<Event>)
    requires F.Init(s, a) && |s.server.con| > 0
    ensures F.Output(Run(s, a, events).server.lives, a) == s.c.plan + [s.c.plan[0]]
  {
    events := Prints(s, a);
    var t := Run(s, a, events);
    R.FirstPrints(t.server, a, t.c.plan[0]);
    events := RunOne(s, a, events, Arrive(0));
  }

  ghost predicate AtMostOnce(s: F.Link, a: nat)
    requires IsPlan(s.c.plan) && s.c.k < |s.c.plan|
  {
    forall events :: F.Output(Run(s, a, events).server.lives, a) <= s.c.plan
  }

  lemma NoTableStep(s: F.Link, a: nat, e: Event)
    requires s.c.k < |s.c.plan| && s.server.con == [] && Next(s, a, e).Some?
    ensures Next(s, a, e).value.server == s.server
  {
  }

  lemma {:induction false} NoTable(s: F.Link, a: nat, events: seq<Event>)
    requires F.Init(s, a) && s.server.con == []
    ensures Run(s, a, events).server == s.server
  {
    if events != [] {
      var front := events[..|events| - 1];
      NoTable(s, a, front);
      if Next(Run(s, a, front), a, events[|events| - 1]).Some? {
        NoTableStep(Run(s, a, front), a, events[|events| - 1]);
      }
    }
  }

  /** So once datagrams overtake one another no file of any length is printed at most once, unless the server has no table. */
  lemma NeverAtMostOnce(s: F.Link, a: nat)
    requires F.Init(s, a)
    ensures AtMostOnce(s, a) <==> |s.server.con| == 0
  {
    if |s.server.con| > 0 {
      var events := LateChunkReprints(s, a);
      assert |F.Output(Run(s, a, events).server.lives, a)| > |s.c.plan|;
    } else {
      forall events
        ensures F.Output(Run(s, a, events).server.lives, a) <= s.c.plan
      {
        NoTable(s, a, events);
        F.OutputNothing(s.server.lives, a);
      }
    }
  }
}
