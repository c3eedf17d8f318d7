/** Exactly when a printed transfer leaves an entry behind, and exactly what frees a table of such entries. */
module TransferLeftover {
  import opened Counting
  import opened TransferServer
  import opened TransferClient
  import opened TransferFifo
  import opened TransferEcho
  import opened TransferReplay

  // ---- when a transfer leaves an entry ----

  /** A datagram arrives for the j-th event, after the file has been printed and while an entry is free. */
  ghost predicate Strays(s: Link, a: nat, events: seq<Event>, j: int)
    requires IsPlan(s.c.plan) && s.c.k < |s.c.plan|
  {
    && 0 <= j < |events| && events[j].Arrive?
    && var u := Run(s, a, events[..j]);
       Output(u.server.lives, a) == s.c.plan && u.dataQ != [] && Roomy(u.server)
  }

  /** Once the file is printed it takes just that to allocate an entry, and nothing frees it. */
  lemma WholeStep(s: Link, a: nat, e: Event)
    requires Whole(s, a) && Next(s, a, e).Some?
    ensures var t := Next(s, a, e).value;
      NoEntry(t.server, a) <==> NoEntry(s.server, a) && !(e.Arrive? && s.dataQ != [] && Roomy(s.server))
  {
    if e.Arrive? {
      StrayServed(s.server, a, s.dataQ[0], |s.c.plan|);
    } else if e.Other? {
      OtherNoEntry(s.server, e.addr, e.d, a);
    }
  }

  lemma OtherNoEntry(s: Server, addr: nat, d: Datagram, a: nat)
    requires ServerInv(s) && addr != a
    ensures NoEntry(Handle(s, addr, d).0, a) <==> NoEntry(s, a)
  {
    var t := Handle(s, addr, d).0;
    HandleKeeps(s, addr, d);
    forall i: nat | i < |s.con|
      ensures Live(t, i) && t.con[i].addr == a <==> Live(s, i) && s.con[i].addr == a
    {
      OtherEntry(s, addr, d, a, i);
    }
  }

  lemma StrayServed(s: Server, a: nat, d: Datagram, total: nat)
    requires TableOk(s, a, total, total) && total >= 2 && d.number >= 2
    ensures NoEntry(Handle(s, a, d).0, a) <==> NoEntry(s, a) && !Roomy(s)
  {
    FindOwn(s, a, total, total);
    var (t, pos) := Find(s, a);
    if pos.Some? {
      assert Live(t, pos.value) && t.con[pos.value].addr == a;
    }
  }

  /** The event that prints the last chunk frees the entry. */
  lemma PrintingFrees(s: Link, a: nat, e: Event)
    requires Inv(s, a) && |s.c.plan| >= 2 && Output(s.server.lives, a) != s.c.plan && Next(s, a, e).Some?
    requires Output(Next(s, a, e).value.server.lives, a) == s.c.plan
    ensures NoEntry(Next(s, a, e).value.server, a)
  {
    if e.Arrive? {
      LastPrinted(s, a);
    } else if e.Other? {
      OtherOutput(s.server, e.addr, e.d, a);
    }
  }

  lemma LastPrinted(s: Link, a: nat)
    requires Inv(s, a) && |s.c.plan| >= 2 && Output(s.server.lives, a) != s.c.plan && s.dataQ != []
    requires Output(Handle(s.server, a, s.dataQ[0]).0.lives, a) == s.c.plan
    ensures NoEntry(Handle(s.server, a, s.dataQ[0]).0, a)
  {
    var d := s.dataQ[0];
    var got, total := |Output(s.server.lives, a)|, |s.c.plan|;
    var n :| 0 <= n < total && s.c.plan[n] == d;
    ServeOwn(s.server, a, d, got, total);
    ServeExpected(s.server, a, d, got, total);
    FoundRoom(s.server, a);
    LastFrees(s.server, a, d, total);
  }

  lemma FoundRoom(s: Server, a: nat)
    requires Find(s, a).1.Some?
    ensures HasRoom(s, a)
  {
    var live := LiveFrom(s.con, a, 0);
    if live.Some? {
      assert Live(s, live.value);
    }
  }

  lemma {:induction false} StaysWhole(s: Link, a: nat, events: seq<Event>, j: nat)
    requires Init(s, a) && |s.c.plan| >= 2 && j <= |events| && Output(Run(s, a, events[..j]).server.lives, a) == s.c.plan
    ensures Output(Run(s, a, events).server.lives, a) == s.c.plan
    decreases |events|
  {
    if j == |events| {
      assert events[..j] == events;
    } else {
      var front := events[..|events| - 1];
      assert front[..j] == events[..j];
      StaysWhole(s, a, front, j);
      RunKeeps(s, a, front);
      if Next(Run(s, a, front), a, events[|events| - 1]).Some? {
        StaysPrinted(Run(s, a, front), a, events[|events| - 1]);
      }
    }
  }

  lemma StraysMore(s: Link, a: nat, events: seq<Event>)
    requires IsPlan(s.c.plan) && s.c.k < |s.c.plan| && events != []
    ensures var front := events[..|events| - 1];
      (exists j :: Strays(s, a, events, j)) <==> (exists j :: Strays(s, a, front, j)) || Strays(s, a, events, |front|)
  {
    var front := events[..|events| - 1];
    forall j | 0 <= j < |front|
      ensures Strays(s, a, events, j) <==> Strays(s, a, front, j)
    {
      assert events[..j] == front[..j];
    }
    if j :| Strays(s, a, events, j) {
      assert j < |front| ==> Strays(s, a, front, j);
    }
    if j :| Strays(s, a, front, j) {
      assert Strays(s, a, events, j);
    }
  }

  /** No datagram strays before the file is printed. */
  lemma NoneBefore(s: Link, a: nat, events: seq<Event>)
    requires Init(s, a) && |s.c.plan| >= 2 && Output(Run(s, a, events).server.lives, a) != s.c.plan
    ensures !exists j :: Strays(s, a, events, j)
  {
    if j :| Strays(s, a, events, j) {
      StaysWhole(s, a, events, j);
    }
  }

  /** One more event of a run at whose end the file is printed. */
  lemma LeftoverStep(s: Link, a: nat, events: seq<Event>)
    requires Init(s, a) && |s.c.plan| >= 2 && events != [] && Output(Run(s, a, events).server.lives, a) == s.c.plan
    ensures var u := Run(s, a, events[..|events| - 1]);
      NoEntry(Run(s, a, events).server, a)
      <==> (Output(u.server.lives, a) == s.c.plan ==> NoEntry(u.server, a) && !Strays(s, a, events, |events| - 1))
  {
    var front, e := events[..|events| - 1], events[|events| - 1];
    var u := Run(s, a, front);
    RunKeeps(s, a, front);
    if Next(u, a, e).Some? {
      if Output(u.server.lives, a) == s.c.plan {
        WholeStep(u, a, e);
      } else {
        PrintingFrees(u, a, e);
      }
    }
  }

  /**
   In any run, once a file of two or more chunks is printed: the server has an entry for its address if and only if a
   datagram of it has arrived since while an entry was free.
   */
  lemma {:induction false} LeftoverExactly(s: Link, a: nat, events: seq<Event>)
    requires Init(s, a) && |s.c.plan| >= 2 && Output(Run(s, a, events).server.lives, a) == s.c.plan
    ensures !NoEntry(Run(s, a, events).server, a) <==> exists j :: Strays(s, a, events, j)
  {
    if events == [] {
      OutputNothing(s.server.lives, a);
    } else {
      var front := events[..|events| - 1];
      StraysMore(s, a, events);
      LeftoverStep(s, a, events);
      if Output(Run(s, a, front).server.lives, a) == s.c.plan {
        LeftoverExactly(s, a, front);
      } else {
        NoneBefore(s, a, front);
      }
    }
  }

  // ---- what frees a table of leftovers ----

  /** What has reached the server. */
  function Arrivals(t: N.State, events: seq<N.Event>): seq<(nat, Datagram)>
  {
    if events == [] then []
    else
      var front, e := events[..|events| - 1], events[|events| - 1];
      Arrivals(t, front)
      + (match e
         case Arrive(a, d) => if N.Next(N.Run(t, front), e).Some? then [(a, d)] else []
         case Stranger(a, d) => if N.Next(N.Run(t, front), e).Some? then [(a, d)] else []
         case _ => [])
  }

  /** How many chunks of address b have come in order, from chunk 1; None once one of them was flagged last. */
  function Got(log: seq<(nat, Datagram)>, b: nat): Option<nat>
  {
    if log == [] then Some(0)
    else
      var last := log[|log| - 1];
      match Got(log[..|log| - 1], b)
      case None => None
      case Some(k) =>
        if last.0 == b && last.1.number == k + 1 then (if last.1.last then None else Some(k + 1)) else Some(k)
  }

  lemma GotMore(log: seq<(nat, Datagram)>, x: (nat, Datagram), b: nat)
    ensures Got(log + [x], b) == match Got(log, b)
      case None => None
      case Some(k) => if x.0 == b && x.1.number == k + 1 then (if x.1.last then None else Some(k + 1)) else Some(k)
  {
    assert (log + [x])[..|log|] == log;
  }

  lemma {:induction false} GotGrows(log: seq<(nat, Datagram)>, j: nat, b: nat)
    requires j <= |log|
    ensures Got(log, b).Some? ==> Got(log[..j], b).Some? && Got(log[..j], b).value <= Got(log, b).value
    decreases |log|
  {
    if j == |log| {
      assert log[..j] == log;
    } else {
      assert log[..|log| - 1][..j] == log[..j];
      GotGrows(log[..|log| - 1], j, b);
    }
  }

  lemma {:induction false} ArrivalsGrow(t: N.State, events: seq<N.Event>, j: nat)
    requires j <= |events|
    ensures Arrivals(t, events[..j]) <= Arrivals(t, events)
    decreases |events|
  {
    if j == |events| {
      assert events[..j] == events;
    } else {
      assert events[..|events| - 1][..j] == events[..j];
      ArrivalsGrow(t, events[..|events| - 1], j);
    }
  }

  /** u still holds the addresses of s, each entry as far as log has brought it. */
  ghost predicate StillHeld(s: Server, u: Server, log: seq<(nat, Datagram)>)
  {
    && |u.con| == |s.con|
    && (forall i :: 0 <= i < |s.con| ==> !u.con[i].free && u.con[i].addr == s.con[i].addr)
    && (forall i :: 0 <= i < |s.con| ==> Brought(u.con[i], log))
  }

  predicate Brought(c: Slot, log: seq<(nat, Datagram)>) { c.chunkNo >= 0 && Got(log, c.addr) == Some(c.chunkNo) }

  ghost predicate Distinct(s: Server)
  {
    forall i, j :: 0 <= i < j < |s.con| ==> s.con[i].addr != s.con[j].addr
  }

  lemma FullDistinct(s: Server, n: nat)
    requires ServerInv(s) && Full(s, n)
    ensures Distinct(s)
  {
    forall i, j | 0 <= i < j < |s.con|
      ensures s.con[i].addr != s.con[j].addr
    {
      assert Live(s, i) && Live(s, j);
    }
  }

  /** Serving a table in which every entry is held: an address that holds entry i ... */
  lemma HolderServed(u: Server, a: nat, d: Datagram, i: nat)
    requires Distinct(u) && (forall k :: 0 <= k < |u.con| ==> !u.con[k].free) && i < |u.con| && u.con[i].addr == a
    ensures var v := Handle(u, a, d).0; var c := u.con[i];
      v.con == if d.number == c.chunkNo + 1 then u.con[i := c.(free := d.last, chunkNo := c.chunkNo + 1)] else u.con
  {
    assert LiveFrom(u.con, a, 0) == Some(i);
  }

  /** ... or none. */
  lemma OutsiderIgnored(u: Server, a: nat, d: Datagram)
    requires forall k :: 0 <= k < |u.con| ==> !u.con[k].free && u.con[k].addr != a
    ensures Handle(u, a, d).0 == u && Find(u, a).1.None?
  {
  }

  /** One more arrival that frees nothing. */
  lemma HeldStep(s: Server, u: Server, log: seq<(nat, Datagram)>, a: nat, d: Datagram)
    requires StillHeld(s, u, log) && Distinct(s)
    requires forall i :: 0 <= i < |s.con| ==> Got(log + [(a, d)], s.con[i].addr).Some?
    ensures StillHeld(s, Handle(u, a, d).0, log + [(a, d)])
  {
    if i :| 0 <= i < |u.con| && u.con[i].addr == a {
      HolderServed(u, a, d, i);
    } else {
      OutsiderIgnored(u, a, d);
    }
    forall i | 0 <= i < |s.con|
      ensures !Handle(u, a, d).0.con[i].free && Handle(u, a, d).0.con[i].addr == s.con[i].addr
      ensures Brought(Handle(u, a, d).0.con[i], log + [(a, d)])
    {
      assert Brought(u.con[i], log);
      GotMore(log, (a, d), s.con[i].addr);
    }
  }

  /** One more arrival that brings entry i its last chunk. */
  lemma FreeingStep(s: Server, u: Server, log: seq<(nat, Datagram)>, a: nat, d: Datagram, i: nat)
    requires StillHeld(s, u, log) && Distinct(s) && i < |s.con| && Got(log + [(a, d)], s.con[i].addr).None?
    ensures Roomy(Handle(u, a, d).0)
  {
    assert Brought(u.con[i], log);
    GotMore(log, (a, d), s.con[i].addr);
    HolderServed(u, a, d, i);
    assert Handle(u, a, d).0.con[i].free;
  }

  /** An event is an arrival, or leaves the server alone. */
  lemma ArrivalStep(t: N.State, events: seq<N.Event>) returns (a: nat, d: Datagram)
    requires events != []
    ensures var front := events[..|events| - 1]; var u, v := N.Run(t, front), N.Run(t, events);
      || (Arrivals(t, events) == Arrivals(t, front) && v.server == u.server)
      || (Arrivals(t, events) == Arrivals(t, front) + [(a, d)] && v.server == Handle(u.server, a, d).0)
  {
    a, d := 0, Datagram(0, false, []);
    match events[|events| - 1]
    case Arrive(x, y) => a, d := x, y;
    case Stranger(x, y) => a, d := x, y;
    case _ =>
  }

  /** While no holder's last chunk has come the table stays held. */
  lemma {:induction false} HeldRun(t: N.State, n: nat, events: seq<N.Event>)
    requires Full(t.server, n) && Distinct(t.server)
    requires forall i :: 0 <= i < |t.server.con| ==> Got(Arrivals(t, events), t.server.con[i].addr).Some?
    ensures StillHeld(t.server, N.Run(t, events).server, Arrivals(t, events))
  {
    if events == [] {
      forall i | 0 <= i < |t.server.con|
        ensures Brought(t.server.con[i], [])
      {
        assert Stale(t.server.con[i], n);
      }
    } else {
      var front := events[..|events| - 1];
      ArrivalsGrow(t, events, |front|);
      forall i | 0 <= i < |t.server.con|
        ensures Got(Arrivals(t, front), t.server.con[i].addr).Some?
      {
        GotGrows(Arrivals(t, events), |Arrivals(t, front)|, t.server.con[i].addr);
      }
      HeldRun(t, n, front);
      var a, d := ArrivalStep(t, events);
      if Arrivals(t, events) != Arrivals(t, front) {
        HeldStep(t.server, N.Run(t, front).server, Arrivals(t, front), a, d);
      }
    }
  }

  /** When the first holder's last chunk comes, an entry is free. */
  lemma {:induction false} Frees(t: N.State, n: nat, events: seq<N.Event>, i: nat) returns (j: nat)
    requires Full(t.server, n) && Distinct(t.server)
    requires i < |t.server.con| && Got(Arrivals(t, events), t.server.con[i].addr).None?
    ensures j <= |events| && Roomy(N.Run(t, events[..j]).server)
  {
    var front := events[..|events| - 1];
    if k :| 0 <= k < |t.server.con| && Got(Arrivals(t, front), t.server.con[k].addr).None? {
      j := Frees(t, n, front, k);
      assert front[..j] == events[..j];
    } else {
      HeldRun(t, n, front);
      var a, d := ArrivalStep(t, events);
      FreeingStep(t.server, N.Run(t, front).server, Arrivals(t, front), a, d, i);
      j := |events|;
      assert events[..j] == events;
    }
  }

  lemma NotFound(s: Server, n: nat, u: Server, log: seq<(nat, Datagram)>, x: nat)
    requires Full(s, n) && StillHeld(s, u, log) && x >= n
    ensures Find(u, x).1.None?
  {
    forall k | 0 <= k < |u.con|
      ensures !u.con[k].free && u.con[k].addr != x
    {
      assert Stale(s.con[k], n);
    }
    OutsiderIgnored(u, x, Datagram(0, false, []));
  }

  /** Until then nobody else is served. */
  lemma NotServed(t: N.State, n: nat, events: seq<N.Event>, x: nat, j: nat)
    requires Full(t.server, n) && Distinct(t.server) && x >= n && j <= |events|
    requires forall i :: 0 <= i < |t.server.con| ==> Got(Arrivals(t, events), t.server.con[i].addr).Some?
    ensures Find(N.Run(t, events[..j]).server, x).1.None?
  {
    ArrivalsGrow(t, events, j);
    var log := Arrivals(t, events[..j]);
    assert Arrivals(t, events)[..|log|] == log;
    forall i | 0 <= i < |t.server.con|
      ensures Got(log, t.server.con[i].addr).Some?
    {
      GotGrows(Arrivals(t, events), |log|, t.server.con[i].addr);
    }
    HeldRun(t, n, events[..j]);
    NotFound(t.server, n, N.Run(t, events[..j]).server, log, x);
  }

  /**
   From a table of leftovers, in any run: an address that holds none of them is served at some time if and only if some
   holder's chunks 1, 2, 3, ... have come in order, up to one flagged last.
   */
  lemma ServedAgainExactly(t: N.State, n: nat, events: seq<N.Event>, x: nat)
    requires ServerInv(t.server) && Full(t.server, n) && x >= n
    ensures (exists j :: 0 <= j <= |events| && Find(N.Run(t, events[..j]).server, x).1.Some?)
      <==> exists i :: 0 <= i < |t.server.con| && Got(Arrivals(t, events), t.server.con[i].addr).None?
  {
    FullDistinct(t.server, n);
    if i :| 0 <= i < |t.server.con| && Got(Arrivals(t, events), t.server.con[i].addr).None? {
      var j := Frees(t, n, events, i);
      assert Find(N.Run(t, events[..j]).server, x).1.Some?;
    } else {
      forall j | 0 <= j <= |events|
        ensures Find(N.Run(t, events[..j]).server, x).1.None?
      {
        NotServed(t, n, events, x, j);
      }
    }
  }

  // ---- for clients that send their files ----

  /** The datagrams of plan reach the server from b one after another, whatever comes between; at holds the places. */
  ghost predicate Places(log: seq<(nat, Datagram)>, b: nat, plan: seq<Datagram>, at: seq<nat>)
  {
    && |at| == |plan|
    && (forall i :: 0 <= i < |at| ==> at[i] < |log| && log[at[i]] == (b, plan[i]))
    && (forall i, j :: 0 <= i < j < |at| ==> at[i] < at[j])
  }

  ghost predicate InOrder(log: seq<(nat, Datagram)>, b: nat, plan: seq<Datagram>) { exists at :: Places(log, b, plan, at) }

  ghost predicate Sends(log: seq<(nat, Datagram)>, b: nat, plan: seq<Datagram>)
  {
    forall i :: 0 <= i < |log| && log[i].0 == b ==> log[i].1 in plan
  }

  lemma PlacesMore(log: seq<(nat, Datagram)>, d: Datagram, b: nat, plan: seq<Datagram>, k: nat)
    requires k < |plan| && d == plan[k] && InOrder(log, b, plan[..k])
    ensures InOrder(log + [(b, d)], b, plan[..k + 1])
  {
    var at: seq<nat> :| Places(log, b, plan[..k], at);
    var here: nat := |log|;
    assert Places(log + [(b, d)], b, plan[..k + 1], at + [here]);
  }

  lemma PlacesStay(log: seq<(nat, Datagram)>, x: (nat, Datagram), b: nat, plan: seq<Datagram>)
    requires InOrder(log, b, plan)
    ensures InOrder(log + [x], b, plan)
  {
    var at: seq<nat> :| Places(log, b, plan, at);
    assert Places(log + [x], b, plan, at);
  }

  /** Chunks that count as come in order have done so. */
  lemma {:induction false} GotInOrder(log: seq<(nat, Datagram)>, b: nat, plan: seq<Datagram>)
    requires IsPlan(plan) && Sends(log, b, plan)
    ensures match Got(log, b)
      case None => InOrder(log, b, plan)
      case Some(k) => k < |plan| && InOrder(log, b, plan[..k])
  {
    if log == [] {
      assert Places(log, b, plan[..0], []);
    } else {
      var front, x := log[..|log| - 1], log[|log| - 1];
      assert log == front + [x];
      GotInOrder(front, b, plan);
      match Got(front, b)
      case None => PlacesStay(front, x, b, plan);
      case Some(k) =>
        if x.0 == b && x.1.number == k + 1 {
          var n :| 0 <= n < |plan| && plan[n] == x.1;
          PlacesMore(front, x.1, b, plan, k);
          assert plan[..|plan|] == plan;
        } else {
          PlacesStay(front, x, b, plan[..k]);
        }
    }
  }

  /** And the other way round. */
  lemma {:induction false} InOrderGot(log: seq<(nat, Datagram)>, b: nat, plan: seq<Datagram>, at: seq<nat>, i: nat)
    requires IsPlan(plan) && Places(log, b, plan, at) && i < |at|
    ensures Got(log[..at[i] + 1], b).Some? ==> Got(log[..at[i] + 1], b).value >= i + 1
  {
    var upto := log[..at[i]];
    assert log[..at[i] + 1] == upto + [log[at[i]]];
    GotMore(upto, log[at[i]], b);
    if i > 0 {
      InOrderGot(log, b, plan, at, i - 1);
      assert upto[..at[i - 1] + 1] == log[..at[i - 1] + 1];
      GotGrows(upto, at[i - 1] + 1, b);
    }
  }

  /** The last chunk counts as come exactly if the whole file has come in order. */
  lemma GotMeansInOrder(log: seq<(nat, Datagram)>, b: nat, plan: seq<Datagram>)
    requires IsPlan(plan) && Sends(log, b, plan)
    ensures Got(log, b).None? <==> InOrder(log, b, plan)
  {
    GotInOrder(log, b, plan);
    if at: seq<nat> :| Places(log, b, plan, at) {
      var i := |plan| - 1;
      InOrderGot(log, b, plan, at, i);
      GotGrows(log, at[i] + 1, b);
    }
  }

  lemma {:induction false} PlansStay(t: N.State, events: seq<N.Event>)
    requires N.Inv(t)
    ensures N.Inv(N.Run(t, events)) && N.SamePlans(t, N.Run(t, events))
  {
    if events != [] {
      var front, e := events[..|events| - 1], events[|events| - 1];
      PlansStay(t, front);
      if N.Next(N.Run(t, front), e).Some? {
        N.StepKeeps(N.Run(t, front), e);
        SamePlansNext(N.Run(t, front), e);
      }
    }
  }

  lemma SamePlansNext(u: N.State, e: N.Event)
    requires N.Next(u, e).Some?
    ensures N.SamePlans(u, N.Next(u, e).value)
  {
  }

  /** What comes from client b is of its plan. */
  lemma {:induction false} ClientsSendPlans(t: N.State, events: seq<N.Event>, b: nat)
    requires N.Inv(t) && b < |t.clients|
    ensures Sends(Arrivals(t, events), b, t.clients[b].plan)
  {
    if events != [] {
      var front, e := events[..|events| - 1], events[|events| - 1];
      ClientsSendPlans(t, front, b);
      PlansStay(t, front);
      if N.Next(N.Run(t, front), e).Some? {
        ArrivedIsSent(N.Run(t, front), e, b);
      }
    }
  }

  lemma ArrivedIsSent(u: N.State, e: N.Event, b: nat)
    requires N.Inv(u) && b < |u.clients| && N.Next(u, e).Some?
    ensures e.Arrive? && e.a == b ==> e.d in u.clients[b].plan
    ensures e.Stranger? ==> e.a != b
  {
  }

  /**
   In the network: a table of leftovers of clients serves another address at some time if and only if the whole file of
   one of those clients has come again, in order.
   */
  lemma ServedAfterResend(t: N.State, n: nat, events: seq<N.Event>, x: nat)
    requires N.Inv(t) && Full(t.server, n) && n <= |t.clients| && x >= n
    ensures forall i :: 0 <= i < |t.server.con| ==> t.server.con[i].addr < |t.clients|
    ensures (exists j :: 0 <= j <= |events| && Find(N.Run(t, events[..j]).server, x).1.Some?)
      <==> exists i :: 0 <= i < |t.server.con| && var b := t.server.con[i].addr; InOrder(Arrivals(t, events), b, t.clients[b].plan)
  {
    forall i | 0 <= i < |t.server.con|
      ensures var b := t.server.con[i].addr;
        b < |t.clients| && (Got(Arrivals(t, events), b).None? <==> InOrder(Arrivals(t, events), b, t.clients[b].plan))
    {
      assert Stale(t.server.con[i], n);
      var b := t.server.con[i].addr;
      assert N.ClientOk(t, b);
      ClientsSendPlans(t, events, b);
      GotMeansInOrder(Arrivals(t, events), b, t.clients[b].plan);
    }
    ServedAgainExactly(t, n, events, x);
  }
}
