/** What a resent last chunk leaves in the server's table. */
module TransferReplay {
  import opened Counting
  import opened TransferServer
  import opened TransferClient
  import opened TransferFifo
  import N = TransferNet

  // ---- the server ----

  ghost predicate Unknown(s: Server, b: nat) { forall l :: 0 <= l < |s.lives| ==> s.lives[l].addr != b }

  /** Nothing about address b has changed: not its entry, not its output. */
  ghost predicate SameFor(s: Server, t: Server, b: nat)
  {
    && |t.con| == |s.con| && (forall i :: 0 <= i < |s.con| ==> SameEntry(s, t, b, i))
    && Output(t.lives, b) == Output(s.lives, b) && (Unknown(s, b) ==> Unknown(t, b))
  }

  ghost predicate SameEntry(s: Server, t: Server, b: nat, i: nat)
    requires |t.con| == |s.con| && i < |s.con|
  {
    && (Live(t, i) && t.con[i].addr == b <==> Live(s, i) && s.con[i].addr == b)
    && (Live(s, i) && s.con[i].addr == b ==> t.con[i] == s.con[i])
  }

  lemma ServingLeavesOthers(s: Server, a: nat, d: Datagram, b: nat)
    requires ServerInv(s) && a != b
    ensures SameFor(s, Handle(s, a, d).0, b)
  {
    var t := Handle(s, a, d).0;
    HandleKeeps(s, a, d);
    forall i | 0 <= i < |s.con|
      ensures SameEntry(s, t, b, i)
    {
      OtherEntry(s, a, d, b, i);
    }
    OtherOutput(s, a, d, b);
    if Unknown(s, b) {
      StillUnknown(s, a, d, b);
    }
  }

  lemma SameForTrans(s: Server, t: Server, u: Server, b: nat)
    requires SameFor(s, t, b) && SameFor(t, u, b)
    ensures SameFor(s, u, b)
  {
    forall i | 0 <= i < |s.con|
      ensures SameEntry(s, u, b, i)
    {
      assert SameEntry(s, t, b, i) && SameEntry(t, u, b, i);
    }
  }

  /** Having accepted the last chunk the server has no entry for a, and a free one. */
  lemma LastFrees(s: Server, a: nat, d: Datagram, total: nat)
    requires total > 0 && TableOk(s, a, total - 1, total) && HasRoom(s, a) && d.number == total && d.last
    ensures NoEntry(Handle(s, a, d).0, a) && Roomy(Handle(s, a, d).0)
  {
    RoomFound(s, a, total - 1, total);
    Accepts(s, a, d);
    var (u, pos) := Find(s, a);
    var t := Handle(s, a, d).0;
    assert t.con[pos.value].free;
    forall i: nat | Live(t, i)
      ensures t.con[i].addr != a
    {
      assert Live(u, i) && i != pos.value;
    }
  }

  /** With no entry for a and room for one, a stray chunk 1 is printed. */
  lemma FirstPrints(s: Server, a: nat, d: Datagram)
    requires ServerInv(s) && NoEntry(s, a) && Roomy(s) && d.number == 1
    ensures Output(Handle(s, a, d).0.lives, a) == Output(s.lives, a) + [d]
  {
    FindKeeps(s, a);
    FindOutput(s, a, a);
    Accepts(s, a, d);
    var (u, pos) := Find(s, a);
    assert SlotOk(u, pos.value);
    OutputPrint(u.lives, u.con[pos.value].life, d, a);
  }

  predicate Busy(c: Slot) { !c.free }

  /** With no entry for a and room for one, a stray later chunk is dropped, and leaves an entry expecting chunk 1. */
  lemma StrayOccupies(s: Server, a: nat, d: Datagram) returns (i: nat)
    requires ServerInv(s) && NoEntry(s, a) && Roomy(s) && d.number >= 2
    ensures var (t, echo) := Handle(s, a, d);
      && !echo && i < |s.con| && s.con[i].free && t.con == s.con[i := Slot(false, 0, a, |s.lives|)]
      && Output(t.lives, a) == Output(s.lives, a) && ServerInv(t)
  {
    HandleKeeps(s, a, d);
    FindOutput(s, a, a);
    i := LastFree(s.con, |s.con|).value;
  }

  // ---- runs of the network ----

  lemma RunOn(s: N.State, past: seq<N.Event>, e: N.Event)
    ensures N.Run(s, past + [e]) == match N.Next(N.Run(s, past), e) case None => N.Run(s, past) case Some(t) => t
  {
    assert (past + [e])[..|past|] == past;
  }

  /** Client a is about to send chunk k + 1 for the first time, and the server waits for it. */
  ghost predicate Before(u: N.State, a: nat, k: nat)
  {
    && a < |u.clients| && IsPlan(u.clients[a].plan) && k < |u.clients[a].plan|
    && u.clients[a] == Client(u.clients[a].plan, k, 0, Sending)
    && TableOk(u.server, a, k, |u.clients[a].plan|) && HasRoom(u.server, a) && Output(u.server.lives, a) == u.clients[a].plan[..k]
  }

  /** Whatever has happened between u and t concerns address a only; nothing sent has vanished. */
  ghost predicate Only(u: N.State, t: N.State, a: nat)
  {
    && a < |u.clients| == |t.clients| && t.clients[a].plan == u.clients[a].plan && u.data <= t.data
    && |t.server.con| == |u.server.con|
    && (forall b :: 0 <= b < |u.clients| && b != a ==> t.clients[b] == u.clients[b])
    && (forall b: nat :: b != a ==> SameFor(u.server, t.server, b))
  }

  lemma OnlyTrans(u: N.State, t: N.State, v: N.State, a: nat)
    requires Only(u, t, a) && Only(t, v, a)
    ensures Only(u, v, a)
  {
    forall b: nat | b != a
      ensures SameFor(u.server, v.server, b)
    {
      SameForTrans(u.server, t.server, v.server, b);
    }
  }

  /** A step of client a alone. */
  lemma ClientOnly(u: N.State, t: N.State, a: nat)
    requires a < |u.clients| && t.server == u.server && u.data <= t.data && |t.clients| == |u.clients|
    requires t.clients[a].plan == u.clients[a].plan && t.clients == u.clients[a := t.clients[a]]
    ensures Only(u, t, a)
  {
  }

  lemma SendOn(s: N.State, past: seq<N.Event>, a: nat)
    requires var u := N.Run(s, past); a < |u.clients| && u.clients[a].phase.Sending? && u.clients[a].k < |u.clients[a].plan|
    ensures var u, t := N.Run(s, past), N.Run(s, past + [N.Send(a)]);
      && t == u.(clients := u.clients[a := Sent(u.clients[a])], data := u.data + {(a, u.clients[a].plan[u.clients[a].k])})
      && Only(u, t, a)
  {
    RunOn(s, past, N.Send(a));
    ClientOnly(N.Run(s, past), N.Run(s, past + [N.Send(a)]), a);
  }

  /** A datagram of a arrives. */
  lemma ServesOnly(u: N.State, a: nat, d: Datagram)
    requires a < |u.clients| && ServerInv(u.server)
    ensures Only(u, N.Serve(u, a, d), a)
  {
    HandleKeeps(u.server, a, d);
    forall b: nat | b != a
      ensures SameFor(u.server, Handle(u.server, a, d).0, b)
    {
      ServingLeavesOthers(u.server, a, d, b);
    }
  }

  lemma ArriveOn(s: N.State, past: seq<N.Event>, a: nat, d: Datagram)
    requires var u := N.Run(s, past); a < |u.clients| && (a, d) in u.data && ServerInv(u.server)
    ensures var u, t := N.Run(s, past), N.Run(s, past + [N.Arrive(a, d)]);
      t == N.Serve(u, a, d) && Only(u, t, a)
  {
    RunOn(s, past, N.Arrive(a, d));
    ServesOnly(N.Run(s, past), a, d);
  }

  lemma HearOn(s: N.State, past: seq<N.Event>, a: nat, d: Datagram)
    requires var u := N.Run(s, past);
      a < |u.clients| && u.clients[a].phase.Waiting? && u.clients[a].k < |u.clients[a].plan| && (a, d) in u.echoes
    ensures var u, t := N.Run(s, past), N.Run(s, past + [N.Hear(a, d)]);
      t == u.(clients := u.clients[a := Heard(u.clients[a], Some(d.number))]) && Only(u, t, a)
  {
    RunOn(s, past, N.Hear(a, d));
    ClientOnly(N.Run(s, past), N.Run(s, past + [N.Hear(a, d)]), a);
  }

  lemma AlarmOn(s: N.State, past: seq<N.Event>, a: nat)
    requires var u := N.Run(s, past); a < |u.clients| && u.clients[a].phase.Waiting? && u.clients[a].k < |u.clients[a].plan|
    ensures var u, t := N.Run(s, past), N.Run(s, past + [N.Alarm(a)]);
      t == u.(clients := u.clients[a := Heard(u.clients[a], None)]) && Only(u, t, a)
  {
    RunOn(s, past, N.Alarm(a));
    ClientOnly(N.Run(s, past), N.Run(s, past + [N.Alarm(a)]), a);
  }

  /** Send and arrive: the chunk is printed and its echo on the way. */
  lemma Printed(s: N.State, past: seq<N.Event>, a: nat, k: nat) returns (events: seq<N.Event>)
    requires Before(N.Run(s, past), a, k)
    ensures var u, t := N.Run(s, past), N.Run(s, events); var d := u.clients[a].plan[k];
      && Only(u, t, a) && t.clients[a] == Sent(u.clients[a]) && (a, d) in t.echoes && (a, d) in t.data
      && t.server == Handle(u.server, a, d).0
  {
    var u := N.Run(s, past);
    var d := u.clients[a].plan[k];
    SendOn(s, past, a);
    var u1 := N.Run(s, past + [N.Send(a)]);
    ArriveOn(s, past + [N.Send(a)], a, d);
    events := past + [N.Send(a)] + [N.Arrive(a, d)];
    ServesNext(u.server, a, d, k, |u.clients[a].plan|);
    OnlyTrans(u, u1, N.Run(s, events), a);
  }

  /** And hear: one chunk further. */
  lemma OneMore(s: N.State, past: seq<N.Event>, a: nat, k: nat) returns (events: seq<N.Event>)
    requires Before(N.Run(s, past), a, k) && k + 1 < |N.Run(s, past).clients[a].plan|
    ensures Only(N.Run(s, past), N.Run(s, events), a) && Before(N.Run(s, events), a, k + 1)
  {
    var u := N.Run(s, past);
    var d := u.clients[a].plan[k];
    events := Printed(s, past, a, k);
    var t := N.Run(s, events);
    HearOn(s, events, a, d);
    events := events + [N.Hear(a, d)];
    OnlyTrans(u, t, N.Run(s, events), a);
    ServesNext(u.server, a, d, k, |u.clients[a].plan|);
    ClientOnward(u.clients[a].plan, k);
    OnePrintedMore(u.clients[a].plan, k);
  }

  /** Chunk after chunk, up to before chunk goal + 1 of a plan of length total. */
  lemma {:induction false} UpTo(s: N.State, past: seq<N.Event>, a: nat, k: nat, goal: nat, total: nat) returns (events: seq<N.Event>)
    requires Before(N.Run(s, past), a, k) && k <= goal < total == |N.Run(s, past).clients[a].plan|
    ensures Only(N.Run(s, past), N.Run(s, events), a) && Before(N.Run(s, events), a, goal)
    decreases goal - k
  {
    if k == goal {
      events := past;
      ClientOnly(N.Run(s, past), N.Run(s, past), a);
    } else {
      var next := OneMore(s, past, a, k);
      SamePlan(N.Run(s, past), N.Run(s, next), a);
      events := UpTo(s, next, a, k + 1, goal, total);
      OnlyTrans(N.Run(s, past), N.Run(s, next), N.Run(s, events), a);
    }
  }

  lemma SamePlan(u: N.State, t: N.State, a: nat)
    requires Only(u, t, a)
    ensures t.clients[a].plan == u.clients[a].plan
  {
  }

  /** The whole file of a has been printed once and its entry freed. */
  ghost predicate Freed(t: N.State, a: nat)
  {
    && a < |t.clients| && IsPlan(t.clients[a].plan) && ServerInv(t.server) && Output(t.server.lives, a) == t.clients[a].plan
    && NoEntry(t.server, a) && Roomy(t.server)
  }

  lemma LastServed(v: N.State, a: nat)
    requires a < |v.clients| && v.clients[a].plan != [] && Before(v, a, |v.clients[a].plan| - 1)
    ensures var plan := v.clients[a].plan; var t := Handle(v.server, a, plan[|plan| - 1]).0;
      ServerInv(t) && Output(t.lives, a) == plan && NoEntry(t, a) && Roomy(t)
  {
    var plan := v.clients[a].plan;
    var k := |plan| - 1;
    ServesNext(v.server, a, plan[k], k, |plan|);
    LastFrees(v.server, a, plan[k], |plan|);
    OnePrintedMore(plan, k);
  }

  /** The last chunk printed, its echo on the way, its client still waiting. */
  lemma AllPrinted(s: N.State, past: seq<N.Event>, a: nat) returns (events: seq<N.Event>)
    requires Before(N.Run(s, past), a, 0)
    ensures Only(N.Run(s, past), N.Run(s, events), a) && Freed(N.Run(s, events), a)
    ensures var t := N.Run(s, events); var plan := N.Run(s, past).clients[a].plan;
      && t.clients[a] == Client(plan, |plan| - 1, 1, Waiting)
      && (a, plan[|plan| - 1]) in t.data && (a, plan[|plan| - 1]) in t.echoes
  {
    var plan := N.Run(s, past).clients[a].plan;
    var before := UpTo(s, past, a, 0, |plan| - 1, |plan|);
    events := Printed(s, before, a, |plan| - 1);
    OnlyTrans(N.Run(s, past), N.Run(s, before), N.Run(s, events), a);
    LastServed(N.Run(s, before), a);
  }

  lemma StartsBefore(s: N.State, a: nat)
    requires a < |s.clients| && IsPlan(s.clients[a].plan) && s.clients[a] == Fresh(s.clients[a].plan)
    requires ServerInv(s.server) && Unknown(s.server, a) && Roomy(s.server)
    ensures Before(s, a, 0)
  {
    OutputNothing(s.server.lives, a);
    NothingKnown(s.server, a);
    assert forall i :: 0 <= i < |s.server.con| ==> EntryOk(s.server, a, i, Expected(0, |s.clients[a].plan|));
  }

  // ---- a resent last chunk ----

  /** Sent again after a time-out, and its first echo heard: the client is done. */
  lemma ResendsLast(s: N.State, past: seq<N.Event>, a: nat) returns (events: seq<N.Event>)
    requires var u := N.Run(s, past); a < |u.clients| && IsPlan(u.clients[a].plan) && var plan := u.clients[a].plan;
      u.clients[a] == Client(plan, |plan| - 1, 1, Waiting) && (a, plan[|plan| - 1]) in u.echoes
    ensures var u, t := N.Run(s, past), N.Run(s, events);
      Only(u, t, a) && t.server == u.server && t.clients[a].phase == Finished(true)
  {
    var u := N.Run(s, past);
    var d := u.clients[a].plan[|u.clients[a].plan| - 1];
    AlarmOn(s, past, a);
    var u1 := N.Run(s, past + [N.Alarm(a)]);
    SendOn(s, past + [N.Alarm(a)], a);
    var u2 := N.Run(s, past + [N.Alarm(a)] + [N.Send(a)]);
    HearOn(s, past + [N.Alarm(a)] + [N.Send(a)], a, d);
    events := past + [N.Alarm(a)] + [N.Send(a)] + [N.Hear(a, d)];
    OnlyTrans(u, u1, u2, a);
    OnlyTrans(u, u2, N.Run(s, events), a);
  }

  /** A transfer of two or more chunks whose last chunk is resent ends well for the client and leaves an entry behind. */
  lemma LeavesEntry(s: N.State, past: seq<N.Event>, a: nat) returns (events: seq<N.Event>, w: N.State, i: nat)
    requires Before(N.Run(s, past), a, 0) && |N.Run(s, past).clients[a].plan| >= 2
    ensures var u, t := N.Run(s, past), N.Run(s, events);
      && Only(u, t, a) && t.clients[a].phase == Finished(true) && Output(t.server.lives, a) == u.clients[a].plan && ServerInv(t.server)
      && Only(u, w, a) && NoEntry(w.server, a)
      && i < |w.server.con| && w.server.con[i].free && t.server.con == w.server.con[i := Slot(false, 0, a, |w.server.lives|)]
  {
    var u := N.Run(s, past);
    var d := u.clients[a].plan[|u.clients[a].plan| - 1];
    var printed := AllPrinted(s, past, a);
    w := N.Run(s, printed);
    var resent := ResendsLast(s, printed, a);
    var v := N.Run(s, resent);
    ArriveOn(s, resent, a, d);
    i := StrayOccupies(w.server, a, d);
    events := resent + [N.Arrive(a, d)];
    OnlyTrans(u, w, v, a);
    OnlyTrans(u, v, N.Run(s, events), a);
  }

  /** The first j clients have finished and left an entry each; the others have not begun. */
  ghost predicate Left(s: N.State, u: N.State, j: nat)
  {
    && ServerInv(u.server) && |u.clients| == |s.clients| && |u.server.con| == |s.server.con| && j <= |s.clients|
    && (forall b :: j <= b < |s.clients| ==> u.clients[b] == s.clients[b] && Unknown(u.server, b))
    && (forall b :: 0 <= b < j ==> Done(s, u, b))
    && (forall i :: 0 <= i < |u.server.con| ==> Stale(u.server.con[i], j))
    && Count(u.server.con, Busy) == j
  }

  ghost predicate Done(s: N.State, u: N.State, b: nat)
    requires |u.clients| == |s.clients| && b < |s.clients|
  {
    u.clients[b].phase == Finished(true) && Output(u.server.lives, b) == s.clients[b].plan
  }

  /** A live entry is a leftover of one of the first j clients. */
  predicate Stale(c: Slot, j: nat) { !c.free ==> c.addr < j && c.chunkNo == 0 }

  /** Serving only j has not changed how many entries are live, once j's own is gone. */
  lemma SameBusy(u: N.State, w: N.State, j: nat)
    requires Only(u, w, j) && NoEntry(w.server, j) && forall i :: 0 <= i < |u.server.con| ==> Stale(u.server.con[i], j)
    ensures Count(w.server.con, Busy) == Count(u.server.con, Busy)
    ensures forall i :: 0 <= i < |w.server.con| ==> Stale(w.server.con[i], j)
  {
    forall i | 0 <= i < |u.server.con|
      ensures Busy(w.server.con[i]) == Busy(u.server.con[i]) && Stale(w.server.con[i], j)
    {
      if Busy(w.server.con[i]) {
        assert Live(w.server, i);
        var b := w.server.con[i].addr;
        assert b != j && SameFor(u.server, w.server, b);
        assert SameEntry(u.server, w.server, b, i);
      }
      if Busy(u.server.con[i]) {
        assert Stale(u.server.con[i], j) && Live(u.server, i);
        var b := u.server.con[i].addr;
        assert b != j && SameFor(u.server, w.server, b);
        assert SameEntry(u.server, w.server, b, i);
      }
    }
    SameCount(w.server.con, u.server.con, Busy);
  }

  lemma HasFree(s: Server, j: nat)
    requires Count(s.con, Busy) == j < |s.con|
    ensures Roomy(s)
  {
    CountFull(s.con, Busy);
    var i :| 0 <= i < |s.con| && !Busy(s.con[i]);
    assert s.con[i].free;
  }

  lemma LeftMore(s: N.State, u: N.State, w: N.State, t: N.State, j: nat, i: nat)
    requires Left(s, u, j) && j < |s.clients| && Only(u, t, j) && Only(u, w, j) && NoEntry(w.server, j) && ServerInv(t.server)
    requires t.clients[j].phase == Finished(true) && Output(t.server.lives, j) == s.clients[j].plan
    requires i < |w.server.con| && w.server.con[i].free && t.server.con == w.server.con[i := Slot(false, 0, j, |w.server.lives|)]
    ensures Left(s, t, j + 1)
  {
    SameBusy(u, w, j);
    CountUpdate(w.server.con, i, t.server.con[i], Busy);
    forall b | 0 <= b < j + 1
      ensures Done(s, t, b)
    {
      if b < j {
        assert Done(s, u, b) && SameFor(u.server, t.server, b);
      }
    }
    forall b | j + 1 <= b < |s.clients|
      ensures t.clients[b] == s.clients[b] && Unknown(t.server, b)
    {
      assert SameFor(u.server, t.server, b);
    }
    forall k | 0 <= k < |t.server.con|
      ensures Stale(t.server.con[k], j + 1)
    {
      assert Stale(w.server.con[k], j);
    }
  }

  lemma {:induction false} Fills(s: N.State, j: nat) returns (events: seq<N.Event>)
    requires N.Init(s) && j <= |s.server.con| <= |s.clients|
    requires forall b :: 0 <= b < |s.server.con| ==> |s.clients[b].plan| >= 2
    ensures Left(s, N.Run(s, events), j)
  {
    if j == 0 {
      events := [];
      CountNone(s.server.con, Busy);
    } else {
      var past := Fills(s, j - 1);
      var u := N.Run(s, past);
      HasFree(u.server, j - 1);
      StartsBefore(u, j - 1);
      var w, i;
      events, w, i := LeavesEntry(s, past, j - 1);
      LeftMore(s, u, w, N.Run(s, events), j - 1, i);
    }
  }

  /** Every entry is live, serves an address below n and expects chunk 1. */
  predicate Full(s: Server, n: nat) { forall i :: 0 <= i < |s.con| ==> !s.con[i].free && Stale(s.con[i], n) }

  /** A table of leftovers ignores every address it does not hold, and every chunk but the first from those it holds. */
  lemma FullIgnores(s: Server, n: nat, x: nat, d: Datagram)
    requires Full(s, n) && (x >= n || d.number >= 2)
    ensures Handle(s, x, d) == (s, false)
  {
  }

  /**
   As many clients as the table has entries, each with a file of two or more chunks and one resend of its last chunk,
   can all end acknowledged with their files printed once, and leave a table that serves no other address.  Each
   datagram arrives as often as it was sent.
   */
  lemma ResendsFillTable(s: N.State) returns (events: seq<N.Event>)
    requires N.Init(s) && |s.server.con| <= |s.clients|
    requires forall b :: 0 <= b < |s.server.con| ==> |s.clients[b].plan| >= 2
    ensures var t := N.Run(s, events); |t.clients| == |s.clients| && Full(t.server, |s.server.con|)
    ensures var t := N.Run(s, events); forall b :: 0 <= b < |s.server.con| ==>
      t.clients[b].phase == Finished(true) && Output(t.server.lives, b) == s.clients[b].plan
    ensures var t := N.Run(s, events); forall x: nat, d :: x >= |s.server.con| ==> Handle(t.server, x, d) == (t.server, false)
  {
    var n := |s.server.con|;
    events := Fills(s, n);
    var t := N.Run(s, events);
    CountFull(t.server.con, Busy);
    forall i | 0 <= i < n
      ensures !t.server.con[i].free && Stale(t.server.con[i], n)
    {
      assert Busy(t.server.con[i]);
    }
    forall b | 0 <= b < n
      ensures t.clients[b].phase == Finished(true) && Output(t.server.lives, b) == s.clients[b].plan
    {
      assert Done(s, t, b);
    }
    forall x: nat, d | x >= n
      ensures Handle(t.server, x, d) == (t.server, false)
    {
      FullIgnores(t.server, n, x, d);
    }
  }

  /** What the event brings the server, if anything, is not a chunk 1 from one of the first n addresses. */
  predicate NoNewStart(e: N.Event, n: nat)
  {
    match e
    case Arrive(a, d) => a >= n || d.number >= 2
    case Stranger(a, d) => a >= n || d.number >= 2
    case _ => true
  }

  /** And it stays that way: the finished clients send nothing, least of all a chunk 1. */
  lemma {:induction false} FullForGood(t: N.State, n: nat, events: seq<N.Event>)
    requires Full(t.server, n) && forall k :: 0 <= k < |events| ==> NoNewStart(events[k], n)
    ensures N.Run(t, events).server == t.server
  {
    if events != [] {
      var front, e := events[..|events| - 1], events[|events| - 1];
      FullForGood(t, n, front);
      match e
      case Arrive(a, d) => FullIgnores(t.server, n, a, d);
      case Stranger(a, d) => FullIgnores(t.server, n, a, d);
      case _ =>
    }
  }
}
