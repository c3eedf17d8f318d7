/** A file that has been printed and a client that does not know it: when can it still learn? */
module TransferEcho {
  import opened TransferServer
  import opened TransferClient
  import opened TransferFifo

  // ---- two or more chunks ----

  /** The whole file of two or more chunks is printed. */
  ghost predicate Whole(s: Link, a: nat)
  {
    Inv(s, a) && |s.c.plan| >= 2 && Output(s.server.lives, a) == s.c.plan
  }

  /** And the client does not know it yet. */
  ghost predicate Unacknowledged(s: Link, a: nat) { Whole(s, a) && s.c.phase != Finished(true) }

  /** Once the whole file is printed no arrival is echoed or printed any more. */
  lemma NoMoreEchoes(s: Link, a: nat)
    requires Whole(s, a) && s.dataQ != []
    ensures Next(s, a, Arrive).value.echoQ == s.echoQ
    ensures Output(Next(s, a, Arrive).value.server.lives, a) == s.c.plan
  {
    var total := |s.c.plan|;
    FindOwn(s.server, a, total, total);
    FindOutput(s.server, a, a);
    var n :| 0 <= n < total && s.c.plan[n] == s.dataQ[0];
  }

  /** An echo of the last chunk is on its way. */
  predicate LastEchoed(s: Link) { exists j :: 0 <= j < |s.echoQ| && s.echoQ[j].number == |s.c.plan| }

  /** Without an echo of the last chunk in the queue none appears, and the client does not end acknowledged. */
  lemma NoLastEcho(s: Link, a: nat, e: Event)
    requires Unacknowledged(s, a) && !LastEchoed(s) && Next(s, a, e).Some?
    ensures !LastEchoed(Next(s, a, e).value) && Next(s, a, e).value.c.phase != Finished(true)
  {
    if e.Arrive? {
      NoMoreEchoes(s, a);
    }
    assert forall j :: 0 <= j < |s.echoQ| ==> s.echoQ[j].number != |s.c.plan|;
  }

  lemma StaysPrinted(s: Link, a: nat, e: Event)
    requires Whole(s, a) && Next(s, a, e).Some?
    ensures Output(Next(s, a, e).value.server.lives, a) == s.c.plan
  {
    if e.Arrive? {
      NoMoreEchoes(s, a);
    } else if e.Other? {
      OtherOutput(s.server, e.addr, e.d, a);
    }
  }

  lemma StaysUnacknowledged(s: Link, a: nat, e: Event)
    requires Unacknowledged(s, a) && !LastEchoed(s) && Next(s, a, e).Some?
    ensures Unacknowledged(Next(s, a, e).value, a) && !LastEchoed(Next(s, a, e).value)
  {
    StepKeeps(s, a, e);
    NoLastEcho(s, a, e);
    StaysPrinted(s, a, e);
  }

  lemma {:induction false} NeverAcknowledged(s: Link, a: nat, events: seq<Event>)
    requires Unacknowledged(s, a) && !LastEchoed(s)
    ensures Unacknowledged(Run(s, a, events), a) && !LastEchoed(Run(s, a, events))
  {
    if events != [] {
      var front := events[..|events| - 1];
      NeverAcknowledged(s, a, front);
      if Next(Run(s, a, front), a, events[|events| - 1]).Some? {
        StaysUnacknowledged(Run(s, a, front), a, events[|events| - 1]);
      }
    }
  }

  /** One event from s. */
  lemma OneEvent(s: Link, a: nat, e: Event)
    requires IsPlan(s.c.plan) && s.c.k < |s.c.plan| && Next(s, a, e).Some?
    ensures Run(s, a, [e]) == Next(s, a, e).value
  {
    assert Run(s, a, []) == s;
    RunOne(s, a, [], e);
    assert [] + [e] == [e];
  }

  /** Losing the echoes before it, the client hears the echo of the last chunk. */
  lemma {:induction false} HearsIt(s: Link, a: nat, j: nat) returns (events: seq<Event>)
    requires IsPlan(s.c.plan) && s.c.k == |s.c.plan| - 1 && s.c.phase.Waiting? && j < |s.echoQ| && s.echoQ[j].number == |s.c.plan|
    ensures Run(s, a, events).c.phase == Finished(true)
    decreases j
  {
    if j == 0 {
      events := [Hear];
      OneEvent(s, a, Hear);
    } else {
      var t := s.(echoQ := s.echoQ[1..]);
      assert Without(s.echoQ, 0) == s.echoQ[1..];
      OneEvent(s, a, LoseEcho(0));
      var rest := HearsIt(t, a, j - 1);
      RunConcat(s, a, [LoseEcho(0)], rest);
      events := [LoseEcho(0)] + rest;
    }
  }

  /** With the last chunk sent and echoed the client can still end acknowledged. */
  lemma CanBeAcknowledged(s: Link, a: nat) returns (events: seq<Event>)
    requires IsPlan(s.c.plan) && s.c.k == |s.c.plan| - 1 && LastEchoed(s) && !s.c.phase.Finished?
    ensures Run(s, a, events).c.phase == Finished(true)
  {
    var j :| 0 <= j < |s.echoQ| && s.echoQ[j].number == |s.c.plan|;
    if s.c.phase.Waiting? {
      events := HearsIt(s, a, j);
    } else {
      OneEvent(s, a, Send);
      var rest := HearsIt(Next(s, a, Send).value, a, j);
      RunConcat(s, a, [Send], rest);
      events := [Send] + rest;
    }
  }

  // ---- one chunk ----

  /** The server never has an entry for a: it frees it with the first chunk it accepts. */
  ghost predicate OneChunk(s: Link, a: nat)
  {
    && IsPlan(s.c.plan) && |s.c.plan| == 1 && s.c.k == 0 && ServerInv(s.server) && NoEntry(s.server, a)
    && (forall j :: 0 <= j < |s.dataQ| ==> s.dataQ[j] == s.c.plan[0])
    && s.c.tries <= 6 && (s.c.phase.Sending? ==> s.c.tries <= 5)
  }

  lemma OneChunkServed(s: Server, a: nat, d: Datagram)
    requires ServerInv(s) && NoEntry(s, a) && d.number == 1 && d.last
    ensures ServerInv(Handle(s, a, d).0) && NoEntry(Handle(s, a, d).0, a)
  {
    if Roomy(s) {
      FreshPrint(s, a, d);
    }
  }

  lemma StillNoEntry(s: Server, addr: nat, d: Datagram, a: nat)
    requires ServerInv(s) && NoEntry(s, a) && addr != a
    ensures ServerInv(Handle(s, addr, d).0) && NoEntry(Handle(s, addr, d).0, a)
  {
    HandleKeeps(s, addr, d);
    forall i: nat | Live(Handle(s, addr, d).0, i)
      ensures Handle(s, addr, d).0.con[i].addr != a
    {
      OtherEntry(s, addr, d, a, i);
    }
  }

  lemma OneChunkStep(s: Link, a: nat, e: Event)
    requires OneChunk(s, a) && Next(s, a, e).Some?
    ensures OneChunk(Next(s, a, e).value, a) && |Next(s, a, e).value.server.con| == |s.server.con|
  {
    if e.Arrive? {
      HandleKeeps(s.server, a, s.dataQ[0]);
      OneChunkServed(s.server, a, s.dataQ[0]);
    } else if e.Other? {
      HandleKeeps(s.server, e.addr, e.d);
      StillNoEntry(s.server, e.addr, e.d, a);
    }
  }

  lemma {:induction false} OneChunkRun(s: Link, a: nat, events: seq<Event>)
    requires Init(s, a) && |s.c.plan| == 1
    ensures OneChunk(Run(s, a, events), a) && |Run(s, a, events).server.con| == |s.server.con|
  {
    if events == [] {
      NothingKnown(s.server, a);
    } else {
      var front := events[..|events| - 1];
      OneChunkRun(s, a, front);
      if Next(Run(s, a, front), a, events[|events| - 1]).Some? {
        OneChunkStep(Run(s, a, front), a, events[|events| - 1]);
      }
    }
  }

  /** Six tries are spent and nothing is on its way, or nobody echoes. */
  ghost predicate Hopeless(s: Link, a: nat)
  {
    && IsPlan(s.c.plan) && |s.c.plan| == 1 && s.c.k == 0 && !LastEchoed(s) && s.c.phase != Finished(true)
    && (s.server.con == [] || (s.dataQ == [] && !s.c.phase.Sending? && s.c.tries > 5))
  }

  lemma HopelessStep(s: Link, a: nat, e: Event)
    requires Hopeless(s, a)
    ensures Next(s, a, e).Some? ==> Hopeless(Next(s, a, e).value, a)
  {
    assert forall j :: 0 <= j < |s.echoQ| ==> s.echoQ[j].number != 1;
  }

  lemma {:induction false} HopelessForGood(s: Link, a: nat, events: seq<Event>)
    requires Hopeless(s, a)
    ensures Hopeless(Run(s, a, events), a)
  {
    if events != [] {
      var front := events[..|events| - 1];
      HopelessForGood(s, a, front);
      HopelessStep(Run(s, a, front), a, events[|events| - 1]);
    }
  }

  /** Whoever holds the first entry of a full table can make room in it. */
  lemma SomebodyLeaves(s: Link, a: nat) returns (events: seq<Event>)
    requires OneChunk(s, a) && |s.server.con| > 0
    ensures var t := Run(s, a, events); OneChunk(t, a) && Roomy(t.server) && t == s.(server := t.server)
  {
    events := [];
    assert Run(s, a, []) == s;
    if !Roomy(s.server) {
      assert !s.server.con[0].free && Live(s.server, 0);
      var b := s.server.con[0].addr;
      var d := Datagram(s.server.con[0].chunkNo + 1, true, []);
      FreesFirst(s.server, d);
      OneEvent(s, a, Other(b, d));
      OneChunkStep(s, a, Other(b, d));
      events := [Other(b, d)];
    }
  }

  /** A datagram on its way can still be echoed. */
  lemma ArrivesAndEchoes(s: Link, a: nat) returns (events: seq<Event>)
    requires OneChunk(s, a) && |s.server.con| > 0 && s.dataQ != []
    ensures var t := Run(s, a, events); OneChunk(t, a) && LastEchoed(t) && t.c == s.c
  {
    var first := SomebodyLeaves(s, a);
    var u := Run(s, a, first);
    FreshPrint(u.server, a, u.dataQ[0]);
    OneEvent(u, a, Arrive);
    OneChunkStep(u, a, Arrive);
    RunConcat(s, a, first, [Arrive]);
    events := first + [Arrive];
    var t := Run(s, a, events);
    assert t.echoQ[|t.echoQ| - 1].number == 1;
  }

  /** A try that is left puts a datagram on its way. */
  lemma TriesAgain(s: Link, a: nat) returns (events: seq<Event>)
    requires OneChunk(s, a) && s.c.tries <= 5 && !s.c.phase.Finished?
    ensures var t := Run(s, a, events); OneChunk(t, a) && t.dataQ != [] && t.server == s.server && !t.c.phase.Finished?
  {
    events := [];
    assert Run(s, a, []) == s;
    if s.c.phase.Waiting? {
      OneEvent(s, a, Alarm);
      OneChunkStep(s, a, Alarm);
      events := [Alarm];
    }
    var u := Run(s, a, events);
    OneEvent(u, a, Send);
    OneChunkStep(u, a, Send);
    RunConcat(s, a, events, [Send]);
    events := events + [Send];
  }

  lemma OneChunkRecovers(s: Link, a: nat) returns (events: seq<Event>)
    requires OneChunk(s, a) && !s.c.phase.Finished?
    requires LastEchoed(s) || (|s.server.con| > 0 && (s.dataQ != [] || s.c.tries <= 5))
    ensures Run(s, a, events).c.phase == Finished(true)
  {
    events := [];
    assert Run(s, a, []) == s;
    if !LastEchoed(s) {
      if s.dataQ == [] {
        events := TriesAgain(s, a);
      }
      var more := ArrivesAndEchoes(Run(s, a, events), a);
      RunConcat(s, a, events, more);
      events := events + more;
    }
    var rest := CanBeAcknowledged(Run(s, a, events), a);
    RunConcat(s, a, events, rest);
    events := events + rest;
  }

  /** A file of one chunk, printed or not. */
  lemma OneChunkLearns(s: Link, a: nat, events: seq<Event>)
    requires Init(s, a) && |s.c.plan| == 1 && !Run(s, a, events).c.phase.Finished?
    ensures var t := Run(s, a, events);
      (exists more :: Run(t, a, more).c.phase == Finished(true))
      <==> LastEchoed(t) || (|s.server.con| > 0 && (t.dataQ != [] || t.c.tries <= 5))
  {
    var t := Run(s, a, events);
    OneChunkRun(s, a, events);
    if LastEchoed(t) || (|s.server.con| > 0 && (t.dataQ != [] || t.c.tries <= 5)) {
      var more := OneChunkRecovers(t, a);
    } else {
      forall more
        ensures Run(t, a, more).c.phase != Finished(true)
      {
        HopelessForGood(t, a, more);
      }
    }
  }

  /** Without a table nothing is printed. */
  lemma HasTable(s: Link, a: nat, events: seq<Event>)
    requires Init(s, a) && Output(Run(s, a, events).server.lives, a) != []
    ensures |s.server.con| > 0
  {
    if s.server.con == [] {
      NoTable(s, a, events);
      OutputNothing(s.server.lives, a);
    }
  }

  // ---- on to the next chunk, while the file is not all printed ----

  /** An echo of the current chunk is on its way to the client. */
  predicate Echoed(s: Link) { exists j :: 0 <= j < |s.echoQ| && s.echoQ[j].number == s.c.k + 1 }

  /** A datagram of the current chunk is on its way to the server. */
  predicate Travelling(s: Link) { exists j :: 0 <= j < |s.dataQ| && s.dataQ[j].number == s.c.k + 1 }

  /** Two or more chunks, not all of them printed yet. */
  ghost predicate Partial(s: Link, a: nat)
  {
    Inv(s, a) && |s.c.plan| >= 2 && |Output(s.server.lives, a)| < |s.c.plan|
  }

  ghost predicate MovedOn(s: Link, t: Link) { t.c.k > s.c.k || t.c.phase == Finished(true) }

  /** Some continuation brings the client to its next chunk, or to its end. */
  ghost predicate CanMoveOn(s: Link, a: nat)
    requires IsPlan(s.c.plan) && s.c.k < |s.c.plan|
  {
    exists events :: MovedOn(s, Run(s, a, events))
  }

  /** Six tries are spent, no echo of the current chunk is on its way, and none will be. */
  ghost predicate GivenUpOn(s: Link, k: nat)
  {
    && IsPlan(s.c.plan) && s.c.k == k < |s.c.plan| && !Echoed(s) && s.c.phase != Finished(true)
    && (s.server.con == [] || (!Travelling(s) && !s.c.phase.Sending? && s.c.tries > 5))
  }

  lemma GivenUpStep(s: Link, a: nat, k: nat, e: Event)
    requires GivenUpOn(s, k) && Next(s, a, e).Some?
    ensures GivenUpOn(Next(s, a, e).value, k)
  {
    assert forall j :: 0 <= j < |s.echoQ| ==> s.echoQ[j].number != k + 1;
    assert s.server.con != [] ==> forall j :: 0 <= j < |s.dataQ| ==> s.dataQ[j].number != k + 1;
  }

  lemma {:induction false} GivenUpForGood(s: Link, a: nat, k: nat, events: seq<Event>)
    requires GivenUpOn(s, k)
    ensures GivenUpOn(Run(s, a, events), k)
  {
    if events != [] {
      var front := events[..|events| - 1];
      GivenUpForGood(s, a, k, front);
      if Next(Run(s, a, front), a, events[|events| - 1]).Some? {
        GivenUpStep(Run(s, a, front), a, k, events[|events| - 1]);
      }
    }
  }

  /** Losing the echoes before it, a waiting client hears the echo of its chunk. */
  lemma {:induction false} HearsCurrent(s: Link, a: nat, j: nat) returns (events: seq<Event>)
    requires IsPlan(s.c.plan) && s.c.k < |s.c.plan| && s.c.phase.Waiting? && j < |s.echoQ| && s.echoQ[j].number == s.c.k + 1
    ensures MovedOn(s, Run(s, a, events))
    decreases j
  {
    if j == 0 {
      events := [Hear];
      OneEvent(s, a, Hear);
    } else {
      var t := s.(echoQ := s.echoQ[1..]);
      assert Without(s.echoQ, 0) == s.echoQ[1..];
      OneEvent(s, a, LoseEcho(0));
      var rest := HearsCurrent(t, a, j - 1);
      RunConcat(s, a, [LoseEcho(0)], rest);
      events := [LoseEcho(0)] + rest;
    }
  }

  lemma EchoMovesOn(s: Link, a: nat) returns (events: seq<Event>)
    requires IsPlan(s.c.plan) && s.c.k < |s.c.plan| && !s.c.phase.Finished? && Echoed(s)
    ensures MovedOn(s, Run(s, a, events))
  {
    var j :| 0 <= j < |s.echoQ| && s.echoQ[j].number == s.c.k + 1;
    if s.c.phase.Waiting? {
      events := HearsCurrent(s, a, j);
    } else {
      OneEvent(s, a, Send);
      var rest := HearsCurrent(Next(s, a, Send).value, a, j);
      RunConcat(s, a, [Send], rest);
      events := [Send] + rest;
    }
  }

  /** A server that is not full, or has an entry for a, acknowledges the current chunk, whether it has printed it before or not. */
  lemma CurrentAcked(s: Link, a: nat, d: Datagram)
    requires Partial(s, a) && d in s.c.plan && d.number == s.c.k + 1 && HasRoom(s.server, a)
    ensures Handle(s.server, a, d).1
  {
    var got, total := |Output(s.server.lives, a)|, |s.c.plan|;
    var n :| 0 <= n < total && s.c.plan[n] == d;
    if d.number == got + 1 {
      ServesNext(s.server, a, d, got, total);
    } else {
      RoomFound(s.server, a, got, total);
    }
  }

  /** The first datagram of the queue is of the current chunk: it arrives, and its echo is on its way. */
  lemma ArrivesAcked(s: Link, a: nat)
    requires Partial(s, a) && HasRoom(s.server, a) && s.dataQ != [] && s.dataQ[0].number == s.c.k + 1
    ensures var t := Run(s, a, [Arrive]); t.c == s.c && Echoed(t)
  {
    CurrentAcked(s, a, s.dataQ[0]);
    OneEvent(s, a, Arrive);
    var t := Run(s, a, [Arrive]);
    assert t.echoQ[|t.echoQ| - 1].number == s.c.k + 1;
  }

  lemma LosesFirst(s: Link, a: nat)
    requires Partial(s, a) && s.dataQ != []
    ensures var t := s.(dataQ := s.dataQ[1..]); Run(s, a, [LoseData(0)]) == t && Partial(t, a)
  {
    OneEvent(s, a, LoseData(0));
    StepKeeps(s, a, LoseData(0));
    assert Without(s.dataQ, 0) == s.dataQ[1..];
  }

  /** Losing the first j datagrams. */
  lemma {:induction false} DropsTo(s: Link, a: nat, j: nat) returns (events: seq<Event>)
    requires Partial(s, a) && j <= |s.dataQ|
    ensures var t := s.(dataQ := s.dataQ[j..]); Run(s, a, events) == t && Partial(t, a)
    decreases j
  {
    if j == 0 {
      events := [];
      assert s.dataQ[0..] == s.dataQ;
    } else {
      LosesFirst(s, a);
      var rest := DropsTo(s.(dataQ := s.dataQ[1..]), a, j - 1);
      RunConcat(s, a, [LoseData(0)], rest);
      events := [LoseData(0)] + rest;
      assert s.dataQ[1..][j - 1..] == s.dataQ[j..];
    }
  }

  /** Losing those before it, a datagram of the current chunk arrives. */
  lemma TravelsAcked(s: Link, a: nat, j: nat) returns (events: seq<Event>)
    requires Partial(s, a) && HasRoom(s.server, a) && j < |s.dataQ| && s.dataQ[j].number == s.c.k + 1
    ensures var t := Run(s, a, events); t.c == s.c && Echoed(t)
  {
    var first := DropsTo(s, a, j);
    ArrivesAcked(Run(s, a, first), a);
    RunConcat(s, a, first, [Arrive]);
    events := first + [Arrive];
  }

  /** Where the table is full and a has no entry, the last chunk of whoever holds the first entry makes room. */
  lemma GetsRoom(s: Link, a: nat) returns (events: seq<Event>)
    requires Partial(s, a) && |s.server.con| > 0
    ensures var t := Run(s, a, events); Partial(t, a) && HasRoom(t.server, a) && t == s.(server := t.server)
  {
    events := [];
    assert Run(s, a, []) == s;
    if !HasRoom(s.server, a) {
      assert !s.server.con[0].free && Live(s.server, 0);
      var b := s.server.con[0].addr;
      var d := Datagram(s.server.con[0].chunkNo + 1, true, []);
      FreesFirst(s.server, d);
      OneEvent(s, a, Other(b, d));
      StepKeeps(s, a, Other(b, d));
      OtherOutput(s.server, b, d, a);
      events := [Other(b, d)];
    }
  }

  lemma TravellingMovesOn(s: Link, a: nat) returns (events: seq<Event>)
    requires Partial(s, a) && |s.server.con| > 0 && Travelling(s) && !s.c.phase.Finished?
    ensures MovedOn(s, Run(s, a, events))
  {
    var first := GetsRoom(s, a);
    var u := Run(s, a, first);
    var j: nat :| j < |u.dataQ| && u.dataQ[j].number == u.c.k + 1;
    var second := TravelsAcked(u, a, j);
    var third := EchoMovesOn(Run(u, a, second), a);
    RunConcat(u, a, second, third);
    RunConcat(s, a, first, second + third);
    events := first + (second + third);
  }

  /** A try that is left puts a datagram of the current chunk on its way. */
  lemma ResendsCurrent(s: Link, a: nat) returns (events: seq<Event>)
    requires Partial(s, a) && s.c.tries <= 5 && !s.c.phase.Finished?
    ensures var t := Run(s, a, events);
      Partial(t, a) && Travelling(t) && !t.c.phase.Finished? && t.c.k == s.c.k && |t.server.con| == |s.server.con|
  {
    events := [];
    assert Run(s, a, []) == s;
    if s.c.phase.Waiting? {
      OneEvent(s, a, Alarm);
      StepKeeps(s, a, Alarm);
      events := [Alarm];
    }
    var u := Run(s, a, events);
    OneEvent(u, a, Send);
    StepKeeps(u, a, Send);
    RunConcat(s, a, events, [Send]);
    events := events + [Send];
    var t := Run(s, a, events);
    assert t.dataQ[|t.dataQ| - 1].number == t.c.k + 1;
  }

  lemma {:induction false} ServerKept(s: Link, a: nat, events: seq<Event>)
    requires Init(s, a)
    ensures ServerInv(Run(s, a, events).server) && |Run(s, a, events).server.con| == |s.server.con|
  {
    if events != [] {
      var front, e := events[..|events| - 1], events[|events| - 1];
      ServerKept(s, a, front);
      var u := Run(s, a, front);
      if e.Arrive? && u.dataQ != [] {
        HandleKeeps(u.server, a, u.dataQ[0]);
      } else if e.Other? {
        HandleKeeps(u.server, e.addr, e.d);
      }
    }
  }

  /** A client about to send has a try left. */
  lemma {:induction false} TriesLeft(s: Link, a: nat, events: seq<Event>)
    requires Init(s, a)
    ensures Run(s, a, events).c.phase.Sending? ==> Run(s, a, events).c.tries <= 5
  {
    if events != [] {
      TriesLeft(s, a, events[..|events| - 1]);
    }
  }

  /** An echo of the current chunk is on its way or, the server having a table, a datagram of it or a try is left. */
  predicate Hopeful(s: Link) { Echoed(s) || (|s.server.con| > 0 && (Travelling(s) || s.c.tries <= 5)) }

  lemma MovesOn(s: Link, a: nat) returns (events: seq<Event>)
    requires Partial(s, a) && !s.c.phase.Finished? && Hopeful(s)
    ensures MovedOn(s, Run(s, a, events)) && CanMoveOn(s, a)
  {
    if Echoed(s) {
      events := EchoMovesOn(s, a);
    } else if Travelling(s) {
      events := TravellingMovesOn(s, a);
    } else {
      var first := ResendsCurrent(s, a);
      var second := TravellingMovesOn(Run(s, a, first), a);
      RunConcat(s, a, first, second);
      events := first + second;
    }
  }

  lemma StaysBehind(s: Link, a: nat, more: seq<Event>)
    requires IsPlan(s.c.plan) && s.c.k < |s.c.plan| && !s.c.phase.Finished? && !Hopeful(s) && (s.c.phase.Sending? ==> s.c.tries <= 5)
    ensures !MovedOn(s, Run(s, a, more))
  {
    GivenUpForGood(s, a, s.c.k, more);
  }

  /**
   In any run of two or more chunks, while the file is not all printed and the client still tries: it can get on from
   the current chunk if and only if an echo of it is on its way or, the server having a table, a datagram of it is on its
   way or a try is left.  So a lost echo costs a try and nothing else.
   */
  lemma NextChunkExactly(s: Link, a: nat, events: seq<Event>)
    requires Init(s, a) && |s.c.plan| >= 2
    requires |Output(Run(s, a, events).server.lives, a)| < |s.c.plan| && !Run(s, a, events).c.phase.Finished?
    ensures var t := Run(s, a, events);
      CanMoveOn(t, a) <==> Hopeful(t)
  {
    RunKeeps(s, a, events);
    ServerKept(s, a, events);
    var t := Run(s, a, events);
    if Hopeful(t) {
      var more := MovesOn(t, a);
    } else {
      TriesLeft(s, a, events);
      forall more
        ensures !MovedOn(t, Run(t, a, more))
      {
        StaysBehind(t, a, more);
      }
    }
  }

  // ---- any length ----

  /**
   In any run, once the file is printed and while the client still tries: it can still end acknowledged if and only if an
   echo of the last chunk is on its way or, for a file of one chunk, a datagram is on its way or a try is left.  So with
   two or more chunks, if that echo is lost, the client can only give up.
   */
  lemma LostLastEcho(s: Link, a: nat, events: seq<Event>)
    requires Init(s, a) && |Output(Run(s, a, events).server.lives, a)| >= |s.c.plan| && !Run(s, a, events).c.phase.Finished?
    ensures var t := Run(s, a, events);
      (exists more :: Run(t, a, more).c.phase == Finished(true))
      <==> LastEchoed(t) || (|t.c.plan| == 1 && (t.dataQ != [] || t.c.tries <= 5))
  {
    var t := Run(s, a, events);
    if |s.c.plan| == 1 {
      OneChunkLearns(s, a, events);
      HasTable(s, a, events);
    } else {
      RunKeeps(s, a, events);
      if LastEchoed(t) {
        var more := CanBeAcknowledged(t, a);
      } else {
        forall more
          ensures Run(t, a, more).c.phase != Finished(true)
        {
          NeverAcknowledged(t, a, more);
        }
      }
    }
  }
}
