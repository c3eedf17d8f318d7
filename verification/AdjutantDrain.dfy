/** Every accepted report is worked on exactly once, nobody sleeps for ever, and the shutdown drains the stack. */
module AdjutantDrain {
  import opened Counting
  import opened Adjutants

  // ---- the invariant ----

  predicate HoldsMtx(pc: WorkerPc)
  {
    pc.TestWork? || pc.TestTop? || pc.Fall? || pc.Check? || pc.Lower? || pc.Copy? || pc.UnlockGot? || pc.UnlockExit?
  }

  predicate MainHolds(m: MainPc)
  {
    m.Room? || m.Store? || m.Raise? || m.Signal? || m.UnlockPush? || m.Broadcast? || m.UnlockEnd?
  }

  /** Past the broadcast. */
  predicate Broadcasted(m: MainPc) { m.UnlockEnd? || m.Join? || m.Done? }

  predicate Ending(m: MainPc) { m.LockEnd? || m.Broadcast? || Broadcasted(m) }

  predicate Pushing(m: MainPc) { m.LockPush? || m.Room? || m.Store? || m.Raise? || m.Signal? || m.UnlockPush? }

  ghost predicate WorkerOk(s: State, i: nat)
    requires i < |s.workers|
  {
    && (HoldsMtx(s.workers[i]) <==> s.mtx == Some(Worker(i)))
    && (match s.workers[i]
        case Fall => s.top == 0 && !Broadcasted(s.main)
        case TestTop => !Broadcasted(s.main)
        case Asleep => !Broadcasted(s.main)
        case Check => s.top > 0 || !s.doWork
        case Lower => s.top > 0
        case Copy => s.top < STACK_SIZE
        case UnlockExit => !s.doWork && s.top == 0
        case Exited => !s.doWork && s.top == 0
        case _ => true)
  }

  ghost predicate MainOk(s: State)
  {
    && (MainHolds(s.main) <==> s.mtx == Some(Main)) && |s.stack| == STACK_SIZE
    && (s.main.Store? ==> s.top < STACK_SIZE)
    && (s.main.Raise? ==> s.top < STACK_SIZE && s.stack[s.top] == s.main.m)
    && (s.main.Signal? ==> s.top > 0)
    && (Ending(s.main) ==> !s.doWork) && (Pushing(s.main) || s.main.Epoll? ==> s.doWork)
    && (s.main.Join? ==> s.main.i <= |s.workers|)
    && (s.main.Join? ==> forall i :: 0 <= i < s.main.i && i < |s.workers| ==> s.workers[i].Exited?)
    && (s.main.Done? ==> forall i :: 0 <= i < |s.workers| ==> s.workers[i].Exited?)
  }

  /** A worker that is awake and will look at the stack again. */
  predicate Active(pc: WorkerPc) { !pc.Asleep? && !pc.Exited? }

  ghost predicate SomeActive(workers: seq<WorkerPc>) { exists i :: 0 <= i < |workers| && Active(workers[i]) }

  /** A report on the stack has somebody awake to take it, or the signal is about to be sent. */
  ghost predicate Attended(s: State) { s.top > 0 ==> SomeActive(s.workers) || s.main.Signal? }

  // ---- where the reports are ----

  function Same(m: Message): Message -> bool { (x: Message) => x == m }

  function Has(m: Message): WorkerPc -> bool { (pc: WorkerPc) => (pc.UnlockGot? || pc.Work?) && pc.m == m }

  predicate Copying(s: State)
  {
    s.mtx.Some? && s.mtx.value.Worker? && s.mtx.value.i < |s.workers| && s.workers[s.mtx.value.i].Copy?
  }

  /** The reports on the stack, with the one an adjutant has just lowered top over. */
  function OnStack(s: State): seq<Message>
  {
    var h := if Copying(s) then s.top + 1 else s.top;
    if h <= |s.stack| then s.stack[..h] else []
  }

  /** Copies of m on the stack, in the adjutants' hands and worked on. */
  function Places(s: State, m: Message): nat
  {
    Count(OnStack(s), Same(m)) + Count(s.workers, Has(m)) + Count(s.handled, Same(m))
  }

  ghost predicate Balanced(s: State, m: Message) { Places(s, m) == Count(s.accepted, Same(m)) }

  ghost predicate Inv(s: State)
  {
    && |s.stack| == STACK_SIZE && s.top <= STACK_SIZE && |s.workers| > 0
    && (forall i :: 0 <= i < |s.workers| ==> WorkerOk(s, i))
    && (s.mtx.Some? && s.mtx.value.Worker? ==> s.mtx.value.i < |s.workers|)
    && MainOk(s) && Attended(s)
  }

  // ---- preservation ----

  lemma WorkerOwn(s: State, i: nat, c: Choice)
    requires Inv(s) && i < |s.workers| && WorkerNext(s, i, c).Some?
    ensures |WorkerNext(s, i, c).value.workers| == |s.workers| && WorkerOk(WorkerNext(s, i, c).value, i)
  {
    assert WorkerOk(s, i);
  }

  /** What a worker's step leaves to the others. */
  ghost predicate WorkerEffect(s: State, i: nat, t: State)
  {
    && i < |s.workers| == |t.workers| && t.workers == s.workers[i := t.workers[i]]
    && t.stack == s.stack && t.doWork == s.doWork && t.main == s.main && t.accepted == s.accepted
    && (t.mtx == s.mtx || (s.mtx.None? && t.mtx == Some(Worker(i))) || (s.mtx == Some(Worker(i)) && t.mtx.None?))
    && t.top <= s.top && (t.top != s.top ==> s.mtx == Some(Worker(i)))
    && (s.workers[i].Exited? ==> t.workers[i].Exited?)
    && (Active(s.workers[i]) && !Active(t.workers[i]) ==> t.top == 0)
  }

  lemma WorkerHasEffect(s: State, i: nat, c: Choice)
    requires Inv(s) && i < |s.workers| && WorkerNext(s, i, c).Some?
    ensures WorkerEffect(s, i, WorkerNext(s, i, c).value)
  {
    assert WorkerOk(s, i);
  }

  lemma WorkerLeavesOthers(s: State, i: nat, t: State, j: nat)
    requires Inv(s) && WorkerEffect(s, i, t) && j < |s.workers| && j != i
    ensures WorkerOk(t, j)
  {
    assert WorkerOk(s, j) && WorkerOk(s, i);
  }

  lemma WorkerLeavesMain(s: State, i: nat, t: State)
    requires Inv(s) && WorkerEffect(s, i, t)
    ensures MainOk(t) && Attended(t)
  {
    assert WorkerOk(s, i);
    if t.top > 0 && !s.main.Signal? {
      var j :| 0 <= j < |s.workers| && Active(s.workers[j]);
      assert Active(t.workers[j]);
    }
  }

  lemma WorkerStep(s: State, i: nat, c: Choice)
    requires Inv(s) && i < |s.workers| && WorkerNext(s, i, c).Some?
    ensures Inv(WorkerNext(s, i, c).value)
  {
    var t := WorkerNext(s, i, c).value;
    WorkerOwn(s, i, c);
    WorkerHasEffect(s, i, c);
    WorkerLeavesMain(s, i, t);
    forall j | 0 <= j < |t.workers|
      ensures WorkerOk(t, j)
    {
      if j != i {
        WorkerLeavesOthers(s, i, t, j);
      }
    }
  }

  lemma MainLeavesWorker(s: State, c: Choice, j: nat)
    requires Inv(s) && MainNext(s, c).Some? && j < |s.workers|
    ensures |MainNext(s, c).value.workers| == |s.workers| && WorkerOk(MainNext(s, c).value, j)
  {
    assert WorkerOk(s, j);
  }

  lemma MainOwn(s: State, c: Choice)
    requires Inv(s) && MainNext(s, c).Some?
    ensures MainOk(MainNext(s, c).value)
  {
    forall j | 0 <= j < |s.workers| && MainHolds(s.main)
      ensures !HoldsMtx(s.workers[j])
    {
      assert WorkerOk(s, j);
    }
  }

  /** After the push either somebody is awake, or the signal wakes somebody. */
  lemma MainAttends(s: State, c: Choice)
    requires Inv(s) && MainNext(s, c).Some?
    ensures Attended(MainNext(s, c).value)
  {
    var t := MainNext(s, c).value;
    if t.top > 0 && !t.main.Signal? {
      if s.main.Signal? {
        if SomeAsleep(s.workers) {
          var j :| 0 <= j < |s.workers| && s.workers[j].Asleep? && j in c.wake;
          assert Active(t.workers[j]);
        } else {
          assert WorkerOk(s, 0);
          assert Active(t.workers[0]);
        }
      } else {
        var j :| 0 <= j < |s.workers| && Active(s.workers[j]);
        assert Active(t.workers[j]);
      }
    }
  }

  lemma MainStep(s: State, c: Choice)
    requires Inv(s) && MainNext(s, c).Some?
    ensures Inv(MainNext(s, c).value)
  {
    var t := MainNext(s, c).value;
    MainOwn(s, c);
    MainAttends(s, c);
    forall j | 0 <= j < |t.workers|
      ensures WorkerOk(t, j)
    {
      MainLeavesWorker(s, c, j);
    }
  }

  lemma InitInv(s: State)
    requires Init(s)
    ensures Inv(s)
  {
    forall i | 0 <= i < |s.workers|
      ensures WorkerOk(s, i)
    {
    }
  }

  lemma Step(s: State, p: Who, c: Choice)
    requires Inv(s) && Next(s, p, c).Some?
    ensures Inv(Next(s, p, c).value) && |Next(s, p, c).value.workers| == |s.workers|
  {
    match p
    case Main => MainStep(s, c);
    case Worker(i) => WorkerStep(s, i, c);
  }

  lemma {:induction false} RunInv(s: State, turns: seq<Turn>)
    requires Init(s)
    ensures Inv(Run(s, turns)) && |Run(s, turns).workers| == |s.workers|
  {
    if turns == [] {
      InitInv(s);
    } else {
      RunInv(s, turns[..|turns| - 1]);
      var u := Run(s, turns[..|turns| - 1]);
      var last := turns[|turns| - 1];
      if Next(u, last.p, last.c).Some? {
        Step(u, last.p, last.c);
      }
    }
  }

  // ---- exactly once ----

  lemma RousedHas(workers: seq<WorkerPc>, wake: set<nat>, m: Message)
    ensures Count(Roused(workers, wake), Has(m)) == Count(workers, Has(m))
  {
    SameCount(workers, Roused(workers, wake), Has(m));
  }

  /** A step that moves no report. */
  predicate Unmoved(s: State, t: State)
  {
    OnStack(t) == OnStack(s) && t.handled == s.handled && t.accepted == s.accepted
  }

  lemma RaiseBalanced(s: State, c: Choice, m: Message)
    requires Inv(s) && Balanced(s, m) && s.main.Raise?
    ensures MainNext(s, c).Some? && Balanced(MainNext(s, c).value, m)
  {
    CountLast(s.stack[..s.top], s.main.m, Same(m));
    CountLast(s.accepted, s.main.m, Same(m));
    assert s.stack[..s.top + 1] == s.stack[..s.top] + [s.stack[s.top]];
  }

  lemma MainUnmoved(s: State, c: Choice)
    requires Inv(s) && !s.main.Raise? && MainNext(s, c).Some?
    ensures Unmoved(s, MainNext(s, c).value)
    ensures MainNext(s, c).value.workers == s.workers || MainNext(s, c).value.workers == Roused(s.workers, c.wake)
  {
    var t := MainNext(s, c).value;
    if s.main.Store? {
      assert t.stack[..s.top] == s.stack[..s.top];
    }
  }

  lemma MainBalanced(s: State, c: Choice, m: Message)
    requires Inv(s) && Balanced(s, m) && MainNext(s, c).Some?
    ensures Balanced(MainNext(s, c).value, m)
  {
    if s.main.Raise? {
      RaiseBalanced(s, c, m);
    } else {
      MainUnmoved(s, c);
      RousedHas(s.workers, c.wake, m);
    }
  }

  lemma CopyBalanced(s: State, i: nat, c: Choice, m: Message)
    requires Inv(s) && Balanced(s, m) && i < |s.workers| && s.workers[i].Copy?
    ensures WorkerNext(s, i, c).Some? && Balanced(WorkerNext(s, i, c).value, m)
  {
    assert WorkerOk(s, i);
    CountUpdate(s.workers, i, UnlockGot(s.stack[s.top]), Has(m));
    CountLast(s.stack[..s.top], s.stack[s.top], Same(m));
    assert s.stack[..s.top + 1] == s.stack[..s.top] + [s.stack[s.top]];
  }

  lemma WorkBalanced(s: State, i: nat, c: Choice, m: Message)
    requires Inv(s) && Balanced(s, m) && i < |s.workers| && s.workers[i].Work?
    ensures WorkerNext(s, i, c).Some? && Balanced(WorkerNext(s, i, c).value, m)
  {
    assert WorkerOk(s, i);
    CountUpdate(s.workers, i, Lock, Has(m));
    CountLast(s.handled, s.workers[i].m, Same(m));
  }

  /** Lowering top leaves the report on the stack until it is copied. */
  lemma WorkerUnmoved(s: State, i: nat, c: Choice)
    requires Inv(s) && i < |s.workers| && !s.workers[i].Copy? && !s.workers[i].Work? && WorkerNext(s, i, c).Some?
    ensures Unmoved(s, WorkerNext(s, i, c).value)
  {
    assert WorkerOk(s, i);
  }

  lemma SameHands(s: State, i: nat, c: Choice, m: Message)
    requires i < |s.workers| && !s.workers[i].Copy? && !s.workers[i].Work? && WorkerNext(s, i, c).Some?
    ensures var t := WorkerNext(s, i, c).value; |t.workers| == |s.workers| && t.workers == s.workers[i := t.workers[i]]
    ensures Has(m)(WorkerNext(s, i, c).value.workers[i]) == Has(m)(s.workers[i])
  {
  }

  lemma HandsUnmoved(s: State, i: nat, t: State, m: Message)
    requires i < |s.workers| == |t.workers| && t.workers == s.workers[i := t.workers[i]]
    requires Has(m)(t.workers[i]) == Has(m)(s.workers[i])
    ensures Count(t.workers, Has(m)) == Count(s.workers, Has(m))
  {
    CountUpdate(s.workers, i, t.workers[i], Has(m));
  }

  lemma UnmovedBalanced(s: State, t: State, m: Message)
    requires Balanced(s, m) && Unmoved(s, t) && Count(t.workers, Has(m)) == Count(s.workers, Has(m))
    ensures Balanced(t, m)
  {
  }

  lemma WorkerBalanced(s: State, i: nat, c: Choice, m: Message)
    requires Inv(s) && Balanced(s, m) && i < |s.workers| && WorkerNext(s, i, c).Some?
    ensures Balanced(WorkerNext(s, i, c).value, m)
  {
    if s.workers[i].Copy? {
      CopyBalanced(s, i, c, m);
    } else if s.workers[i].Work? {
      WorkBalanced(s, i, c, m);
    } else {
      WorkerUnmoved(s, i, c);
      SameHands(s, i, c, m);
      HandsUnmoved(s, i, WorkerNext(s, i, c).value, m);
      UnmovedBalanced(s, WorkerNext(s, i, c).value, m);
    }
  }

  /** In every reachable state each accepted report is on the stack, in an adjutant's hands or worked on, as often as it was accepted. */
  lemma {:induction false} ReportsConserved(s: State, turns: seq<Turn>, m: Message)
    requires Init(s)
    ensures Places(Run(s, turns), m) == Count(Run(s, turns).accepted, Same(m))
  {
    if turns == [] {
      CountNone(s.workers, Has(m));
    } else {
      var front := turns[..|turns| - 1];
      ReportsConserved(s, front, m);
      RunInv(s, front);
      var u := Run(s, front);
      var last := turns[|turns| - 1];
      if Next(u, last.p, last.c).Some? {
        match last.p
        case Main => MainBalanced(u, last.c, m);
        case Worker(i) => WorkerBalanced(u, i, last.c, m);
      }
    }
  }

  /** The datagram main is about to put on the stack or turn away. */
  function InHand(main: MainPc, m: Message): nat
  {
    if (main.LockPush? || main.Room? || main.Store? || main.Raise?) && main.m == m then 1 else 0
  }

  ghost predicate Accounted(s: State, m: Message)
  {
    Count(s.received, Same(m)) == Count(s.accepted, Same(m)) + Count(s.refused, Same(m)) + InHand(s.main, m)
  }

  /** Main's steps that put nothing into a history keep the datagram they have in hand. */
  lemma MainKeepsHand(s: State, c: Choice, m: Message)
    requires MainNext(s, c).Some? && !s.main.Epoll? && !s.main.Room? && !s.main.Raise?
    ensures var t := MainNext(s, c).value; t.received == s.received && t.accepted == s.accepted && t.refused == s.refused
    ensures InHand(MainNext(s, c).value.main, m) == InHand(s.main, m)
  {
  }

  lemma HandTaken(s: State, c: Choice, m: Message)
    requires Accounted(s, m) && s.main.Epoll? && MainNext(s, c).Some?
    ensures Accounted(MainNext(s, c).value, m)
  {
    if c.event.Datagram? {
      CountLast(s.received, c.event.m, Same(m));
    }
  }

  lemma HandRefused(s: State, c: Choice, m: Message)
    requires Accounted(s, m) && s.main.Room? && MainNext(s, c).Some?
    ensures Accounted(MainNext(s, c).value, m)
  {
    CountLast(s.refused, s.main.m, Same(m));
  }

  lemma HandAccepted(s: State, c: Choice, m: Message)
    requires Accounted(s, m) && s.main.Raise? && MainNext(s, c).Some?
    ensures Accounted(MainNext(s, c).value, m)
  {
    CountLast(s.accepted, s.main.m, Same(m));
  }

  lemma MainAccounted(s: State, c: Choice, m: Message)
    requires Accounted(s, m) && MainNext(s, c).Some?
    ensures Accounted(MainNext(s, c).value, m)
  {
    if s.main.Epoll? {
      HandTaken(s, c, m);
    } else if s.main.Room? {
      HandRefused(s, c, m);
    } else if s.main.Raise? {
      HandAccepted(s, c, m);
    } else {
      MainKeepsHand(s, c, m);
    }
  }

  lemma WorkerReceivesNothing(s: State, i: nat, c: Choice)
    requires i < |s.workers| && WorkerNext(s, i, c).Some?
    ensures var t := WorkerNext(s, i, c).value;
      t.received == s.received && t.accepted == s.accepted && t.refused == s.refused && t.main == s.main
  {
  }

  /** Every datagram received is accepted or turned away, exactly once. */
  lemma {:induction false} DatagramsAccounted(s: State, turns: seq<Turn>, m: Message)
    requires Init(s)
    ensures Accounted(Run(s, turns), m)
  {
    if turns != [] {
      var front := turns[..|turns| - 1];
      DatagramsAccounted(s, front, m);
      var u := Run(s, front);
      var last := turns[|turns| - 1];
      if Next(u, last.p, last.c).Some? {
        match last.p
        case Main => MainAccounted(u, last.c, m);
        case Worker(i) => WorkerReceivesNothing(u, i, last.c);
      }
    }
  }

  /** When main has joined the adjutants the stack is empty and the reports worked on are exactly those accepted. */
  lemma Drained(s: State, turns: seq<Turn>, m: Message)
    requires Init(s) && Run(s, turns).main.Done?
    ensures var t := Run(s, turns); t.top == 0 && Count(t.handled, Same(m)) == Count(t.accepted, Same(m))
  {
    RunInv(s, turns);
    ReportsConserved(s, turns, m);
    var t := Run(s, turns);
    assert WorkerOk(t, 0);
    CountNone(t.workers, Has(m));
  }

  // ---- nobody sleeps for ever ----

  /** While there is a report, some adjutant is awake or about to be woken; after the broadcast nobody sleeps again. */
  lemma NoSleepOverReports(s: State, turns: seq<Turn>, i: nat)
    requires Init(s) && i < |s.workers|
    ensures var t := Run(s, turns); |t.workers| == |s.workers| && (t.top > 0 ==> SomeActive(t.workers) || t.main.Signal?)
    ensures var t := Run(s, turns); |t.workers| == |s.workers| && (Broadcasted(t.main) ==> !t.workers[i].Asleep?)
  {
    RunInv(s, turns);
    assert WorkerOk(Run(s, turns), i);
  }

  /** Only waiting for datagrams: everybody asleep, nothing on the stack. */
  ghost predicate Quiescent(s: State)
  {
    s.main.Epoll? && s.top == 0 && forall i :: 0 <= i < |s.workers| ==> s.workers[i].Asleep?
  }

  lemma HolderMoves(s: State, c: Choice)
    requires Inv(s) && s.mtx.Some? && forall j :: 0 <= j < |s.workers| ==> j in c.wake
    ensures Next(s, s.mtx.value, c).Some?
  {
    if s.mtx.value.Worker? {
      assert WorkerOk(s, s.mtx.value.i);
    }
  }

  /** A worker that neither sleeps nor has exited can move when the mutex is free. */
  lemma ActiveMoves(s: State, i: nat, c: Choice)
    requires Inv(s) && s.mtx.None? && i < |s.workers| && Active(s.workers[i])
    ensures Next(s, Worker(i), c).Some?
  {
    assert WorkerOk(s, i);
  }

  /** Without counting on spurious wakeups or on epoll_pwait, somebody can move unless all is quiet or over. */
  lemma SomeoneMoves(s: State) returns (p: Who, c: Choice)
    requires Inv(s) && !s.main.Done? && !Quiescent(s)
    ensures Next(s, p, c).Some? && !c.spurious && !(p.Main? && s.main.Epoll?)
  {
    c := Choice(Nothing, Everyone(|s.workers|), false);
    p := Main;
    if s.mtx.Some? {
      p := s.mtx.value;
      HolderMoves(s, c);
    } else if s.main.Epoll? {
      if SomeActive(s.workers) {
        var i :| 0 <= i < |s.workers| && Active(s.workers[i]);
        ActiveMoves(s, i, c);
        p := Worker(i);
      } else {
        forall i | 0 <= i < |s.workers|
          ensures s.workers[i].Asleep?
        {
          assert WorkerOk(s, i) && !Active(s.workers[i]);
        }
      }
    } else if s.main.Join? && s.main.i < |s.workers| && !s.workers[s.main.i].Exited? {
      assert WorkerOk(s, s.main.i);
      ActiveMoves(s, s.main.i, c);
      p := Worker(s.main.i);
    }
  }

  /** In every reachable state somebody can move, or main is done, or all wait for the next datagram. */
  lemma DeadlockFree(s: State, turns: seq<Turn>) returns (p: Who, c: Choice)
    requires Init(s) && !Run(s, turns).main.Done?
    ensures Next(Run(s, turns), p, c).Some? && !c.spurious
    ensures p.Main? && Run(s, turns).main.Epoll? ==> Quiescent(Run(s, turns))
  {
    RunInv(s, turns);
    if Quiescent(Run(s, turns)) {
      p, c := Main, Choice(Nothing, {}, false);
    } else {
      p, c := SomeoneMoves(Run(s, turns));
    }
  }

  // ---- the shutdown ends ----

  function WorkerRank(pc: WorkerPc): nat
  {
    match pc
    case Copy => 12 case UnlockGot(_) => 11 case Work(_) => 10
    case TestTop => 9 case Fall => 8 case Asleep => 7
    case Lock => 6 case Woken => 6 case TestWork => 5 case Check => 4
    case Lower => 3 case UnlockExit => 3 case Exited => 0
  }

  function MainRank(m: MainPc, n: nat): int
  {
    match m
    case Loop => n + 6 case LockEnd => n + 5 case Broadcast => n + 4 case UnlockEnd => n + 3
    case Join(i) => n - i + 2 case Done => 0
    case _ => n + 7
  }

  function WorkerRanks(workers: seq<WorkerPc>): (r: seq<int>)
    ensures |r| == |workers|
  {
    seq(|workers|, i requires 0 <= i < |workers| => WorkerRank(workers[i]))
  }

  function Rank(s: State): int { 10 * s.top + Sum(WorkerRanks(s.workers)) + MainRank(s.main, |s.workers|) }

  lemma WorkerRankFalls(s: State, i: nat, c: Choice)
    requires Inv(s) && !s.doWork && i < |s.workers| && WorkerNext(s, i, c).Some?
    ensures Rank(WorkerNext(s, i, c).value) < Rank(s)
  {
    var t := WorkerNext(s, i, c).value;
    assert WorkerOk(s, i);
    SumUpdate(WorkerRanks(s.workers), i, WorkerRank(t.workers[i]));
    assert WorkerRanks(t.workers) == WorkerRanks(s.workers)[i := WorkerRank(t.workers[i])];
  }

  lemma {:induction false} SumBelow(xs: seq<int>, ys: seq<int>)
    requires |xs| == |ys| && forall i :: 0 <= i < |xs| ==> xs[i] <= ys[i]
    ensures Sum(xs) <= Sum(ys)
  {
    if xs != [] {
      SumBelow(xs[1..], ys[1..]);
    }
  }

  lemma MainRankFalls(s: State, c: Choice)
    requires Inv(s) && !s.doWork && MainNext(s, c).Some?
    ensures Rank(MainNext(s, c).value) < Rank(s)
  {
    var t := MainNext(s, c).value;
    SumBelow(WorkerRanks(t.workers), WorkerRanks(s.workers));
  }

  /** How many of the turns made their thread move. */
  ghost function Moves(s: State, turns: seq<Turn>): nat
  {
    if turns == [] then 0
    else
      var u := Run(s, turns[..|turns| - 1]);
      var last := turns[|turns| - 1];
      Moves(s, turns[..|turns| - 1]) + (if Next(u, last.p, last.c).Some? then 1 else 0)
  }

  lemma StaysStopped(s: State, p: Who, c: Choice)
    requires Inv(s) && !s.doWork && Next(s, p, c).Some?
    ensures Inv(Next(s, p, c).value) && !Next(s, p, c).value.doWork && Next(s, p, c).value.accepted == s.accepted
    ensures Rank(Next(s, p, c).value) < Rank(s)
  {
    match p
    case Main =>
      MainStep(s, c);
      MainRankFalls(s, c);
    case Worker(i) =>
      WorkerStep(s, i, c);
      WorkerRankFalls(s, i, c);
  }

  /**
   After SIGINT no report is accepted any more and at most Rank steps remain, spurious wakeups included; with
   DeadlockFree every adjutant exits and main joins them all.
   */
  lemma {:induction false} ShutdownEnds(s: State, turns: seq<Turn>)
    requires Inv(s) && !s.doWork
    ensures Inv(Run(s, turns)) && !Run(s, turns).doWork && Run(s, turns).accepted == s.accepted
    ensures Moves(s, turns) + Rank(Run(s, turns)) <= Rank(s) && Rank(Run(s, turns)) >= 0
  {
    if turns != [] {
      var front := turns[..|turns| - 1];
      ShutdownEnds(s, front);
      var u := Run(s, front);
      var last := turns[|turns| - 1];
      if Next(u, last.p, last.c).Some? {
        StaysStopped(u, last.p, last.c);
      }
    }
    SumNonnegative(WorkerRanks(Run(s, turns).workers));
  }
}
