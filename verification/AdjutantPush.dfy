/** Which reports are accepted and which turned away, in which order they are worked on, and when the receiver stops. */
module AdjutantPush {
  import opened Adjutants
  import opened AdjutantDrain

  // ---- accepted or turned away ----

  /** Main holds a datagram it has neither accepted nor refused yet. */
  predicate Undecided(m: MainPc) { m.LockPush? || m.Room? || m.Store? || m.Raise? }

  /** The stack holds accepted reports only, and the first refusal comes after as many as it holds. */
  ghost predicate Tally(s: State)
  {
    && s.top <= |s.accepted|
    && |s.received| == |s.accepted| + |s.refused| + (if Undecided(s.main) then 1 else 0)
    && (s.refused != [] ==> |s.received| > STACK_SIZE)
  }

  lemma MainTally(s: State, c: Choice)
    requires Tally(s) && MainNext(s, c).Some?
    ensures Tally(MainNext(s, c).value)
  {
  }

  lemma WorkerTally(s: State, i: nat, c: Choice)
    requires Tally(s) && i < |s.workers| && WorkerNext(s, i, c).Some?
    ensures Tally(WorkerNext(s, i, c).value)
  {
  }

  lemma {:induction false} RunTally(s: State, turns: seq<Turn>)
    requires Init(s)
    ensures Tally(Run(s, turns))
  {
    if turns != [] {
      var u := Run(s, turns[..|turns| - 1]);
      var last := turns[|turns| - 1];
      RunTally(s, turns[..|turns| - 1]);
      if Next(u, last.p, last.c).Some? {
        match last.p
        case Main => MainTally(u, last.c);
        case Worker(i) => WorkerTally(u, i, last.c);
      }
    }
  }

  /** In no run is one of the first sixteen reports turned away. */
  lemma FirstSixteenAccepted(s: State, turns: seq<Turn>)
    requires Init(s)
    ensures |Run(s, turns).received| <= STACK_SIZE ==> Run(s, turns).refused == []
  {
    RunTally(s, turns);
  }

  lemma WorkerRefusesNone(s: State, i: nat, c: Choice)
    requires i < |s.workers| && WorkerNext(s, i, c).Some?
    ensures WorkerNext(s, i, c).value.refused == s.refused
  {
  }

  lemma MainRefuses(s: State, c: Choice)
    requires s.top <= STACK_SIZE && MainNext(s, c).Some?
    ensures var t := MainNext(s, c).value;
      t.refused == s.refused || (s.main.Room? && s.top == STACK_SIZE && t.refused == s.refused + [s.main.m])
  {
  }

  /** A report is turned away only by main, and only when the stack is full. */
  lemma RefusesOnlyWhenFull(s: State, turns: seq<Turn>, p: Who, c: Choice)
    requires Init(s) && Next(Run(s, turns), p, c).Some?
    ensures var t := Run(s, turns); var u := Next(t, p, c).value;
      u.refused == t.refused || (p == Main && t.main.Room? && t.top == STACK_SIZE && u.refused == t.refused + [t.main.m])
  {
    RunInv(s, turns);
    match p
    case Main => MainRefuses(Run(s, turns), c);
    case Worker(i) => WorkerRefusesNone(Run(s, turns), i, c);
  }

  lemma RunOne(s: State, turns: seq<Turn>, p: Who, c: Choice) returns (more: seq<Turn>)
    requires Next(Run(s, turns), p, c).Some?
    ensures more == turns + [Turn(p, c)] && Run(s, more) == Next(Run(s, turns), p, c).value
  {
    more := turns + [Turn(p, c)];
    assert more[..|more| - 1] == turns;
  }

  /** With room on the stack main's own next three turns accept the report and put it on top. */
  lemma AcceptsWithRoom(s: State, turns: seq<Turn>, m: Message, c: Choice) returns (more: seq<Turn>)
    requires Init(s) && Run(s, turns).main == Room(m) && Run(s, turns).top < STACK_SIZE
    ensures more == turns + [Turn(Main, c), Turn(Main, c), Turn(Main, c)]
    ensures var t, u := Run(s, turns), Run(s, more);
      && u.accepted == t.accepted + [m] && u.refused == t.refused && u.top == t.top + 1 && u.top <= |u.stack| && u.stack[u.top - 1] == m
      && |t.stack| == |u.stack| && u.stack[..t.top] == t.stack[..t.top] && u.main == Signal
  {
    RunInv(s, turns);
    more := RunOne(s, turns, Main, c);
    more := RunOne(s, more, Main, c);
    more := RunOne(s, more, Main, c);
  }

  // ---- last in, first out ----

  /** Worker i copies its report in this step. */
  predicate Copies(u: State, t: State, i: int)
  {
    0 <= i < |u.workers| && i < |t.workers| && u.workers[i].Copy? && t.workers[i].UnlockGot?
  }

  ghost predicate SomeoneCopies(u: State, t: State) { exists i :: Copies(u, t, i) }

  /** What a stack of the reports accepted, less those handed out, holds. */
  ghost function Pile(s: State, turns: seq<Turn>): seq<Message>
  {
    if turns == [] then []
    else
      var front := turns[..|turns| - 1];
      var u, t, pile := Run(s, front), Run(s, turns), Pile(s, front);
      if |t.accepted| > |u.accepted| then pile + [t.accepted[|t.accepted| - 1]]
      else if SomeoneCopies(u, t) && pile != [] then pile[..|pile| - 1]
      else pile
  }

  /** The step's effect on the stack: a push, a pop, or none. */
  ghost predicate Stacked(u: State, t: State)
  {
    var before, after := OnStack(u), OnStack(t);
    if |t.accepted| > |u.accepted| then after == before + [t.accepted[|t.accepted| - 1]]
    else if SomeoneCopies(u, t) then
      before != [] && after == before[..|before| - 1]
      && forall i :: Copies(u, t, i) ==> t.workers[i].m == before[|before| - 1]
    else after == before
  }

  lemma MainStacks(s: State, c: Choice)
    requires Inv(s) && MainNext(s, c).Some?
    ensures Stacked(s, MainNext(s, c).value)
  {
    var t := MainNext(s, c).value;
    if s.main.Raise? {
      assert s.stack[..s.top + 1] == s.stack[..s.top] + [s.stack[s.top]];
    } else {
      MainUnmoved(s, c);
    }
    assert !SomeoneCopies(s, t);
  }

  lemma WorkerStacks(s: State, i: nat, c: Choice)
    requires Inv(s) && i < |s.workers| && WorkerNext(s, i, c).Some?
    ensures Stacked(s, WorkerNext(s, i, c).value)
  {
    var t := WorkerNext(s, i, c).value;
    assert WorkerOk(s, i);
    if s.workers[i].Copy? {
      assert Copies(s, t, i);
      assert s.stack[..s.top + 1] == s.stack[..s.top] + [s.stack[s.top]];
      forall k | Copies(s, t, k)
        ensures k == i
      {
      }
    } else {
      assert !SomeoneCopies(s, t);
      if s.workers[i].Work? {
        assert OnStack(t) == OnStack(s);
      } else {
        WorkerUnmoved(s, i, c);
      }
    }
  }

  lemma StackStep(u: State, p: Who, c: Choice)
    requires Inv(u)
    ensures Stacked(u, match Next(u, p, c) case None => u case Some(t) => t)
  {
    if Next(u, p, c).Some? {
      match p
      case Main => MainStacks(u, c);
      case Worker(i) => WorkerStacks(u, i, c);
    } else {
      assert !SomeoneCopies(u, u);
    }
  }

  /** In every run the stack holds what a last-in first-out pile of the accepted reports holds ... */
  lemma {:induction false} StackIsPile(s: State, turns: seq<Turn>)
    requires Init(s)
    ensures OnStack(Run(s, turns)) == Pile(s, turns)
  {
    if turns != [] {
      var front, last := turns[..|turns| - 1], turns[|turns| - 1];
      StackIsPile(s, front);
      RunInv(s, front);
      StackStep(Run(s, front), last.p, last.c);
    }
  }

  /** Only its own step copies a worker's report. */
  lemma OwnCopy(u: State, p: Who, c: Choice, i: nat)
    requires Next(u, p, c).Some? && Copies(u, Next(u, p, c).value, i)
    ensures p == Worker(i)
  {
  }

  lemma CopiesNewest(u: State, p: Who, c: Choice, i: nat)
    requires Inv(u) && Next(u, p, c).Some? && Copies(u, Next(u, p, c).value, i)
    ensures OnStack(u) != [] && Next(u, p, c).value.workers[i].m == OnStack(u)[|OnStack(u)| - 1]
  {
    OwnCopy(u, p, c, i);
    WorkerStacks(u, i, c);
    assert SomeoneCopies(u, Next(u, p, c).value);
  }

  /** ... and an adjutant that copies a report gets the newest one on it. */
  lemma NewestFirst(s: State, turns: seq<Turn>, p: Who, c: Choice, i: nat)
    requires Init(s) && Next(Run(s, turns), p, c).Some? && Copies(Run(s, turns), Next(Run(s, turns), p, c).value, i)
    ensures var pile := Pile(s, turns); pile != [] && Next(Run(s, turns), p, c).value.workers[i].m == pile[|pile| - 1]
  {
    RunInv(s, turns);
    StackIsPile(s, turns);
    CopiesNewest(Run(s, turns), p, c, i);
  }

  // ---- what reaches the receiver ----

  /** The datagrams that arrived while main waited for one. */
  ghost function Arrived(s: State, turns: seq<Turn>): seq<Message>
  {
    if turns == [] then []
    else
      var front, last := turns[..|turns| - 1], turns[|turns| - 1];
      Arrived(s, front)
      + (if last.p == Main && Run(s, front).main.Epoll? && last.c.event.Datagram? then [last.c.event.m] else [])
  }

  ghost predicate Signalled(s: State, turns: seq<Turn>, k: int)
  {
    0 <= k < |turns| && turns[k].p == Main && turns[k].c.event.Interrupt? && Run(s, turns[..k]).main.Epoll?
  }

  lemma SignalledMore(s: State, turns: seq<Turn>)
    requires turns != []
    ensures var front := turns[..|turns| - 1];
      (exists k :: Signalled(s, turns, k)) <==> (exists k :: Signalled(s, front, k)) || Signalled(s, turns, |front|)
  {
    var front := turns[..|turns| - 1];
    forall k | 0 <= k < |front|
      ensures Signalled(s, turns, k) <==> Signalled(s, front, k)
    {
      assert turns[..k] == front[..k];
    }
    if k :| Signalled(s, turns, k) {
      assert k < |front| ==> Signalled(s, front, k);
    }
    if k :| Signalled(s, front, k) {
      assert Signalled(s, turns, k);
    }
  }

  lemma ReceivesStep(s: State, p: Who, c: Choice)
    ensures var t := match Next(s, p, c) case None => s case Some(t) => t; var waits := p == Main && s.main.Epoll?;
      && t.received == s.received + (if waits && c.event.Datagram? then [c.event.m] else [])
      && (!t.doWork <==> !s.doWork || (waits && c.event.Interrupt?))
  {
  }

  lemma SignalledLast(s: State, turns: seq<Turn>)
    requires turns != []
    ensures var last := turns[|turns| - 1];
      Signalled(s, turns, |turns| - 1) <==> last.p == Main && last.c.event.Interrupt? && Run(s, turns[..|turns| - 1]).main.Epoll?
  {
  }

  /** In every run main has received exactly the datagrams that arrived, in order, and stops working exactly once SIGINT has come. */
  lemma {:induction false} ReceivesAll(s: State, turns: seq<Turn>)
    requires Init(s)
    ensures Run(s, turns).received == Arrived(s, turns)
    ensures !Run(s, turns).doWork <==> exists k :: Signalled(s, turns, k)
  {
    if turns != [] {
      var front, last := turns[..|turns| - 1], turns[|turns| - 1];
      ReceivesAll(s, front);
      SignalledMore(s, turns);
      ReceivesStep(Run(s, front), last.p, last.c);
      SignalledLast(s, turns);
    }
  }
}
