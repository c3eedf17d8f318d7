/** The threads' code on the shared struct itself: each method is one thread's code between two points where another may run. */
module AdjutantStack {
  import opened Counting
  import opened Adjutants

  class AppState {
    const stack: array<Message>
    var top: nat
    var mtx: Option<Who>
    var doWork: bool
    const workers: array<WorkerPc>   // where each adjutant stands
    var main: MainPc
    ghost var received: seq<Message>
    ghost var accepted: seq<Message>
    ghost var refused: seq<Message>
    ghost var handled: seq<Message>

    ghost function View(): State
      reads this, stack, workers
    {
      State(stack[..], top, mtx, doWork, workers[..], main, received, accepted, refused, handled)
    }

    /** main up to its loop, with n adjutants. */
    constructor (n: nat, blank: Message)
      requires n > 0
      ensures fresh(stack) && fresh(workers) && workers.Length == n && Init(View())
    {
      stack := new Message[STACK_SIZE](_ => blank);
      top, mtx, doWork, main := 0, None, true, Loop;
      workers := new WorkerPc[n](_ => Lock);
      received, accepted, refused, handled := [], [], [], [];
    }

    /** adjutant_thread. */
    method AdjutantTurn(i: nat, c: Choice) returns (moved: bool)
      requires i < workers.Length
      modifies this, workers
      ensures match WorkerNext(old(View()), i, c)
        case None => !moved && View() == old(View())
        case Some(t) => moved && View() == t
    {
      moved := true;
      match workers[i]
      case Lock => moved := LockTurn(i);
      case Woken => moved := LockTurn(i);
      case TestWork => workers[i] := if doWork then TestTop else Check;
      case TestTop => workers[i] := if top == 0 then Fall else Check;
      case Fall => mtx := None; workers[i] := Asleep;
      case Asleep =>
        moved := c.spurious;
        if moved {
          workers[i] := Woken;
        }
      case Check => workers[i] := if !doWork && top == 0 then UnlockExit else Lower;
      case Lower =>
        moved := top > 0;
        if moved {
          top := top - 1;
          workers[i] := Copy;
        }
      case Copy =>
        moved := top < stack.Length;
        if moved {
          workers[i] := UnlockGot(stack[top]);
        }
      case UnlockGot(m) => mtx := None; workers[i] := Work(m);
      case Work(m) => handled := handled + [m]; workers[i] := Lock;
      case UnlockExit => mtx := None; workers[i] := Exited;
      case Exited => moved := false;
    }

    method LockTurn(i: nat) returns (got: bool)
      requires i < workers.Length
      modifies this`mtx, workers
      ensures got == old(mtx).None?
      ensures View() == if got then old(View()).(mtx := Some(Worker(i))).At(i, TestWork) else old(View())
    {
      got := mtx.None?;
      if got {
        mtx := Some(Worker(i));
        workers[i] := TestWork;
      }
    }

    /** pthread_cond_signal or pthread_cond_broadcast, waking those of wake that sleep. */
    method Wake(wake: set<nat>)
      modifies workers
      ensures workers[..] == Roused(old(workers[..]), wake)
    {
      var j := 0;
      while j < workers.Length
        invariant 0 <= j <= workers.Length
        invariant forall h :: 0 <= h < j ==> workers[h] == Roused(old(workers[..]), wake)[h]
        invariant forall h :: j <= h < workers.Length ==> workers[h] == old(workers[..])[h]
      {
        if j in wake && workers[j].Asleep? {
          workers[j] := Woken;
        }
        j := j + 1;
      }
    }

    /** The receiving loop and the shutdown of main. */
    method MainTurn(c: Choice) returns (moved: bool)
      modifies this, stack, workers
      ensures match MainNext(old(View()), c)
        case None => !moved && View() == old(View())
        case Some(t) => moved && View() == t
    {
      moved := true;
      match main
      case Loop => main := if doWork then Epoll else LockEnd;
      case Epoll =>
        match c.event {
          case Interrupt => doWork, main := false, Loop;
          case Nothing => main := Loop;
          case Datagram(m) => main, received := LockPush(m), received + [m];
        }
      case LockPush(m) =>
        moved := mtx.None?;
        if moved {
          mtx, main := Some(Main), Room(m);
        }
      case Room(m) =>
        if top < STACK_SIZE {
          main := Store(m);
        } else {
          main, refused := UnlockPush, refused + [m];
        }
      case Store(m) =>
        moved := top < stack.Length;
        if moved {
          stack[top] := m;
          main := Raise(m);
        }
      case Raise(m) => top, main, accepted := top + 1, Signal, accepted + [m];
      case Signal =>
        moved := MayWake(workers[..], false, c.wake);
        if moved {
          Wake(c.wake);
          main := UnlockPush;
        }
      case UnlockPush => mtx, main := None, Loop;
      case LockEnd =>
        moved := mtx.None?;
        if moved {
          mtx, main := Some(Main), Broadcast;
        }
      case Broadcast =>
        moved := MayWake(workers[..], true, c.wake);
        if moved {
          Wake(c.wake);
          main := UnlockEnd;
        }
      case UnlockEnd => mtx, main := None, Join(0);
      case Join(i) =>
        if i >= workers.Length {
          main := Done;
        } else {
          moved := workers[i].Exited?;
          if moved {
            main := Join(i + 1);
          }
        }
      case Done => moved := false;
    }

    /** A whole schedule of main and the adjutants. */
    method Schedule(turns: seq<Turn>)
      modifies this, stack, workers
      ensures View() == Run(old(View()), turns)
    {
      var n := 0;
      while n < |turns|
        invariant 0 <= n <= |turns| && View() == Run(old(View()), turns[..n])
      {
        var moved;
        match turns[n].p {
          case Main => moved := MainTurn(turns[n].c);
          case Worker(i) =>
            if i < workers.Length {
              moved := AdjutantTurn(i, turns[n].c);
            }
        }
        assert turns[..n + 1][..n] == turns[..n];
        n := n + 1;
      }
      assert turns[..n] == turns;
    }
  }
}
