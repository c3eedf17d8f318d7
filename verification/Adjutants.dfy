/** The report stack shared by the receiving thread and the adjutants, up to the draining shutdown. */
module Adjutants {
  import opened Counting

  const STACK_SIZE := 16

  /** A datagram and the courier it came from. */
  datatype Message = Message(buf: string, addr: nat)

  datatype WorkerPc =
    | Lock                         // at pthread_mutex_lock
    | TestWork | TestTop           // while (do_work && state->top == 0)
    | Fall | Asleep | Woken        // pthread_cond_wait
    | Check                        // if (!do_work && state->top == 0)
    | Lower | Copy                 // state->top--, the copy of the message
    | UnlockGot(m: Message) | Work(m: Message)
    | UnlockExit | Exited

  datatype MainPc =
    | Loop | Epoll
    | LockPush(m: Message) | Room(m: Message) | Store(m: Message) | Raise(m: Message) | Signal | UnlockPush
    | LockEnd | Broadcast | UnlockEnd | Join(i: nat) | Done

  datatype Who = Main | Worker(i: nat)

  /** Histories: the messages received, put on the stack, turned away, and worked on. */
  datatype State = State(
    stack: seq<Message>, top: nat, mtx: Option<Who>, doWork: bool, workers: seq<WorkerPc>, main: MainPc,
    received: seq<Message>, accepted: seq<Message>, refused: seq<Message>, handled: seq<Message>)
  {
    function At(i: nat, pc: WorkerPc): State requires i < |workers| { this.(workers := workers[i := pc]) }
  }

  /** What epoll_pwait returns: SIGINT's EINTR, nothing to read, or a datagram. */
  datatype Event = Interrupt | Nothing | Datagram(m: Message)

  datatype Choice = Choice(event: Event, wake: set<nat>, spurious: bool)

  predicate SomeAsleep(workers: seq<WorkerPc>) { exists i :: 0 <= i < |workers| && workers[i].Asleep? }

  function Roused(workers: seq<WorkerPc>, wake: set<nat>): (r: seq<WorkerPc>)
    ensures |r| == |workers|
    ensures forall i :: 0 <= i < |workers| ==> r[i] == if i in wake && workers[i].Asleep? then Woken else workers[i]
  {
    seq(|workers|, i requires 0 <= i < |workers| => if i in wake && workers[i].Asleep? then Woken else workers[i])
  }

  /** A signal wakes at least one sleeper if there is one, a broadcast all of them. */
  predicate MayWake(workers: seq<WorkerPc>, all: bool, wake: set<nat>)
  {
    if all then forall i :: 0 <= i < |workers| && workers[i].Asleep? ==> i in wake
    else SomeAsleep(workers) ==> exists i :: 0 <= i < |workers| && workers[i].Asleep? && i in wake
  }

  function WorkerNext(s: State, i: nat, c: Choice): Option<State>
    requires i < |s.workers|
  {
    match s.workers[i]
    case Lock => if s.mtx.None? then Some(s.(mtx := Some(Worker(i))).At(i, TestWork)) else None
    case Woken => if s.mtx.None? then Some(s.(mtx := Some(Worker(i))).At(i, TestWork)) else None
    case TestWork => Some(s.At(i, if s.doWork then TestTop else Check))
    case TestTop => Some(s.At(i, if s.top == 0 then Fall else Check))
    case Fall => Some(s.(mtx := None).At(i, Asleep))
    case Asleep => if c.spurious then Some(s.At(i, Woken)) else None
    case Check => Some(s.At(i, if !s.doWork && s.top == 0 then UnlockExit else Lower))
    case Lower => if s.top > 0 then Some(s.(top := s.top - 1).At(i, Copy)) else None
    case Copy => if s.top < |s.stack| then Some(s.At(i, UnlockGot(s.stack[s.top]))) else None
    case UnlockGot(m) => Some(s.(mtx := None).At(i, Work(m)))
    case Work(m) => Some(s.(handled := s.handled + [m]).At(i, Lock))
    case UnlockExit => Some(s.(mtx := None).At(i, Exited))
    case Exited => None
  }

  ghost function MainNext(s: State, c: Choice): Option<State>
  {
    match s.main
    case Loop => Some(s.(main := if s.doWork then Epoll else LockEnd))
    case Epoll =>
      (match c.event
       case Interrupt => Some(s.(doWork := false, main := Loop))
       case Nothing => Some(s.(main := Loop))
       case Datagram(m) => Some(s.(main := LockPush(m), received := s.received + [m])))
    case LockPush(m) => if s.mtx.None? then Some(s.(mtx := Some(Main), main := Room(m))) else None
    case Room(m) =>
      if s.top < STACK_SIZE then Some(s.(main := Store(m))) else Some(s.(main := UnlockPush, refused := s.refused + [m]))
    case Store(m) => if s.top < |s.stack| then Some(s.(stack := s.stack[s.top := m], main := Raise(m))) else None
    case Raise(m) => Some(s.(top := s.top + 1, accepted := s.accepted + [m], main := Signal))
    case Signal => if MayWake(s.workers, false, c.wake) then Some(s.(workers := Roused(s.workers, c.wake), main := UnlockPush)) else None
    case UnlockPush => Some(s.(mtx := None, main := Loop))
    case LockEnd => if s.mtx.None? then Some(s.(mtx := Some(Main), main := Broadcast)) else None
    case Broadcast => if MayWake(s.workers, true, c.wake) then Some(s.(workers := Roused(s.workers, c.wake), main := UnlockEnd)) else None
    case UnlockEnd => Some(s.(mtx := None, main := Join(0)))
    case Join(i) =>
      if i >= |s.workers| then Some(s.(main := Done))
      else if s.workers[i].Exited? then Some(s.(main := Join(i + 1)))
      else None
    case Done => None
  }

  ghost function Next(s: State, p: Who, c: Choice): Option<State>
  {
    match p
    case Main => MainNext(s, c)
    case Worker(i) => if i < |s.workers| then WorkerNext(s, i, c) else None
  }

  datatype Turn = Turn(p: Who, c: Choice)

  ghost function Run(s: State, turns: seq<Turn>): State
  {
    if turns == [] then s
    else
      var u := Run(s, turns[..|turns| - 1]);
      var last := turns[|turns| - 1];
      match Next(u, last.p, last.c) case None => u case Some(t) => t
  }

  /** main before its loop, with the adjutants created. */
  ghost predicate Init(s: State)
  {
    && |s.stack| == STACK_SIZE && s.top == 0 && s.mtx == None && s.doWork && |s.workers| > 0
    && (forall i :: 0 <= i < |s.workers| ==> s.workers[i] == Lock)
    && s.main == Loop && s.received == [] && s.accepted == [] && s.refused == [] && s.handled == []
  }
}
