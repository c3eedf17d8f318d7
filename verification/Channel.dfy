/** The shared one-block channel: a monitor with a mutex and two condition variables. */
module Channel {
  import opened Counting

  const CHANNEL_SIZE := 4096

  type Block = seq<char>

  datatype Status = Empty | Occupied | Depleted

  /** channel_produce, channel_consume, and the processor's last four lines on its output channel. */
  datatype Op = Produce(block: Block) | Consume | Deplete

  datatype Pc =
    | Idle
    | Lock(op: Op)                // at pthread_mutex_lock
    | Inside(op: Op)              // holds the mutex, at the test or at the first statement
    | Waiting(op: Op)             // asleep in pthread_cond_wait
    | Woken(op: Op)               // woken, not yet holding the mutex again
    | CopyIn(block: Block) | SetLength(block: Block) | SetOccupied(block: Block)
    | CopyOut | SetEmpty(buf: Block)
    | WakeConsumers(all: bool) | WakeProducer
    | Unlock

  /** A block put into the channel; lost is set when the channel is declared depleted over it. */
  datatype Sent = Sent(block: Block, lost: bool)

  /** The struct, the mutex holder, the processes; then histories: blocks put, blocks taken, depletions. */
  datatype State = State(
    status: Status, data: seq<char>, length: nat, mtx: Option<nat>, procs: seq<Pc>,
    log: seq<Sent>, taken: seq<Block>, depletions: nat)
  {
    function At(i: nat, pc: Pc): State requires i < |procs| { this.(procs := procs[i := pc]) }
  }

  /** op is the next call of an idle process, wake the processes a signal wakes, spurious a wakeup without one. */
  datatype Choice = Choice(op: Op, wake: set<nat>, spurious: bool)

  /** What channel.h demands of a caller. */
  predicate CallOk(op: Op) { op.Produce? ==> |op.block| <= CHANNEL_SIZE }

  /** Asleep on consumer_cv (k true) or on producer_cv. */
  predicate Sleeps(pc: Pc, k: bool) { pc.Waiting? && (if k then pc.op.Consume? else pc.op.Produce?) }

  predicate SomeSleeper(procs: seq<Pc>, k: bool)
  {
    exists i :: 0 <= i < |procs| && Sleeps(procs[i], k)
  }

  function Roused(procs: seq<Pc>, k: bool, wake: set<nat>): (r: seq<Pc>)
    ensures |r| == |procs|
    ensures forall i :: 0 <= i < |procs| ==> r[i] == if i in wake && Sleeps(procs[i], k) then Woken(procs[i].op) else procs[i]
  {
    seq(|procs|, i requires 0 <= i < |procs| => if i in wake && Sleeps(procs[i], k) then Woken(procs[i].op) else procs[i])
  }

  /** A signal unblocks at least one sleeper if there is one; a broadcast unblocks them all. */
  predicate MayWake(procs: seq<Pc>, k: bool, all: bool, wake: set<nat>)
  {
    if all then forall i :: 0 <= i < |procs| && Sleeps(procs[i], k) ==> i in wake
    else SomeSleeper(procs, k) ==> exists i :: 0 <= i < |procs| && Sleeps(procs[i], k) && i in wake
  }

  /** memcpy of a block to the front of the buffer. */
  function Copied(data: seq<char>, block: Block): (r: seq<char>)
    requires |block| <= |data|
    ensures |r| == |data| && r[..|block|] == block
  {
    block + data[|block|..]
  }

  function Dropped(log: seq<Sent>): (r: seq<Sent>)
    ensures |r| == |log|
  {
    if log == [] then log else log[..|log| - 1] + [Sent(log[|log| - 1].block, true)]
  }

  /** The statements under the mutex that change the channel. */
  function Body(s: State, i: nat): Option<State>
    requires i < |s.procs|
  {
    match s.procs[i]
    case Inside(Produce(b)) =>
      if s.status.Occupied? then Some(s.(mtx := None).At(i, Waiting(Produce(b)))) else Some(s.At(i, CopyIn(b)))
    case Inside(Consume) =>
      (match s.status
       case Empty => Some(s.(mtx := None).At(i, Waiting(Consume)))
       case Depleted => Some(s.At(i, Unlock))
       case Occupied => Some(s.At(i, CopyOut)))
    case Inside(Deplete) =>
      Some(s.(status := Depleted, log := if s.status.Occupied? then Dropped(s.log) else s.log, depletions := s.depletions + 1)
            .At(i, WakeConsumers(true)))
    case CopyIn(b) => if |b| <= |s.data| then Some(s.(data := Copied(s.data, b)).At(i, SetLength(b))) else None
    case SetLength(b) => Some(s.(length := |b|).At(i, SetOccupied(b)))
    case SetOccupied(b) => Some(s.(status := Occupied, log := s.log + [Sent(b, false)]).At(i, WakeConsumers(false)))
    case CopyOut => if s.length <= |s.data| then Some(s.At(i, SetEmpty(s.data[..s.length]))) else None
    case SetEmpty(buf) => Some(s.(status := Empty, taken := s.taken + [buf]).At(i, WakeProducer))
    case _ => None
  }

  /** One step of process i. */
  ghost function Next(s: State, i: nat, c: Choice): Option<State>
  {
    if i >= |s.procs| then None
    else
      match s.procs[i]
      case Idle => if CallOk(c.op) then Some(s.At(i, Lock(c.op))) else None
      case Lock(op) => if s.mtx.None? then Some(s.(mtx := Some(i)).At(i, Inside(op))) else None
      case Woken(op) => if s.mtx.None? then Some(s.(mtx := Some(i)).At(i, Inside(op))) else None
      case Waiting(op) => if c.spurious then Some(s.At(i, Woken(op))) else None
      case WakeConsumers(all) =>
        if MayWake(s.procs, true, all, c.wake) then Some(s.(procs := Roused(s.procs, true, c.wake)[i := Unlock])) else None
      case WakeProducer =>
        if MayWake(s.procs, false, false, c.wake) then Some(s.(procs := Roused(s.procs, false, c.wake)[i := Unlock])) else None
      case Unlock => Some(s.(mtx := None).At(i, Idle))
      case _ => Body(s, i)
  }

  datatype Turn = Turn(i: nat, c: Choice)

  ghost function Run(s: State, turns: seq<Turn>): State
  {
    if turns == [] then s
    else
      var u := Run(s, turns[..|turns| - 1]);
      var last := turns[|turns| - 1];
      match Next(u, last.i, last.c) case None => u case Some(t) => t
  }

  /** Some schedule leads from s to t. */
  ghost predicate Reaches(s: State, t: State) { exists turns :: Run(s, turns) == t }

  /** channel_open has initialised the struct and no process has called anything yet. */
  ghost predicate Init(s: State)
  {
    && s.status == Empty && |s.data| == CHANNEL_SIZE && s.length == 0 && s.mtx == None
    && (forall i :: 0 <= i < |s.procs| ==> s.procs[i] == Idle)
    && s.log == [] && s.taken == [] && s.depletions == 0
  }
}
