/**
 The Bitronka night shift: workers sort a shared array of shelves, each locking two shelf
 mutexes in index order; a worker may die holding both; a manager sweeps over all shelves.
 Every shared access that another process could observe is one step.
 */
module Shop {
  import opened Counting
  import opened Permutations

  datatype Proc = Worker(id: nat) | Manager

  // ---- robust mutexes (POSIX.1-2017, pthread_mutex_lock, pthread_mutex_consistent) ----

  datatype Mutex = Free | Held(owner: Proc, inconsistent: bool) | OwnerDead | Unrecoverable

  datatype LockResult = Acquired | OwnerDied | NotRecoverable

  /** What a lock call does; None while another process holds the mutex. */
  function Lock(m: Mutex, p: Proc): Option<(Mutex, LockResult)>
  {
    match m
    case Free => Some((Held(p, false), Acquired))
    case OwnerDead => Some((Held(p, true), OwnerDied))
    case Unrecoverable => Some((Unrecoverable, NotRecoverable))
    case Held(_, _) => None
  }

  /** Unlocking someone else's mutex fails and changes nothing; unlocking an inconsistent one ruins it. */
  function Unlock(m: Mutex, p: Proc): Mutex
  {
    if m.Held? && m.owner == p then (if m.inconsistent then Unrecoverable else Free) else m
  }

  function MakeConsistent(m: Mutex): Mutex
  {
    if m.Held? then Held(m.owner, false) else m
  }

  predicate IsOwnerDead(m: Mutex) { m.OwnerDead? }

  // ---- program counters ----

  /** The two distinct shelves a worker drew; it locks the lower index first. */
  datatype Job = Job(x: nat, y: nat) {
    function Lo(): nat { if x < y then x else y }
    function Hi(): nat { if x < y then y else x }
    function On(side: Side): nat { if side.First? then Lo() else Hi() }
  }

  datatype Side = First | Second

  /** Inside the EOWNERDEAD branch; WriteDead carries the value of dead that was read. */
  datatype Repair = TakeDead | ReadDead | WriteDead(seen: int) | DropDead | Mend

  datatype WorkerState =
    | CheckFlag                                // while (sorted != 1), read without a lock
    | TakeFlag | TestFlag | DropFlag(stop: bool)
    | Draw
    | TakeShelf(job: Job, side: Side)
    | Repairing(job: Job, side: Side, stage: Repair)
    | Compare(job: Job)
    | WriteX(job: Job)                         // SWAP: log[x] = __y
    | WriteY(job: Job, kept: int)              // SWAP: log[y] = __x, with __x read earlier
    | DropSecond(job: Job) | DropFirst(job: Job)
    | Home | Dead

  datatype ManagerState =
    | Sweep(i: nat)
    | Mending(i: nat, stage: Repair)
    | Inspect(i: nat)
    | Release(i: nat, ok: bool)
    | TakeCount(ok: bool) | TestCount(ok: bool) | DropCount(ok: bool, stop: bool)
    | TakeSorted | SetSorted | DropSorted
    | Done(allDied: bool)

  /** rand(): the two draws of a job, and whether the pallet is fatal. */
  datatype Choice = Choice(x: nat, y: nat, die: bool)

  const SAFE := Choice(0, 1, false)

  /**
   mutex holds the shelf mutexes at 0..n-1, then mxDead, then mxSorted.  Two history fields are
   not in the program: shelves is log with every half-written swap completed, swaps counts swaps.
   */
  datatype State = State(
    log: seq<int>, mutex: seq<Mutex>, sorted: bool, dead: int,
    workers: seq<WorkerState>, manager: ManagerState,
    shelves: seq<int>, swaps: nat)
  {
    function N(): nat { |log| }
    function DeadMx(): nat { |log| }
    function SortedMx(): nat { |log| + 1 }
    function At(w: nat, ws: WorkerState): State requires w < |workers| { this.(workers := workers[w := ws]) }
  }

  predicate JobOk(j: Job, n: nat) { j.x < n && j.y < n && j.x != j.y }

  predicate WorkerOk(ws: WorkerState, n: nat)
  {
    match ws
    case TakeShelf(j, _) => JobOk(j, n)
    case Repairing(j, _, _) => JobOk(j, n)
    case Compare(j) => JobOk(j, n)
    case WriteX(j) => JobOk(j, n)
    case WriteY(j, _) => JobOk(j, n)
    case DropSecond(j) => JobOk(j, n)
    case DropFirst(j) => JobOk(j, n)
    case _ => true
  }

  predicate ManagerOk(ms: ManagerState, n: nat)
  {
    match ms
    case Sweep(i) => i <= n
    case Mending(i, _) => i < n
    case Inspect(i) => i <= n
    case Release(i, _) => i <= n
    case _ => true
  }

  predicate Shape(s: State)
  {
    && s.N() >= 2 && |s.shelves| == s.N() && |s.mutex| == s.N() + 2
    && (forall w :: 0 <= w < |s.workers| ==> WorkerOk(s.workers[w], s.N()))
    && ManagerOk(s.manager, s.N())
  }

  // ---- steps ----

  function Acquire(s: State, p: Proc, k: nat): Option<(State, LockResult)>
    requires k < |s.mutex|
  {
    match Lock(s.mutex[k], p)
    case None => None
    case Some((m, r)) => Some((s.(mutex := s.mutex[k := m]), r))
  }

  function Drop(s: State, p: Proc, k: nat): State
    requires k < |s.mutex|
  {
    s.(mutex := s.mutex[k := Unlock(s.mutex[k], p)])
  }

  /** One step of the EOWNERDEAD branch for mutex k: the new state, and the next stage unless it is over. */
  function RepairNext(s: State, p: Proc, k: nat, stage: Repair): Option<(State, Option<Repair>)>
    requires Shape(s) && k < s.N()
  {
    match stage
    case TakeDead =>
      (match Acquire(s, p, s.DeadMx())
       case None => None
       case Some((t, _)) => Some((t, Some(ReadDead))))
    case ReadDead => Some((s, Some(WriteDead(s.dead))))
    case WriteDead(seen) => Some((s.(dead := seen + 1), Some(DropDead)))
    case DropDead => Some((Drop(s, p, s.DeadMx()), Some(Mend)))
    case Mend => Some((s.(mutex := s.mutex[k := MakeConsistent(s.mutex[k])]), None))
  }

  function AfterShelf(j: Job, side: Side): WorkerState
  {
    if side.First? then TakeShelf(j, Second) else Compare(j)
  }

  /** The dying worker's two shelf mutexes are marked by the kernel. */
  function Die(s: State, w: nat, j: Job): State
    requires Shape(s) && w < |s.workers| && JobOk(j, s.N())
  {
    s.(mutex := s.mutex[j.Lo() := OwnerDead][j.Hi() := OwnerDead]).At(w, Dead)
  }

  function WorkerNext(s: State, w: nat, c: Choice): Option<State>
    requires Shape(s) && w < |s.workers|
  {
    var p := Worker(w);
    match s.workers[w]
    case CheckFlag => Some(s.At(w, if s.sorted then Home else TakeFlag))
    case TakeFlag =>
      (match Acquire(s, p, s.SortedMx())
       case None => None
       case Some((t, _)) => Some(t.At(w, TestFlag)))
    case TestFlag => Some(s.At(w, DropFlag(s.sorted)))
    case DropFlag(stop) => Some(Drop(s, p, s.SortedMx()).At(w, if stop then Home else Draw))
    case Draw =>
      if JobOk(Job(c.x, c.y), s.N()) then Some(s.At(w, TakeShelf(Job(c.x, c.y), First))) else None
    case TakeShelf(j, side) =>
      (match Acquire(s, p, j.On(side))
       case None => None
       case Some((t, r)) =>
         Some(t.At(w, if r.OwnerDied? then Repairing(j, side, TakeDead) else AfterShelf(j, side))))
    case Repairing(j, side, stage) =>
      (match RepairNext(s, p, j.On(side), stage)
       case None => None
       case Some((t, next)) =>
         Some(t.At(w, if next.Some? then Repairing(j, side, next.value) else AfterShelf(j, side))))
    case Compare(j) =>
      // x < y swaps when log[x] > log[y]; y < x swaps when log[x] < log[y]
      if (if j.x < j.y then s.log[j.x] > s.log[j.y] else s.log[j.x] < s.log[j.y]) then
        Some(if c.die then Die(s, w, j) else s.At(w, WriteX(j)))
      else
        Some(s.At(w, DropSecond(j)))
    case WriteX(j) =>
      Some(s.(log := s.log[j.x := s.log[j.y]], shelves := Swapped(s.shelves, j.x, j.y), swaps := s.swaps + 1)
            .At(w, WriteY(j, s.log[j.x])))
    case WriteY(j, kept) => Some(s.(log := s.log[j.y := kept]).At(w, DropSecond(j)))
    case DropSecond(j) => Some(Drop(s, p, j.Hi()).At(w, DropFirst(j)))
    case DropFirst(j) => Some(Drop(s, p, j.Lo()).At(w, CheckFlag))
    case Home => None
    case Dead => None
  }

  lemma RepairingShape(s: State, w: nat, c: Choice)
    requires Shape(s) && w < |s.workers| && (s.workers[w].Repairing? || s.workers[w].TakeShelf? || s.workers[w].Compare?)
    ensures var r := WorkerNext(s, w, c);
      r.Some? ==> Shape(r.value) && |r.value.workers| == |s.workers| && r.value.N() == s.N()
  {
    assert WorkerOk(s.workers[w], s.N());
  }

  lemma WorkerShape(s: State, w: nat, c: Choice)
    requires Shape(s) && w < |s.workers|
    ensures var r := WorkerNext(s, w, c);
      r.Some? ==> Shape(r.value) && |r.value.workers| == |s.workers| && r.value.N() == s.N()
  {
    if s.workers[w].Repairing? || s.workers[w].TakeShelf? || s.workers[w].Compare? {
      RepairingShape(s, w, c);
    } else {
      assert WorkerOk(s.workers[w], s.N());
    }
  }

  function ManagerNext(s: State): Option<State>
    requires Shape(s)
  {
    var n := s.N();
    match s.manager
    case Sweep(i) =>
      if i == n then Some(s.(manager := Inspect(0)))
      else (match Acquire(s, Manager, i)
            case None => None
            case Some((t, r)) => Some(t.(manager := if r.OwnerDied? then Mending(i, TakeDead) else Sweep(i + 1))))
    case Mending(i, stage) =>
      (match RepairNext(s, Manager, i, stage)
       case None => None
       case Some((t, next)) => Some(t.(manager := if next.Some? then Mending(i, next.value) else Sweep(i + 1))))
    case Inspect(i) =>
      Some(s.(manager :=
        if i == n then Release(0, true) else if s.log[i] != i then Release(0, false) else Inspect(i + 1)))
    case Release(i, ok) =>
      if i == n then Some(s.(manager := TakeCount(ok)))
      else Some(Drop(s, Manager, i).(manager := Release(i + 1, ok)))
    case TakeCount(ok) =>
      (match Acquire(s, Manager, s.DeadMx())
       case None => None
       case Some((t, _)) => Some(t.(manager := TestCount(ok))))
    case TestCount(ok) => Some(s.(manager := DropCount(ok, AllDeadTest(s))))
    case DropCount(ok, stop) =>
      Some(Drop(s, Manager, s.DeadMx()).(manager := if stop then Done(true) else if ok then TakeSorted else Sweep(0)))
    case TakeSorted =>
      (match Acquire(s, Manager, s.SortedMx())
       case None => None
       case Some((t, _)) => Some(t.(manager := SetSorted)))
    case SetSorted => Some(s.(sorted := true, manager := DropSorted))
    case DropSorted => Some(Drop(s, Manager, s.SortedMx()).(manager := Done(false)))
    case Done(_) => None
  }

  lemma ManagerShape(s: State)
    requires Shape(s)
    ensures var r := ManagerNext(s);
      r.Some? ==> Shape(r.value) && |r.value.workers| == |s.workers| && r.value.N() == s.N()
  {
  }

  /** dead / 2 == M; dead is never negative, so Dafny's division is C's. */
  predicate AllDeadTest(s: State) { s.dead / 2 == |s.workers| }

  /** One step of process p, or None when p cannot move. */
  function Next(s: State, p: Proc, c: Choice): (r: Option<State>)
    requires Shape(s)
    ensures r.Some? ==> Shape(r.value) && |r.value.workers| == |s.workers| && r.value.N() == s.N()
  {
    match p
    case Worker(w) => if w < |s.workers| then WorkerShape(s, w, c); WorkerNext(s, w, c) else None
    case Manager => ManagerShape(s); ManagerNext(s)
  }

  datatype Turn = Turn(p: Proc, c: Choice)

  /** The state after a schedule; a turn given to a process that cannot move changes nothing. */
  function Run(s: State, turns: seq<Turn>): (t: State)
    requires Shape(s)
    ensures Shape(t) && |t.workers| == |s.workers| && t.N() == s.N()
  {
    if turns == [] then s
    else
      var u := Run(s, turns[..|turns| - 1]);
      var last := turns[|turns| - 1];
      match Next(u, last.p, last.c)
      case None => u
      case Some(v) => v
  }

  /** main: n shuffled shelves, m workers, one manager, everything unlocked. */
  predicate Init(s: State)
  {
    && Shape(s)
    && s.shelves == s.log && !s.sorted && s.dead == 0 && s.swaps == 0
    && (forall k :: 0 <= k < |s.mutex| ==> s.mutex[k] == Free)
    && (forall w :: 0 <= w < |s.workers| ==> s.workers[w] == CheckFlag)
    && s.manager == Sweep(0)
  }

  ghost predicate Start(s: State) { Init(s) && Permutation(s.log) }

  predicate ValidProc(s: State, p: Proc) { p.Worker? ==> p.id < |s.workers| }

  predicate Finished(s: State, p: Proc)
    requires ValidProc(s, p)
  {
    match p
    case Worker(w) => s.workers[w].Home? || s.workers[w].Dead?
    case Manager => s.manager.Done?
  }
}
