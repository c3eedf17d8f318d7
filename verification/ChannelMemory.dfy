/** The code of channel.c on the shared struct itself: each method is one process's code between two points where another may run. */
module ChannelMemory {
  import opened Counting
  import opened Channel

  class SharedChannel {
    var status: Status
    const data: array<char>
    var length: nat
    var mtx: Option<nat>
    const procs: array<Pc>           // where each process stands
    ghost var log: seq<Sent>
    ghost var taken: seq<Block>
    ghost var depletions: nat

    ghost function View(): State
      reads this, data, procs
    {
      State(status, data[..], length, mtx, procs[..], log, taken, depletions)
    }

    /** The initialisation in channel_open, for n processes. */
    constructor (n: nat)
      ensures fresh(data) && fresh(procs) && procs.Length == n
      ensures Init(View())
    {
      status, length, mtx := Empty, 0, None;
      data := new char[CHANNEL_SIZE](_ => '\0');
      procs := new Pc[n](_ => Idle);
      log, taken, depletions := [], [], 0;
    }

    /** The statements under the mutex. */
    method BodyTurn(i: nat) returns (moved: bool)
      requires i < procs.Length
      modifies this, data, procs
      ensures match Body(old(View()), i)
        case None => !moved && View() == old(View())
        case Some(t) => moved && View() == t
    {
      moved := true;
      match procs[i]
      case Inside(Produce(b)) =>
        if status.Occupied? {
          mtx := None;
          procs[i] := Waiting(Produce(b));
        } else {
          procs[i] := CopyIn(b);
        }
      case Inside(Consume) =>
        if status.Empty? {
          mtx := None;
          procs[i] := Waiting(Consume);
        } else if status.Depleted? {
          procs[i] := Unlock;
        } else {
          procs[i] := CopyOut;
        }
      case Inside(Deplete) =>
        if status.Occupied? {
          log := Dropped(log);
        }
        status := Depleted;
        depletions := depletions + 1;
        procs[i] := WakeConsumers(true);
      case CopyIn(b) =>
        moved := |b| <= data.Length;
        if moved {
          ghost var was := data[..];
          forall k | 0 <= k < |b| {
            data[k] := b[k];
          }
          procs[i] := SetLength(b);
          assert data[..] == Copied(was, b);
        }
      case SetLength(b) =>
        length := |b|;
        procs[i] := SetOccupied(b);
      case SetOccupied(b) =>
        status := Occupied;
        log := log + [Sent(b, false)];
        procs[i] := WakeConsumers(false);
      case CopyOut =>
        moved := length <= data.Length;
        if moved {
          procs[i] := SetEmpty(data[..length]);
        }
      case SetEmpty(buf) =>
        status := Empty;
        taken := taken + [buf];
        procs[i] := WakeProducer;
      case _ => moved := false;
    }

    /** pthread_cond_signal or pthread_cond_broadcast by process i, waking those of wake that sleep there. */
    method SignalTurn(i: nat, k: bool, wake: set<nat>)
      requires i < procs.Length && !procs[i].Waiting?
      modifies procs
      ensures procs[..] == Roused(old(procs[..]), k, wake)[i := Unlock]
    {
      var j := 0;
      while j < procs.Length
        invariant 0 <= j <= procs.Length
        invariant forall h :: 0 <= h < j ==> procs[h] == Roused(old(procs[..]), k, wake)[h]
        invariant forall h :: j <= h < procs.Length ==> procs[h] == old(procs[..])[h]
      {
        if j in wake && Sleeps(procs[j], k) {
          procs[j] := Woken(procs[j].op);
        }
        j := j + 1;
      }
      procs[i] := Unlock;
    }

    /** Any step of process i. */
    method TakeTurn(i: nat, c: Choice) returns (moved: bool)
      modifies this, data, procs
      ensures match Next(old(View()), i, c)
        case None => !moved && View() == old(View())
        case Some(t) => moved && View() == t
    {
      moved := i < procs.Length;
      if !moved {
        return;
      }
      match procs[i]
      case Idle =>
        moved := CallOk(c.op);
        if moved {
          procs[i] := Lock(c.op);
        }
      case Lock(op) => moved := LockTurn(i, op);
      case Woken(op) => moved := LockTurn(i, op);
      case Waiting(op) =>
        moved := c.spurious;
        if moved {
          procs[i] := Woken(op);
        }
      case WakeConsumers(all) =>
        moved := MayWake(procs[..], true, all, c.wake);
        if moved {
          SignalTurn(i, true, c.wake);
        }
      case WakeProducer =>
        moved := MayWake(procs[..], false, false, c.wake);
        if moved {
          SignalTurn(i, false, c.wake);
        }
      case Unlock =>
        mtx := None;
        procs[i] := Idle;
      case _ => moved := BodyTurn(i);
    }

    method LockTurn(i: nat, op: Op) returns (got: bool)
      requires i < procs.Length
      modifies this`mtx, procs
      ensures got == old(mtx).None?
      ensures View() == if got then old(View()).(mtx := Some(i)).At(i, Inside(op)) else old(View())
    {
      got := mtx.None?;
      if got {
        mtx := Some(i);
        procs[i] := Inside(op);
      }
    }

    /** A whole schedule of all the processes. */
    method Schedule(turns: seq<Turn>)
      modifies this, data, procs
      ensures View() == Run(old(View()), turns)
    {
      var n := 0;
      while n < |turns|
        invariant 0 <= n <= |turns| && View() == Run(old(View()), turns[..n])
      {
        var moved := TakeTurn(turns[n].i, turns[n].c);
        assert turns[..n + 1][..n] == turns[..n];
        n := n + 1;
      }
      assert turns[..n] == turns;
    }
  }
}
