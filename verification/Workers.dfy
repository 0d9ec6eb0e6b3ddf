/**
 The worker as the program builds it: objects for the RAM, the wait queue and the CPUs, changed in place by
 methods that call each other and run callbacks synchronously. Every method refines the function of the same
 name in Scheduling or Shutdown.
 */
module Workers {
  import opened Basics
  import opened DynArrays
  import opened BoundedQueues
  import opened Scheduling
  import opened Shutdown
  import WorkerRuns
  import Ram = RamLedger
  import Cpu = CpuAccounting

  class Worker {
    const limit: nat
    const ram: Ram.Ram
    const waitQueue: BoundedQueue<Waiter>
    const cpus: seq<Cpu.Cpu>
    var available: seq<nat>
    var now: real
    var nextEvent: nat
    var pending: map<nat, Event>
    var spinningDown: bool
    var queueLength: int
    var requestCount: nat
    ghost const Repr: set<object>
    ghost var owners: seq<Outer>
    ghost var started: seq<nat>
    ghost var completed: seq<Completion>
    ghost var refused: seq<Client>
    ghost var ramRefused: nat

    ghost predicate Valid()
      reads this, Repr
    {
      && {this, ram, waitQueue, waitQueue.buf} <= Repr
      && (forall c | c in cpus :: c in Repr && 0.0 < c.freq)
      && (forall i, j | 0 <= i < j < |cpus| :: cpus[i] != cpus[j])
      && waitQueue.Valid()
      && waitQueue.capacity == limit
    }

    ghost function CpuStates(): (s: seq<Cpu.CpuState>)
      requires forall c | c in cpus :: 0.0 < c.freq
      reads cpus
      ensures |s| == |cpus|
      ensures forall i | 0 <= i < |cpus| :: s[i] == cpus[i].State()
    {
      seq(|cpus|, i requires 0 <= i < |cpus| && 0.0 < cpus[i].freq reads cpus => cpus[i].State())
    }

    ghost function State(): Scheduling.State
      requires Valid()
      reads this, Repr
    {
      Scheduling.State.State(
        now, nextEvent, pending, CpuStates(), available, waitQueue.Contents(), waitQueue.finalized, spinningDown,
        ram.State(), queueLength, limit, requestCount, owners, started, completed, refused, ramRefused)
    }

    /** A worker whose CPUs exist from the start: worker_init and cpu_pool_init. */
    constructor (initialCpus: nat, freq: real, memory: real, queueCapacity: nat, time: real)
      requires 0 < initialCpus && 0.0 < freq
      ensures Valid() && fresh(Repr)
      ensures State() == WorkerRuns.NewWorker(initialCpus, freq, memory, queueCapacity, time)
    {
      var built, free := BuildCpus(initialCpus, freq);
      limit := queueCapacity;
      ram := new Ram.Ram(memory);
      var queue := new BoundedQueue<Waiter>(queueCapacity);
      waitQueue := queue;
      available, cpus := free, built;
      now, nextEvent, pending := time, 0, map[];
      spinningDown, queueLength, requestCount := false, 0, 0;
      owners, started, completed, refused, ramRefused := [], [], [], [], 0;
      Repr := {this, ram, queue, queue.buf} + set c | c in built;
    }

    static method BuildCpus(count: nat, freq: real) returns (built: seq<Cpu.Cpu>, free: seq<nat>)
      requires 0.0 < freq
      ensures |built| == count && free == seq(count, i => i)
      ensures forall c | c in built :: fresh(c) && c.State() == Cpu.NewCpu(freq)
      ensures forall i, j | 0 <= i < j < count :: built[i] != built[j]
    {
      built, free := [], [];
      for i := 0 to count
        invariant |built| == i && free == seq(i, j => j)
        invariant forall c | c in built :: fresh(c) && c.State() == Cpu.NewCpu(freq)
        invariant forall j, k | 0 <= j < k < i :: built[j] != built[k]
      {
        var cpu := new Cpu.Cpu(freq);
        built := built + [cpu];
        free := free + [i];
      }
    }

    /** The CPU's own part of a reservation. */
    method Occupy(i: nat, cycles: Amount) returns (duration: real)
      requires Valid() && i < |cpus| && !cpus[i].State().Busy()
      modifies cpus[i]
      ensures Valid()
      ensures duration == cycles / old(CpuStates())[i].freq
      ensures CpuStates() == old(CpuStates())[i := old(CpuStates())[i].Reserved(now)]
    {
      duration := cpus[i].StartReservation(now, cycles);
    }

    /** Occupies a CPU of the pool: cpu_reserve. */
    method CpuReserve(i: nat, cycles: Amount, cont: Cont)
      requires Valid() && i < |cpus| && !cpus[i].State().Busy()
      modifies Repr
      ensures Valid()
      ensures State() == StartCpu(old(State()), i, cycles, cont)
    {
      hide SwapRemove, Cpu.CpuState.Busy;
      var duration := Occupy(i, cycles);
      available := SwapRemove(available, i);
      pending := pending[nextEvent := CpuDone(i, duration, cont)];
      nextEvent := nextEvent + 1;
      started := started + [cont.id];
    }

    method FreeRam(id: nat)
      requires Valid()
      modifies ram
      ensures Valid()
      ensures State() == Scheduling.FreeRam(old(State()), id)
    {
      ram.RemoveReservationById(now, id);
    }

    method Answer(id: nat, outer: Outer, result: Result)
      requires Valid()
      modifies this`queueLength, this`completed
      ensures Valid()
      ensures State() == Scheduling.Answer(old(State()), id, outer, result)
    {
      queueLength := queueLength - outer.Share();
      completed := completed + [Completion(id, outer, result.Response())];
    }

    /** The RAM wrapper's callback, the worker's callback, then the caller's. */
    method RunCont(cont: Cont, result: Result)
      requires Valid()
      requires Inv(State(), {cont.id}, {}, cont.outer.Share()) && Conserving(State()) && Owns(owners, cont)
      requires result.IsError() ==> waitQueue.finalized
      requires cont.outer.ComputeOuter? ==> (!result.IsError() <==> cont.id in started)
      modifies Repr
      ensures Valid()
      ensures State() == Scheduling.RunCont(old(State()), cont, result)
      decreases cont.outer.client, 3
    {
      FinishInv(State(), cont, result);
      hide Inv, Conserving, Owns;
      FreeRam(cont.id);
      Answer(cont.id, cont.outer, result);
      Invoke(cont.outer.client, result.Response());
    }

    /** The caller's callback: its calls for this response, one after the other. */
    method Invoke(client: Client, response: Result)
      requires Valid() && Settled(State())
      modifies Repr
      ensures Valid()
      ensures State() == Scheduling.Invoke(old(State()), client, response)
      decreases client, 1
    {
      hide Settled;
      RunCalls(if response.IsError() then client.onError else client.onOk);
    }

    method RunCalls(calls: seq<Call>)
      requires Valid() && Settled(State())
      modifies Repr
      ensures Valid()
      ensures State() == Scheduling.RunCalls(old(State()), calls)
      decreases calls, 0
    {
      hide Settled, Later;
      if calls != [] {
        RunCall(calls[0]);
        RunCalls(calls[1..]);
      }
    }

    method RunCall(call: Call)
      requires Valid() && Settled(State())
      modifies Repr
      ensures Valid()
      ensures State() == Scheduling.RunCall(old(State()), call)
      decreases call, 7
    {
      hide Settled;
      match call {
        case Compute(cycles, bytes, client) => ReserveCompute(cycles, bytes, client);
        case Disk(op, bytes, client) => ReserveDisk(op, bytes, client);
      }
    }

    /** The answer to a call that is turned away at the door. */
    method Refuse(client: Client)
      requires Valid() && Settled(State())
      modifies Repr
      ensures Valid()
      ensures State() == Scheduling.Invoke(Refused(old(State()), client), client, R5XX)
      decreases client, 2
    {
      RefusedInv(State(), client);
      hide Inv, Settled, Later;
      refused := refused + [client];
      Invoke(client, R5XX);
    }

    method CountRequest()
      requires Valid()
      modifies this`requestCount
      ensures Valid()
      ensures State() == Counted(old(State()))
    {
      requestCount := requestCount + 1;
    }

    method CountQueued()
      requires Valid()
      modifies this`queueLength
      ensures Valid()
      ensures State() == Queued(old(State()))
    {
      queueLength := queueLength + 1;
    }

    /** worker_reserve_compute. */
    method ReserveCompute(cycles: Amount, bytes: Amount, client: Client)
      requires Valid() && Settled(State())
      modifies Repr
      ensures Valid()
      ensures State() == Scheduling.ReserveCompute(old(State()), cycles, bytes, client)
      decreases client, 6
    {
      CountedInv(State());
      hide Inv, Settled, Later;
      CountRequest();
      if queueLength >= limit || ram.Available() < bytes {
        Refuse(client);
      } else {
        CountQueued();
        ReservePending(bytes, CpuInner(cycles), ComputeOuter(client, cycles, bytes));
      }
    }

    /** worker_reserve_disk. */
    method ReserveDisk(op: DiskOp, bytes: Amount, client: Client)
      requires Valid() && Settled(State())
      modifies Repr
      ensures Valid()
      ensures State() == Scheduling.ReserveDisk(old(State()), op, bytes, client)
      decreases client, 6
    {
      hide PoolOk, EventsOk, QueueOk, LedgerOk, FifoOk, OwnersOk, HistoryOk, OutcomesOk, Later;
      if ram.Available() < bytes {
        Refuse(client);
      } else {
        ReservePending(bytes, DiskInner(op, bytes), DiskOuter(client, op, bytes));
      }
    }

    /** The bytes taken and the reservation opened. */
    method Admit(bytes: Amount, outer: Outer) returns (id: nat)
      requires Valid()
      modifies ram, this`owners
      ensures Valid()
      ensures id == old(State()).ram.nextId
      ensures State() == Scheduling.Admit(old(State()), bytes, outer)
    {
      id := ram.AddReservation(now, bytes);
      owners := owners + [outer];
    }

    /** ram_reserve_pending. */
    method ReservePending(bytes: Amount, inner: Inner, outer: Outer)
      requires Valid()
      requires Inv(State(), {}, {}, outer.Share()) && Conserving(State())
      requires bytes == outer.bytes && Serves(inner, outer)
      modifies Repr
      ensures Valid()
      ensures State() == Scheduling.ReservePending(old(State()), bytes, inner, outer)
      decreases outer.client, 5
    {
      hide PoolOk, EventsOk, QueueOk, LedgerOk, FifoOk, OwnersOk, HistoryOk, OutcomesOk, Later, Newest;
      if ram.Available() < bytes {
        WithdrawInv(State(), outer);
        queueLength := queueLength - outer.Share();
        ramRefused := ramRefused + 1;
        Invoke(outer.client, R5XX);
        return;
      }
      AdmitReady(State(), bytes, outer);
      var id := Admit(bytes, outer);
      LaunchInner(inner, RamWrap(id, outer));
    }

    /** The function pointer that ram_reserve_pending is given. */
    method LaunchInner(inner: Inner, cont: Cont)
      requires Valid()
      requires Inv(State(), {cont.id}, {}, cont.outer.Share()) && Conserving(State())
      requires Owns(owners, cont) && Newest(State(), cont.id)
      requires Serves(inner, cont.outer)
      modifies Repr
      ensures Valid()
      ensures State() == Scheduling.LaunchInner(old(State()), inner, cont)
      decreases cont.outer.client, 4, 1
    {
      hide Inv, Newest, Later;
      match inner {
        case CpuInner(cycles) => PoolReserve(cycles, cont);
        case DiskInner(op, bytes) => DiskReserve(op, bytes, cont);
      }
    }

    /** disk_reserve_op, without the disk's own metrics. */
    method DiskReserve(op: DiskOp, bytes: Amount, cont: Cont)
      requires Valid()
      modifies this`pending, this`nextEvent
      ensures Valid()
      ensures State() == LaunchDisk(old(State()), op, bytes, cont)
    {
      pending := pending[nextEvent := DiskDone(op, bytes, cont)];
      nextEvent := nextEvent + 1;
    }

    /** cpu_pool_reserve. */
    method PoolReserve(cycles: Amount, cont: Cont)
      requires Valid()
      requires Inv(State(), {cont.id}, {}, 1) && Conserving(State())
      requires Serves(CpuInner(cycles), cont.outer) && Owns(owners, cont) && Newest(State(), cont.id)
      modifies Repr
      ensures Valid()
      ensures State() == Scheduling.PoolReserve(old(State()), cycles, cont)
      decreases cont.outer.client, 4, 0
    {
      hide EventsOk, LedgerOk, FifoOk, OwnersOk, HistoryOk, OutcomesOk, SizesOk, WorkOk, Later;
      if |available| > 0 {
        FirstAvailable(State());
        assert cpus[available[0]].enabled;
        CpuReserve(available[0], cycles, cont);
        return;
      }
      if waitQueue.Full() || waitQueue.finalized {
        RunCont(cont, QueueFull);
        return;
      }
      var _ := waitQueue.Push(Waiter(cycles, cont));
    }

    /** cpu_pool_reserve_got_cpu. */
    method GotCpu(w: Waiter)
      requires Valid()
      requires available == [] ==> Doomed(State(), w)
      requires available != [] ==> available[0] < |cpus| && !cpus[available[0]].State().Busy()
      modifies Repr
      ensures Valid()
      ensures State() == Scheduling.GotCpu(old(State()), w)
    {
      if |available| == 0 {
        RunCont(w.caller, CpuShutdown);
        return;
      }
      CpuReserve(available[0], w.cycles, w.caller);
    }

    method Dequeue() returns (w: Waiter)
      requires Valid() && !waitQueue.Empty()
      modifies waitQueue
      ensures Valid()
      ensures old(State()).waiting != [] && w == old(State()).waiting[0]
      ensures State() == Scheduling.Dequeue(old(State()))
    {
      var item := waitQueue.Pop();
      w := item.value;
    }

    /** cpu_pool_release. */
    method PoolRelease(i: nat)
      requires Valid() && i < |cpus| && i in available
      requires available[0] < |cpus| && !cpus[available[0]].State().Busy()
      modifies Repr
      ensures Valid()
      ensures State() == Scheduling.PoolRelease(old(State()), i)
    {
      if (cpus[i].enabled || spinningDown) && !waitQueue.Empty() {
        var w := Dequeue();
        GotCpu(w);
      }
    }

    /** The first half of cpu_reserve_done: the CPU goes back to the pool and its time is booked. */
    method FreeCpu(k: nat)
      requires Valid() && k in pending && pending[k].CpuDone? && pending[k].cpu < |cpus|
      modifies Repr
      ensures Valid()
      ensures State() == Scheduling.FreeCpu(old(State()), k)
    {
      var e := pending[k];
      Book(e.cpu, e.duration);
      available := available + [e.cpu];
      pending := pending - {k};
    }

    method Book(i: nat, duration: real)
      requires Valid() && i < |cpus|
      modifies cpus[i]
      ensures Valid()
      ensures CpuStates() == old(CpuStates())[i := old(CpuStates())[i].Completed(now, duration)]
    {
      cpus[i].CompleteReservation(now, duration);
    }

    /** The CPU is freed and handed on to the next waiter. */
    method ReturnCpu(k: nat)
      requires Valid() && Settled(State()) && k in pending && pending[k].CpuDone?
      modifies Repr
      ensures Valid()
      ensures State() == Released(old(State()), k)
    {
      var i := pending[k].cpu;
      FreedCpu(State(), k);
      hide Settled, Inv;
      FreeCpu(k);
      PoolRelease(i);
    }

    /** cpu_reserve_done: free the CPU, hand it on, and only then tell the caller. */
    method CpuReserveDone(k: nat)
      requires Valid() && Settled(State()) && k in pending && pending[k].CpuDone?
      modifies Repr
      ensures Valid()
      ensures State() == Scheduling.CpuReserveDone(old(State()), k)
    {
      var caller := pending[k].caller;
      hide Settled, Inv, Later, Conserving, Owns, PoolOk, Released, Scheduling.RunCont;
      ReturnCpu(k);
      RunCont(caller, R4XX);
    }

    /** disk_reserve_done. */
    method DiskReserveDone(k: nat)
      requires Valid() && Settled(State()) && k in pending && pending[k].DiskDone?
      modifies Repr
      ensures Valid()
      ensures State() == Scheduling.DiskReserveDone(old(State()), k)
    {
      var e := pending[k];
      DropEventInv(State(), k);
      pending := pending - {k};
      RunCont(e.caller, R4XX);
    }

    method Finalize()
      requires Valid()
      modifies waitQueue`finalized, this`spinningDown
      ensures Valid()
      ensures State() == Finalized(old(State()))
    {
      spinningDown := true;
      waitQueue.Finalize();
    }

    /** One round of the shutdown loop. */
    method FailNext()
      requires Valid() && Settled(State()) && waitQueue.finalized && !waitQueue.Empty()
      modifies Repr
      ensures Valid() && Settled(State()) && waitQueue.finalized
      ensures |State().waiting| < |old(State()).waiting|
      ensures Drain(State()) == Drain(old(State()))
    {
      DoomedWaiter(State());
      var w := Dequeue();
      GotCpu(w);
    }

    /** cpu_pool_spin_down: finalize first, then fail whoever waits. */
    method SpinDown()
      requires Valid() && Settled(State())
      modifies Repr
      ensures Valid()
      ensures State() == Shutdown.SpinDown(old(State()))
    {
      FinalizeInv(State());
      hide Settled, Doomed, Inv;
      Finalize();
      while !waitQueue.Empty()
        invariant Valid() && Settled(State()) && waitQueue.finalized
        invariant Drain(State()) == Shutdown.SpinDown(old(State()))
        decreases |State().waiting|
      {
        FailNext();
      }
    }
  }
}
