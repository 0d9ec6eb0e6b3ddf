/**
 What the calls and the ends of operations make of a worker, field by field: what an admitted call takes and launches,
 what a freed CPU goes on to, and which of its calls a caller makes when it hears.
 */
module Admission {
  import opened Basics
  import opened DynArrays
  import opened Scheduling
  import Ram = RamLedger
  import Cpu = CpuAccounting

  /** The bytes are taken, and a new reservation holds them from now on. */
  ghost predicate Holds(before: Ram.RamState, after: Ram.RamState, now: real, bytes: real) {
    && after.utilized == before.utilized + bytes
    && after.ongoing == before.ongoing + [Ram.Reservation(before.nextId, now, bytes)]
    && after.nextId == before.nextId + 1
    && after.capacity == before.capacity
    && after.integrated == before.integrated && after.lastProfiled == before.lastProfiled
  }

  /** Apart from the memory, its owners and what is named here, the worker is as it was. */
  ghost predicate SameHistory(s: State, r: State) {
    && r.now == s.now && r.limit == s.limit
    && r.finalized == s.finalized && r.spinningDown == s.spinningDown
    && r.completed == s.completed && r.refused == s.refused && r.ramRefused == s.ramRefused
  }

  ghost predicate SamePool(s: State, r: State) {
    && r.cpus == s.cpus && r.available == s.available && r.waiting == s.waiting && r.started == s.started
  }

  ghost predicate SameEvents(s: State, r: State) {
    r.pending == s.pending && r.nextEvent == s.nextEvent
  }

  /** The event is the next one of the worker. */
  ghost predicate Schedules(s: State, r: State, e: Event) {
    r.pending == s.pending[s.nextEvent := e] && r.nextEvent == s.nextEvent + 1
  }

  /** CPU i starts on this reservation now. */
  ghost predicate Occupies(s: State, r: State, i: nat, id: nat) {
    && i in s.available && i < |s.cpus|
    && r.available == SwapRemove(s.available, i)
    && r.cpus == s.cpus[i := s.cpus[i].(lastReserved := s.now)]
    && r.started == s.started + [id]
  }

  lemma SettledIs(s: State)
    requires Settled(s)
    ensures Inv(s, {}, {}, 0) && Conserving(s)
  {
  }

  /** An operation that fits gets its reservation first and is launched then. */
  lemma LaunchFollows(s: State, bytes: Amount, inner: Inner, outer: Outer)
    requires Inv(s, {}, {}, outer.Share()) && Conserving(s) && bytes <= s.ram.Available()
    requires bytes == outer.bytes && Serves(inner, outer)
    ensures var a, cont := Admit(s, bytes, outer), RamWrap(s.ram.nextId, outer);
            && Inv(a, {cont.id}, {}, outer.Share()) && Conserving(a) && Owns(a.owners, cont) && Newest(a, cont.id)
            && ReservePending(s, bytes, inner, outer) == LaunchInner(a, inner, cont)
  {
    AdmitReady(s, bytes, outer);
    hide Inv, Settled, Conserving, Owns, Newest, Later, LaunchInner, Invoke, Withdrawn;
  }

  lemma DiskFollows(s: State, op: DiskOp, bytes: Amount, client: Client)
    requires Settled(s) && s.ram.utilized + bytes <= s.ram.capacity
    ensures ReserveDisk(s, op, bytes, client)
         == LaunchDisk(Admit(s, bytes, DiskOuter(client, op, bytes)), op, bytes,
                       RamWrap(s.ram.nextId, DiskOuter(client, op, bytes)))
  {
    SettledIs(s);
    LaunchFollows(s, bytes, DiskInner(op, bytes), DiskOuter(client, op, bytes));
    hide Inv, Settled, Conserving, Owns, Newest, Later, ReservePending, PoolReserve, Invoke, Admit, LaunchDisk, Refused;
  }

  /** A disk operation whose bytes fit takes them at once, and is under way. */
  lemma DiskIsAdmitted(s: State, op: DiskOp, bytes: Amount, client: Client)
    requires Settled(s) && s.ram.utilized + bytes <= s.ram.capacity
    ensures var r, outer := ReserveDisk(s, op, bytes, client), DiskOuter(client, op, bytes);
            && Holds(s.ram, r.ram, s.now, bytes)
            && r.owners == s.owners + [outer]
            && Schedules(s, r, DiskDone(op, bytes, RamWrap(s.ram.nextId, outer)))
            && SamePool(s, r) && SameHistory(s, r)
            && r.queueLength == s.queueLength && r.requestCount == s.requestCount
  {
    DiskFollows(s, op, bytes, client);
    hide Settled, Later, ReserveDisk;
  }

  /** The call is counted, its bytes are taken, and its place in the queue counter too. */
  ghost predicate Enters(s: State, r: State, outer: Outer) {
    && Holds(s.ram, r.ram, s.now, outer.bytes)
    && r.owners == s.owners + [outer]
    && r.queueLength == s.queueLength + 1 && r.requestCount == s.requestCount + 1
    && SameHistory(s, r)
  }

  lemma EntersFacts(s: State, outer: Outer)
    ensures var q := Queued(Counted(s));
            && q.ram == s.ram && q.available == s.available && q.waiting == s.waiting && q.limit == s.limit
            && q.finalized == s.finalized
    ensures var a := Admit(Queued(Counted(s)), outer.bytes, outer);
            && Enters(s, a, outer) && SamePool(s, a) && SameEvents(s, a)
            && a.limit == s.limit && a.finalized == s.finalized
  {
  }

  /** What a compute becomes when it enters: its reservation first, then the CPU pool. */
  lemma ComputeFollows(s: State, cycles: Amount, bytes: Amount, client: Client)
    requires Settled(s) && s.queueLength < s.limit && s.ram.utilized + bytes <= s.ram.capacity
    ensures var outer := ComputeOuter(client, cycles, bytes);
            var a, cont := Admit(Queued(Counted(s)), bytes, outer), RamWrap(s.ram.nextId, outer);
            && Inv(a, {cont.id}, {}, 1) && Conserving(a) && Owns(a.owners, cont) && Newest(a, cont.id)
            && ReserveCompute(s, cycles, bytes, client) == PoolReserve(a, cycles, cont)
  {
    CountedInv(s);
    EntersFacts(s, ComputeOuter(client, cycles, bytes));
    hide Inv, Settled, Conserving, Owns, Newest, Later, ReservePending, PoolReserve, Invoke, Admit, Refused, Queued;
    hide Counted;
    LaunchFollows(Queued(Counted(s)), bytes, CpuInner(cycles), ComputeOuter(client, cycles, bytes));
  }

  lemma StartFollows(s: State, cycles: Amount, cont: Cont)
    requires Inv(s, {cont.id}, {}, 1) && Conserving(s) && Serves(CpuInner(cycles), cont.outer)
    requires Owns(s.owners, cont) && Newest(s, cont.id) && s.available != []
    ensures s.available[0] in s.available && s.available[0] < |s.cpus|
    ensures PoolReserve(s, cycles, cont) == StartCpu(s, s.available[0], cycles, cont)
  {
    FirstAvailable(s);
    hide Inv, Conserving, Owns, Newest, Settled, Later, StartCpu, RunCont, Enqueue;
  }

  lemma EnqueueFollows(s: State, cycles: Amount, cont: Cont)
    requires Inv(s, {cont.id}, {}, 1) && Conserving(s) && Serves(CpuInner(cycles), cont.outer)
    requires Owns(s.owners, cont) && Newest(s, cont.id) && s.available == [] && |s.waiting| < s.limit && !s.finalized
    ensures PoolReserve(s, cycles, cont) == Enqueue(s, cycles, cont)
  {
    hide Inv, Conserving, Owns, Newest, Settled, Later, StartCpu, RunCont, Enqueue;
  }

  lemma RoomToWait(s: State)
    requires Settled(s) && s.queueLength < s.limit && s.available == []
    ensures |s.waiting| < s.limit
  {
    hide PoolOk, EventsOk, LedgerOk, FifoOk, OwnersOk, HistoryOk, OutcomesOk, SizesOk, WorkOk;
  }

  lemma StartFacts(s: State, i: nat, cycles: Amount, cont: Cont)
    requires i in s.available && i < |s.cpus|
    ensures var r := StartCpu(s, i, cycles, cont);
            && Occupies(s, r, i, cont.id)
            && Schedules(s, r, CpuDone(i, cycles / s.cpus[i].freq, cont))
            && r.waiting == s.waiting && SameHistory(s, r)
            && r.ram == s.ram && r.owners == s.owners
            && r.queueLength == s.queueLength && r.requestCount == s.requestCount
  {
    hide SwapRemove;
  }

  lemma EnqueueFacts(s: State, cycles: Amount, cont: Cont)
    ensures var r := Enqueue(s, cycles, cont);
            && r.waiting == s.waiting + [Waiter(cycles, cont)]
            && r.cpus == s.cpus && r.available == s.available && r.started == s.started
            && SameEvents(s, r) && SameHistory(s, r)
            && r.ram == s.ram && r.owners == s.owners
            && r.queueLength == s.queueLength && r.requestCount == s.requestCount
  {
  }

  /** An admitted compute that finds a free CPU starts on the first one, for its cycles at the speed of that CPU. */
  lemma ComputeIsStarted(s: State, cycles: Amount, bytes: Amount, client: Client)
    requires Settled(s) && s.queueLength < s.limit && s.ram.utilized + bytes <= s.ram.capacity
    requires s.available != []
    ensures var r, outer := ReserveCompute(s, cycles, bytes, client), ComputeOuter(client, cycles, bytes);
            var i, id := s.available[0], s.ram.nextId;
            && Enters(s, r, outer)
            && Occupies(s, r, i, id)
            && Schedules(s, r, CpuDone(i, cycles / s.cpus[i].freq, RamWrap(id, outer)))
            && r.waiting == s.waiting
  {
    var outer := ComputeOuter(client, cycles, bytes);
    var a, cont := Admit(Queued(Counted(s)), bytes, outer), RamWrap(s.ram.nextId, outer);
    ComputeFollows(s, cycles, bytes, client);
    EntersFacts(s, outer);
    hide Inv, Settled, Conserving, Owns, Newest, Later, Admit, Queued, Counted, ReserveCompute, PoolReserve, SwapRemove;
    hide StartCpu;
    StartFollows(a, cycles, cont);
    StartFacts(a, a.available[0], cycles, cont);
  }

  /** Without a free CPU it waits at the end of the queue, unless the pool is shutting down. */
  lemma ComputeIsQueued(s: State, cycles: Amount, bytes: Amount, client: Client)
    requires Settled(s) && s.queueLength < s.limit && s.ram.utilized + bytes <= s.ram.capacity
    requires s.available == [] && !s.finalized
    ensures var r, outer := ReserveCompute(s, cycles, bytes, client), ComputeOuter(client, cycles, bytes);
            && Enters(s, r, outer)
            && r.waiting == s.waiting + [Waiter(cycles, RamWrap(s.ram.nextId, outer))]
            && r.cpus == s.cpus && r.available == [] && r.started == s.started
            && SameEvents(s, r)
  {
    var outer := ComputeOuter(client, cycles, bytes);
    var a, cont := Admit(Queued(Counted(s)), bytes, outer), RamWrap(s.ram.nextId, outer);
    ComputeFollows(s, cycles, bytes, client);
    RoomToWait(s);
    EntersFacts(s, outer);
    hide Inv, Settled, Conserving, Owns, Newest, Later, Admit, Queued, Counted, ReserveCompute, PoolReserve, Enqueue;
    EnqueueFollows(a, cycles, cont);
    EnqueueFacts(a, cycles, cont);
  }

  lemma FailureFollows(s: State, cycles: Amount, cont: Cont)
    requires Inv(s, {cont.id}, {}, 1) && Conserving(s) && Serves(CpuInner(cycles), cont.outer)
    requires Owns(s.owners, cont) && Newest(s, cont.id) && s.available == [] && s.finalized
    ensures cont.id !in s.started && cont.outer.ComputeOuter?
    ensures PoolReserve(s, cycles, cont) == RunCont(s, cont, QueueFull)
  {
    hide Inv, Conserving, Owns, Settled, Later, StartCpu, RunCont, Enqueue;
  }

  /** In a pool that is shutting down it fails at once, if no CPU is free. */
  lemma ComputeFails(s: State, cycles: Amount, bytes: Amount, client: Client)
    requires Settled(s) && s.queueLength < s.limit && s.ram.utilized + bytes <= s.ram.capacity
    requires s.available == [] && s.finalized
    ensures var r, outer := ReserveCompute(s, cycles, bytes, client), ComputeOuter(client, cycles, bytes);
            && |r.completed| > |s.completed|
            && r.completed[|s.completed|] == Completion(s.ram.nextId, outer, R5XX)
            && Later(s, r, {})
  {
    var outer := ComputeOuter(client, cycles, bytes);
    var a, cont := Admit(Queued(Counted(s)), bytes, outer), RamWrap(s.ram.nextId, outer);
    ComputeFollows(s, cycles, bytes, client);
    EntersFacts(s, outer);
    hide Inv, Settled, Conserving, Owns, Newest, Later, Admit, Queued, Counted, ReserveCompute, PoolReserve;
    FailureFollows(a, cycles, cont);
  }

  // ----- The end of a compute -----

  lemma FreedFacts(s: State, k: nat)
    requires k in s.pending && s.pending[k].CpuDone? && s.pending[k].cpu < |s.cpus|
    ensures var r, i := FreeCpu(s, k), s.pending[k].cpu;
            && r.pending == s.pending - {k} && r.nextEvent == s.nextEvent
            && r.available == s.available + [i] && r.waiting == s.waiting && r.started == s.started
            && r.cpus == s.cpus[i := s.cpus[i].Completed(s.now, s.pending[k].duration)]
            && r.ram == s.ram && r.owners == s.owners && SameHistory(s, r)
            && r.queueLength == s.queueLength && r.requestCount == s.requestCount
  {
  }

  lemma ReleaseFollows(s: State, k: nat)
    requires Settled(s) && k in s.pending && s.pending[k].CpuDone?
    ensures s.pending[k].cpu < |s.cpus|
    ensures s.waiting == [] ==> Released(s, k) == FreeCpu(s, k)
    ensures s.waiting != [] ==>
              var f, i, w := FreeCpu(s, k), s.pending[k].cpu, s.waiting[0];
              && f.waiting == s.waiting && i < |f.cpus| && f.available == [i]
              && Released(s, k) == StartCpu(Dequeue(f), i, w.cycles, w.caller)
  {
    FreedCpu(s, k);
    FreedFacts(s, k);
    hide Inv, Settled, Conserving, Owns, Later, FreeCpu, StartCpu, RunCont, SameWorker;
  }

  lemma HandedFacts(f: State, i: nat)
    requires f.waiting != [] && f.available == [i] && i < |f.cpus|
    ensures var w, r := f.waiting[0], StartCpu(Dequeue(f), i, f.waiting[0].cycles, f.waiting[0].caller);
            && r.cpus == f.cpus[i := f.cpus[i].(lastReserved := f.now)] && r.available == []
            && r.waiting == f.waiting[1..] && r.started == f.started + [w.caller.id]
            && Schedules(f, r, CpuDone(i, w.cycles / f.cpus[i].freq, w.caller))
            && r.ram == f.ram && r.owners == f.owners && SameHistory(f, r)
            && r.queueLength == f.queueLength && r.requestCount == f.requestCount
  {
    assert SwapRemove([i], i) == [];
  }

  /** Nothing but the pool and the events has changed; the memory is not touched before the caller hears. */
  ghost predicate OnlyCpus(s: State, r: State) {
    && r.ram == s.ram && r.owners == s.owners && SameHistory(s, r)
    && r.queueLength == s.queueLength && r.requestCount == s.requestCount
  }

  /** CPU i with what its finished reservation has worked booked. */
  function Booked(s: State, k: nat, i: nat): Cpu.CpuState
    requires k in s.pending && s.pending[k].CpuDone? && i < |s.cpus|
  {
    s.cpus[i].Completed(s.now, s.pending[k].duration)
  }

  /** When a compute ends and nobody waits, its CPU goes back to the pool. */
  lemma CpuGoesBack(s: State, k: nat)
    requires Settled(s) && k in s.pending && s.pending[k].CpuDone? && s.waiting == []
    ensures s.pending[k].cpu < |s.cpus|
    ensures var r, i := Released(s, k), s.pending[k].cpu;
            && OnlyCpus(s, r)
            && r.cpus == s.cpus[i := Booked(s, k, i)] && r.available == s.available + [i]
            && r.waiting == [] && r.started == s.started
            && r.pending == s.pending - {k} && r.nextEvent == s.nextEvent
  {
    ReleaseFollows(s, k);
    FreedFacts(s, k);
    hide Inv, Settled, Released, FreeCpu, Cpu.CpuState.Completed, Conserving, Owns, SameWorker;
  }

  /** When others wait, it goes on to the first of them, for the cycles of that waiter. */
  lemma CpuIsHandedOn(s: State, k: nat)
    requires Settled(s) && k in s.pending && s.pending[k].CpuDone? && s.waiting != []
    ensures s.pending[k].cpu < |s.cpus|
    ensures var r, i, w := Released(s, k), s.pending[k].cpu, s.waiting[0];
            && OnlyCpus(s, r)
            && r.cpus == s.cpus[i := Booked(s, k, i).(lastReserved := s.now)] && r.available == []
            && r.waiting == s.waiting[1..] && r.started == s.started + [w.caller.id]
            && r.pending == (s.pending - {k})[s.nextEvent := CpuDone(i, w.cycles / s.cpus[i].freq, w.caller)]
            && r.nextEvent == s.nextEvent + 1
  {
    ReleaseFollows(s, k);
    FreedFacts(s, k);
    hide Inv, Settled, Released, FreeCpu, StartCpu, SwapRemove, Cpu.CpuState.Completed, Conserving, Owns, SameWorker;
    HandedFacts(FreeCpu(s, k), s.pending[k].cpu);
  }

  // ----- The caller's turn -----

  /** The call was admitted, if its bytes fit and, for a compute, the counter was below its limit; else refused. */
  ghost predicate Made(s: State, r: State, call: Call) {
    match call
    case Compute(cycles, bytes, client) =>
      if s.queueLength < s.limit && s.ram.utilized + bytes <= s.ram.capacity
      then s.owners + [ComputeOuter(client, cycles, bytes)] <= r.owners
      else s.refused + [client] <= r.refused
    case Disk(op, bytes, client) =>
      if s.ram.utilized + bytes <= s.ram.capacity
      then s.owners + [DiskOuter(client, op, bytes)] <= r.owners
      else s.refused + [client] <= r.refused
  }

  /** These calls were made, each on the worker as those before it have left it. */
  ghost predicate Heard(s: State, r: State, calls: seq<Call>)
    requires Settled(s)
  {
    && r == RunCalls(s, calls)
    && forall k | 0 <= k < |calls| :: Made(RunCalls(s, calls[..k]), r, calls[k])
  }

  lemma OneCallIsMade(s: State, call: Call, r: State)
    requires Settled(s) && Later(RunCall(s, call), r, {})
    ensures Made(s, r, call)
  {
    hide Settled, SameWorker;
  }

  lemma {:induction false} CallIsMade(s: State, calls: seq<Call>, k: nat)
    requires Settled(s) && k < |calls|
    ensures Made(RunCalls(s, calls[..k]), RunCalls(s, calls), calls[k])
    decreases calls
  {
    hide Settled, Later, Made, RunCall;
    var t := RunCall(s, calls[0]);
    if k == 0 {
      OneCallIsMade(s, calls[0], RunCalls(t, calls[1..]));
    } else {
      assert calls[..k][1..] == calls[1..][..k - 1];
      CallIsMade(t, calls[1..], k - 1);
    }
  }

  lemma CallsAreMade(s: State, calls: seq<Call>)
    requires Settled(s)
    ensures Heard(s, RunCalls(s, calls), calls)
  {
    hide Settled, RunCalls, Made;
    forall k | 0 <= k < |calls| ensures Made(RunCalls(s, calls[..k]), RunCalls(s, calls), calls[k]) {
      CallIsMade(s, calls, k);
    }
  }

  lemma InvokeIs(s: State, client: Client, response: Result)
    requires Settled(s)
    ensures Heard(s, Invoke(s, client, response), if response.IsError() then client.onError else client.onOk)
  {
    hide Settled, Later, RunCalls, Heard;
    CallsAreMade(s, if response.IsError() then client.onError else client.onOk);
  }

  /** The worker right after an operation has ended, when its caller is about to hear. */
  function Answered(s: State, cont: Cont, result: Result): State {
    s.(ram := s.ram.Release(s.now, cont.id),
       queueLength := s.queueLength - (if cont.outer.ComputeOuter? then 1 else 0),
       completed := s.completed + [Completion(cont.id, cont.outer, if result.IsError() then R5XX else R4XX)])
  }

  lemma AnsweredIs(s: State, cont: Cont, result: Result)
    ensures Answered(s, cont, result) == Answer(FreeRam(s, cont.id), cont.id, cont.outer, result)
  {
  }

  lemma EndFollows(s: State, cont: Cont, result: Result)
    requires Inv(s, {cont.id}, {}, cont.outer.Share()) && Conserving(s) && Owns(s.owners, cont)
    requires result.IsError() ==> s.finalized
    requires cont.outer.ComputeOuter? ==> (!result.IsError() <==> cont.id in s.started)
    ensures Settled(Answered(s, cont, result))
    ensures RunCont(s, cont, result) == Invoke(Answered(s, cont, result), cont.outer.client, result.Response())
  {
    FinishInv(s, cont, result);
    AnsweredIs(s, cont, result);
    hide Inv, Settled, Conserving, Owns, Later, Invoke, Answer, FreeRam, Answered;
  }

  lemma ResponseKeepsErrors(result: Result)
    ensures result.Response().IsError() <==> result.IsError()
    ensures R5XX.IsError()
  {
  }

  /** When an operation ends, its bytes are given back, it leaves the counter, and its caller's calls follow. */
  lemma CallerHears(s: State, cont: Cont, result: Result)
    requires Inv(s, {cont.id}, {}, cont.outer.Share()) && Conserving(s) && Owns(s.owners, cont)
    requires result.IsError() ==> s.finalized
    requires cont.outer.ComputeOuter? ==> (!result.IsError() <==> cont.id in s.started)
    ensures Settled(Answered(s, cont, result))
    ensures Heard(Answered(s, cont, result), RunCont(s, cont, result),
                  if result.IsError() then cont.outer.client.onError else cont.outer.client.onOk)
  {
    hide *;
    ResponseKeepsErrors(result);
    EndFollows(s, cont, result);
    InvokeIs(Answered(s, cont, result), cont.outer.client, result.Response());
  }

  lemma RefusedIs(s: State, client: Client)
    ensures Refused(s, client) == s.(refused := s.refused + [client])
    ensures Refused(Counted(s), client) == s.(requestCount := s.requestCount + 1, refused := s.refused + [client])
  {
  }

  lemma RefusalFollows(s: State, cycles: Amount, bytes: Amount, client: Client)
    requires Settled(s) && !(s.queueLength < s.limit && s.ram.utilized + bytes <= s.ram.capacity)
    ensures Settled(Refused(Counted(s), client))
    ensures ReserveCompute(s, cycles, bytes, client) == Invoke(Refused(Counted(s), client), client, R5XX)
  {
    CountedInv(s);
    RefusedInv(Counted(s), client);
    hide Inv, Settled, Conserving, Later, Invoke, ReservePending, Refused, Counted, Queued;
  }

  /** A compute that is refused at the door is counted, and its caller's calls for an error follow at once. */
  lemma RefusedComputeHears(s: State, cycles: Amount, bytes: Amount, client: Client)
    requires Settled(s) && !(s.queueLength < s.limit && s.ram.utilized + bytes <= s.ram.capacity)
    ensures var turned := s.(requestCount := s.requestCount + 1, refused := s.refused + [client]);
            Settled(turned) && Heard(turned, ReserveCompute(s, cycles, bytes, client), client.onError)
  {
    hide *;
    ResponseKeepsErrors(R5XX);
    RefusalFollows(s, cycles, bytes, client);
    RefusedIs(s, client);
    InvokeIs(Refused(Counted(s), client), client, R5XX);
  }

  lemma DiskRefusalFollows(s: State, op: DiskOp, bytes: Amount, client: Client)
    requires Settled(s) && !(s.ram.utilized + bytes <= s.ram.capacity)
    ensures Settled(Refused(s, client))
    ensures ReserveDisk(s, op, bytes, client) == Invoke(Refused(s, client), client, R5XX)
  {
    RefusedInv(s, client);
    hide Inv, Settled, Conserving, Later, Invoke, ReservePending, Refused;
  }

  lemma RefusedDiskHears(s: State, op: DiskOp, bytes: Amount, client: Client)
    requires Settled(s) && !(s.ram.utilized + bytes <= s.ram.capacity)
    ensures var turned := s.(refused := s.refused + [client]);
            Settled(turned) && Heard(turned, ReserveDisk(s, op, bytes, client), client.onError)
  {
    hide *;
    ResponseKeepsErrors(R5XX);
    DiskRefusalFollows(s, op, bytes, client);
    RefusedIs(s, client);
    InvokeIs(Refused(s, client), client, R5XX);
  }
}
