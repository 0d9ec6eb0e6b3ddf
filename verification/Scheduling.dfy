/**
 Admission and scheduling on one worker: the request queue counter, the CPU pool with its wait queue, the RAM
 ledger that wraps every operation, and the continuations that tie them together.

 A continuation is a value that says which callbacks run, in which order, when an operation completes. What the
 caller does in its own callback is a finite tree of further calls on this worker: any finite run makes some
 finite list of calls in each callback, so a statement about all trees is a statement about all callers,
 including those that call the worker again from inside one of its own callbacks.
 */
module Scheduling {
  import opened Basics
  import opened DynArrays
  import Ram = RamLedger
  import Cpu = CpuAccounting

  type Amount = r: real | 0.0 <= r

  datatype DiskOp = Read | Write

  /** What a caller does on each response: the calls it makes on this worker. */
  datatype Client = Client(onOk: seq<Call>, onError: seq<Call>)

  datatype Call =
    | Compute(cycles: Amount, bytes: Amount, client: Client)
    | Disk(op: DiskOp, bytes: Amount, client: Client)

  /** The worker's own callback around a caller, with what it asked for: end of a compute, or of a disk operation. */
  datatype Outer =
    | ComputeOuter(client: Client, cycles: Amount, bytes: Amount)
    | DiskOuter(client: Client, op: DiskOp, bytes: Amount)
  {
    /** How much of the queue counter this operation holds. */
    function Share(): nat {
      if ComputeOuter? then 1 else 0
    }
  }

  /** The RAM wrapper: gives the reservation back, then runs the worker's callback. */
  datatype Cont = RamWrap(id: nat, outer: Outer)

  /** What the RAM wrapper launches. */
  datatype Inner =
    | CpuInner(cycles: Amount)
    | DiskInner(op: DiskOp, bytes: Amount)

  /** The inner operation is the one that was asked for. */
  predicate Serves(inner: Inner, outer: Outer) {
    match outer
    case ComputeOuter(_, cycles, _) => inner == CpuInner(cycles)
    case DiskOuter(_, op, bytes) => inner == DiskInner(op, bytes)
  }

  datatype Event =
    | CpuDone(cpu: nat, duration: real, caller: Cont)
    | DiskDone(op: DiskOp, bytes: Amount, caller: Cont)

  datatype Waiter = Waiter(cycles: Amount, caller: Cont)

  datatype Completion = Completion(id: nat, outer: Outer, response: Result)

  /**
   The worker. `pending` are its events in the clock's queue, by sequence number. The last five fields are
   history: who asked for reservation number i, which computes started in which order, which operations were
   answered and how, whose calls were refused at the door, and how many the RAM wrapper refused.
   */
  datatype State = State(
    now: real,
    nextEvent: nat,
    pending: map<nat, Event>,
    cpus: seq<Cpu.CpuState>,
    available: seq<nat>,
    waiting: seq<Waiter>,
    finalized: bool,
    spinningDown: bool,
    ram: Ram.RamState,
    queueLength: int,
    limit: nat,
    requestCount: nat,
    owners: seq<Outer>,
    started: seq<nat>,
    completed: seq<Completion>,
    refused: seq<Client>,
    ramRefused: nat)

  // ----- The parts of the invariant -----

  ghost function EventIds(pending: map<nat, Event>): set<nat> {
    set k | k in pending :: pending[k].caller.id
  }

  ghost function CpusAtWork(pending: map<nat, Event>): set<nat> {
    set k | k in pending && pending[k].CpuDone? :: pending[k].cpu
  }

  ghost function WaiterIds(waiting: seq<Waiter>): set<nat> {
    set w | w in waiting :: w.caller.id
  }

  ghost function CompletedIds(completed: seq<Completion>): set<nat> {
    set c | c in completed :: c.id
  }

  /** Every CPU is either available or at work, never both. */
  ghost predicate PoolOk(now: real, cpus: seq<Cpu.CpuState>, available: seq<nat>) {
    && 0.0 <= now
    && |cpus| > 0
    && Distinct(available)
    && (forall i | i in available :: i < |cpus|)
    && (forall i | 0 <= i < |cpus| :: i in available <==> !cpus[i].Busy())
    && (forall i | 0 <= i < |cpus| :: cpus[i].enabled && cpus[i].lastReserved <= now)
  }

  /** A CPU is at work exactly when one pending event will free it; events belong to distinct operations. */
  ghost predicate EventsOk(pending: map<nat, Event>, nextEvent: nat, cpus: seq<Cpu.CpuState>) {
    && (forall k | k in pending :: k < nextEvent)
    && (forall k | k in pending :: pending[k].CpuDone? <==> pending[k].caller.outer.ComputeOuter?)
    && (forall i | i in CpusAtWork(pending) :: i < |cpus|)
    && (forall i | 0 <= i < |cpus| :: i in CpusAtWork(pending) <==> cpus[i].Busy())
    && DistinctEvents(pending)
  }

  ghost predicate DistinctEvents(pending: map<nat, Event>) {
    forall j, k | j in pending && k in pending && j != k ::
      && pending[j].caller.id != pending[k].caller.id
      && (pending[j].CpuDone? && pending[k].CpuDone? ==> pending[j].cpu != pending[k].cpu)
  }

  /** The counter is the busy CPUs, the waiters, and `share` for an operation being handled right now. */
  ghost predicate QueueOk(queueLength: int, limit: nat, busy: int, waiting: seq<Waiter>, share: nat) {
    && queueLength == busy + |waiting| + share
    && queueLength <= limit
    && (forall w | w in waiting :: w.caller.outer.ComputeOuter?)
  }

  /** One live reservation for each pending event, each waiter, and the operation in transit. */
  ghost predicate LedgerOk(ram: Ram.RamState, now: real, events: set<nat>, waiters: set<nat>, transit: set<nat>) {
    && ram.Sound(now)
    && Ram.Ids(ram.ongoing) == events + waiters + transit
    && events !! waiters
    && transit !! (events + waiters)
  }

  /** Computes start in the order of their reservations, and waiters are behind everything started. */
  ghost predicate FifoOk(started: seq<nat>, waiting: seq<Waiter>, pending: map<nat, Event>, nextId: nat) {
    && (forall i, j | 0 <= i < j < |started| :: started[i] < started[j])
    && (forall i, j | 0 <= i < j < |waiting| :: waiting[i].caller.id < waiting[j].caller.id)
    && (forall id, w | id in started && w in waiting :: id < w.caller.id)
    && (forall id | id in started :: id < nextId)
    && (forall w | w in waiting :: w.caller.id < nextId)
    && (forall k | k in pending && pending[k].CpuDone? :: pending[k].caller.id in started)
  }

  ghost predicate Owns(owners: seq<Outer>, cont: Cont) {
    cont.id < |owners| && owners[cont.id] == cont.outer
  }

  /** What is in flight will answer the caller that asked for it. */
  ghost predicate OwnersOk(owners: seq<Outer>, pending: map<nat, Event>, waiting: seq<Waiter>) {
    && (forall k | k in pending :: Owns(owners, pending[k].caller))
    && (forall w | w in waiting :: Owns(owners, w.caller))
  }

  /** Each reservation ever made is live, released but not yet answered, or answered exactly once to its owner. */
  ghost predicate HistoryOk(owners: seq<Outer>, completed: seq<Completion>, live: set<nat>, released: set<nat>) {
    && (forall c | c in completed :: Owns(owners, RamWrap(c.id, c.outer)))
    && (forall i, j | 0 <= i < j < |completed| :: completed[i].id != completed[j].id)
    && CompletedIds(completed) !! live
    && released !! (CompletedIds(completed) + live)
    && (forall id: nat | id < |owners| :: id in CompletedIds(completed) + live + released)
  }

  /** Nothing fails before shut-down, and a compute succeeds exactly if it got its CPU. */
  ghost predicate OutcomesOk(completed: seq<Completion>, started: seq<nat>, finalized: bool) {
    && (forall c | c in completed :: c.response == R4XX || (finalized && c.response == R5XX))
    && (forall c | c in completed && c.outer.ComputeOuter? :: c.response == R4XX <==> c.id in started)
  }

  /** Each live reservation holds the bytes that were asked for. */
  ghost predicate SizesOk(ongoing: seq<Ram.Reservation>, owners: seq<Outer>) {
    forall r | r in ongoing :: r.id < |owners| && r.bytes == owners[r.id].bytes
  }

  /** Disk operations in flight and waiting computes are the ones that were asked for. */
  ghost predicate WorkOk(pending: map<nat, Event>, waiting: seq<Waiter>) {
    && (forall k | k in pending && pending[k].DiskDone? ::
          Serves(DiskInner(pending[k].op, pending[k].bytes), pending[k].caller.outer))
    && (forall w | w in waiting :: Serves(CpuInner(w.cycles), w.caller.outer))
  }

  ghost predicate Inv(s: State, transit: set<nat>, released: set<nat>, share: nat) {
    && PoolOk(s.now, s.cpus, s.available)
    && EventsOk(s.pending, s.nextEvent, s.cpus)
    && QueueOk(s.queueLength, s.limit, |s.cpus| - |s.available|, s.waiting, share)
    && LedgerOk(s.ram, s.now, EventIds(s.pending), WaiterIds(s.waiting), transit)
    && FifoOk(s.started, s.waiting, s.pending, s.ram.nextId)
    && |s.owners| == s.ram.nextId
    && OwnersOk(s.owners, s.pending, s.waiting)
    && HistoryOk(s.owners, s.completed, Ram.Ids(s.ram.ongoing), released)
    && OutcomesOk(s.completed, s.started, s.finalized)
    && SizesOk(s.ram.ongoing, s.owners)
    && WorkOk(s.pending, s.waiting)
  }

  /** Work conservation: nobody waits while a CPU is free. */
  ghost predicate Conserving(s: State) {
    s.waiting != [] ==> s.available == []
  }

  /** The invariant between events. */
  ghost predicate Settled(s: State) {
    Inv(s, {}, {}, 0) && Conserving(s)
  }

  // ----- The elementary state changes, and what each does to the invariant -----

  function Counted(s: State): State {
    s.(requestCount := s.requestCount + 1)
  }

  function Queued(s: State): State {
    s.(queueLength := s.queueLength + 1)
  }

  function Refused(s: State, client: Client): State {
    s.(refused := s.refused + [client])
  }

  function Withdrawn(s: State, outer: Outer): State {
    s.(queueLength := s.queueLength - outer.Share(), ramRefused := s.ramRefused + 1)
  }

  function Finalized(s: State): State {
    s.(spinningDown := true, finalized := true)
  }

  function Admit(s: State, bytes: Amount, outer: Outer): State {
    s.(ram := s.ram.Reserve(s.now, bytes), owners := s.owners + [outer])
  }

  function LaunchDisk(s: State, op: DiskOp, bytes: Amount, cont: Cont): State {
    s.(pending := s.pending[s.nextEvent := DiskDone(op, bytes, cont)], nextEvent := s.nextEvent + 1)
  }

  function StartCpu(s: State, i: nat, cycles: Amount, cont: Cont): State
    requires i < |s.cpus|
  {
    var duration := cycles / s.cpus[i].freq;
    s.(cpus := s.cpus[i := s.cpus[i].Reserved(s.now)],
       available := SwapRemove(s.available, i),
       pending := s.pending[s.nextEvent := CpuDone(i, duration, cont)],
       nextEvent := s.nextEvent + 1,
       started := s.started + [cont.id])
  }

  function Enqueue(s: State, cycles: Amount, cont: Cont): State {
    s.(waiting := s.waiting + [Waiter(cycles, cont)])
  }

  function Dequeue(s: State): State
    requires s.waiting != []
  {
    s.(waiting := s.waiting[1..])
  }

  function FreeRam(s: State, id: nat): State {
    s.(ram := s.ram.Release(s.now, id))
  }

  function Answer(s: State, id: nat, outer: Outer, result: Result): State {
    s.(queueLength := s.queueLength - outer.Share(),
       completed := s.completed + [Completion(id, outer, result.Response())])
  }

  /** The event of a finished CPU fires: the CPU goes back to the available ones. */
  function FreeCpu(s: State, k: nat): State
    requires k in s.pending && s.pending[k].CpuDone? && s.pending[k].cpu < |s.cpus|
  {
    var i := s.pending[k].cpu;
    s.(pending := s.pending - {k},
       available := s.available + [i],
       cpus := s.cpus[i := s.cpus[i].Completed(s.now, s.pending[k].duration)])
  }

  function DropEvent(s: State, k: nat): State {
    s.(pending := s.pending - {k})
  }

  lemma EventIdsOfAdd(pending: map<nat, Event>, k: nat, e: Event)
    requires k !in pending
    ensures EventIds(pending[k := e]) == EventIds(pending) + {e.caller.id}
    ensures CpusAtWork(pending[k := e]) == CpusAtWork(pending) + if e.CpuDone? then {e.cpu} else {}
  {
    var after := pending[k := e];
    forall id ensures id in EventIds(after) <==> id in EventIds(pending) + {e.caller.id} {
      if id in EventIds(pending) {
        var j :| j in pending && pending[j].caller.id == id;
        assert after[j].caller.id == id;
      }
      assert after[k].caller.id == e.caller.id;
    }
    forall i ensures i in CpusAtWork(after) <==> i in CpusAtWork(pending) + if e.CpuDone? then {e.cpu} else {} {
      if i in CpusAtWork(pending) {
        var j :| j in pending && pending[j].CpuDone? && pending[j].cpu == i;
        assert after[j].cpu == i;
      }
      assert after[k] == e;
    }
  }

  lemma EventIdsOfDrop(pending: map<nat, Event>, k: nat)
    requires DistinctEvents(pending) && k in pending
    ensures EventIds(pending - {k}) == EventIds(pending) - {pending[k].caller.id}
    ensures CpusAtWork(pending - {k}) == CpusAtWork(pending) - if pending[k].CpuDone? then {pending[k].cpu} else {}
  {
    var after := pending - {k};
    forall id | id in EventIds(pending) && id != pending[k].caller.id ensures id in EventIds(after) {
      var j :| j in pending && pending[j].caller.id == id;
      assert j in after && after[j] == pending[j];
    }
    var gone := if pending[k].CpuDone? then {pending[k].cpu} else {};
    forall i | i in CpusAtWork(pending) && i !in gone ensures i in CpusAtWork(after) {
      var j :| j in pending && pending[j].CpuDone? && pending[j].cpu == i;
      assert j in after && after[j] == pending[j];
    }
  }

  /** The id is behind everything started and everything waiting. */
  ghost predicate Newest(s: State, id: nat) {
    && (forall i | i in s.started :: i < id)
    && (forall w | w in s.waiting :: w.caller.id < id)
  }

  lemma HistoryGrows(owners: seq<Outer>, outer: Outer, completed: seq<Completion>, live: set<nat>)
    requires HistoryOk(owners, completed, live, {}) && |owners| !in live
    ensures HistoryOk(owners + [outer], completed, live + {|owners|}, {})
  {
    forall id: nat | id < |owners| + 1 ensures id in CompletedIds(completed) + (live + {|owners|}) + {} {
      assert id < |owners| ==> id in CompletedIds(completed) + live + {};
    }
  }

  lemma LedgerAdmits(ram: Ram.RamState, now: real, bytes: Amount, events: set<nat>, waiters: set<nat>)
    requires LedgerOk(ram, now, events, waiters, {}) && bytes <= ram.Available()
    ensures LedgerOk(ram.Reserve(now, bytes), now, events, waiters, {ram.nextId})
    ensures Ram.Ids(ram.Reserve(now, bytes).ongoing) == Ram.Ids(ram.ongoing) + {ram.nextId}
    ensures ram.nextId !in Ram.Ids(ram.ongoing)
  {
    Ram.ReserveSound(ram, now, bytes);
    assert ram.nextId !in Ram.Ids(ram.ongoing);
    hide Ram.RamState.Sound;
  }

  lemma DistinctAdd(pending: map<nat, Event>, k: nat, e: Event)
    requires DistinctEvents(pending) && k !in pending && e.caller.id !in EventIds(pending)
    requires e.CpuDone? ==> e.cpu !in CpusAtWork(pending)
    ensures DistinctEvents(pending[k := e])
  {
    assert forall j | j in pending && pending[j].CpuDone? :: pending[j].cpu in CpusAtWork(pending);
    assert forall j | j in pending :: pending[j].caller.id in EventIds(pending);
  }

  lemma SizesGrow(ram: Ram.RamState, now: real, owners: seq<Outer>, outer: Outer)
    requires SizesOk(ram.ongoing, owners) && |owners| == ram.nextId
    ensures SizesOk(ram.Reserve(now, outer.bytes).ongoing, owners + [outer])
  {
  }

  lemma AdmitInv(s: State, bytes: Amount, outer: Outer, share: nat)
    requires Inv(s, {}, {}, share) && bytes <= s.ram.Available() && bytes == outer.bytes
    ensures Inv(Admit(s, bytes, outer), {s.ram.nextId}, {}, share)
    ensures Newest(Admit(s, bytes, outer), s.ram.nextId)
  {
    hide PoolOk, EventsOk, QueueOk, HistoryOk, OutcomesOk, LedgerOk, SizesOk, WorkOk, Ram.RamState.Sound;
    LedgerAdmits(s.ram, s.now, bytes, EventIds(s.pending), WaiterIds(s.waiting));
    SizesGrow(s.ram, s.now, s.owners, outer);
    HistoryGrows(s.owners, outer, s.completed, Ram.Ids(s.ram.ongoing));
  }

  lemma EventsLaunchDisk(pending: map<nat, Event>, next: nat, cpus: seq<Cpu.CpuState>, e: Event)
    requires EventsOk(pending, next, cpus) && e.DiskDone?
    requires e.caller.outer.DiskOuter? && e.caller.id !in EventIds(pending)
    ensures EventsOk(pending[next := e], next + 1, cpus)
    ensures EventIds(pending[next := e]) == EventIds(pending) + {e.caller.id}
  {
    EventIdsOfAdd(pending, next, e);
    DistinctAdd(pending, next, e);
    hide DistinctEvents, CpusAtWork, EventIds;
  }

  lemma LaunchDiskInv(s: State, op: DiskOp, bytes: Amount, cont: Cont)
    requires Inv(s, {cont.id}, {}, 0) && Serves(DiskInner(op, bytes), cont.outer) && Owns(s.owners, cont)
    ensures Inv(LaunchDisk(s, op, bytes, cont), {}, {}, 0)
  {
    EventsLaunchDisk(s.pending, s.nextEvent, s.cpus, DiskDone(op, bytes, cont));
    hide PoolOk, EventsOk, QueueOk, HistoryOk, OutcomesOk, Ram.RamState.Sound;
  }

  lemma EnqueueInv(s: State, cycles: Amount, cont: Cont)
    requires Inv(s, {cont.id}, {}, 1) && Serves(CpuInner(cycles), cont.outer)
    requires Owns(s.owners, cont) && Newest(s, cont.id)
    ensures Inv(Enqueue(s, cycles, cont), {}, {}, 0)
  {
    var after := s.waiting + [Waiter(cycles, cont)];
    assert WaiterIds(after) == WaiterIds(s.waiting) + {cont.id} by {
      assert after[|s.waiting|].caller.id == cont.id;
      assert forall w | w in s.waiting :: w in after;
    }
    hide PoolOk, EventsOk, HistoryOk, OutcomesOk;
  }

  lemma PoolStarts(now: real, cpus: seq<Cpu.CpuState>, available: seq<nat>, i: nat)
    requires PoolOk(now, cpus, available) && i in available
    ensures PoolOk(now, cpus[i := cpus[i].Reserved(now)], SwapRemove(available, i))
    ensures |SwapRemove(available, i)| == |available| - 1
  {
    SwapRemoveDistinct(available, i);
  }

  lemma EventsStart(pending: map<nat, Event>, next: nat, cpus: seq<Cpu.CpuState>, e: Event, now: real)
    requires EventsOk(pending, next, cpus) && 0.0 <= now
    requires e.CpuDone? && e.cpu < |cpus| && !cpus[e.cpu].Busy()
    requires e.caller.outer.ComputeOuter? && e.caller.id !in EventIds(pending)
    ensures EventsOk(pending[next := e], next + 1, cpus[e.cpu := cpus[e.cpu].Reserved(now)])
    ensures EventIds(pending[next := e]) == EventIds(pending) + {e.caller.id}
  {
    EventIdsOfAdd(pending, next, e);
    DistinctAdd(pending, next, e);
    hide DistinctEvents, CpusAtWork, EventIds;
  }

  /** The operation may start next: behind everything started, ahead of everything waiting. */
  ghost predicate NextInLine(s: State, id: nat) {
    && (forall i | i in s.started :: i < id)
    && (forall w | w in s.waiting :: id < w.caller.id)
  }

  lemma OutcomesStart(completed: seq<Completion>, started: seq<nat>, finalized: bool, id: nat)
    requires OutcomesOk(completed, started, finalized) && id !in CompletedIds(completed)
    ensures OutcomesOk(completed, started + [id], finalized)
  {
  }

  lemma FifoStarts(s: State, e: Event)
    requires FifoOk(s.started, s.waiting, s.pending, s.ram.nextId) && NextInLine(s, e.caller.id)
    requires e.caller.id < s.ram.nextId
    ensures FifoOk(s.started + [e.caller.id], s.waiting, s.pending[s.nextEvent := e], s.ram.nextId)
  {
    assert forall i | 0 <= i < |s.started| :: s.started[i] in s.started;
    assert (s.started + [e.caller.id])[|s.started|] == e.caller.id;
  }

  lemma LedgerLaunches(ram: Ram.RamState, now: real, events: set<nat>, waiters: set<nat>, transit: set<nat>, id: nat)
    requires LedgerOk(ram, now, events, waiters, transit) && id in transit
    ensures LedgerOk(ram, now, events + {id}, waiters, transit - {id})
  {
    hide Ram.RamState.Sound;
  }

  lemma OwnersStart(owners: seq<Outer>, pending: map<nat, Event>, k: nat, e: Event, waiting: seq<Waiter>)
    requires OwnersOk(owners, pending, waiting) && Owns(owners, e.caller)
    ensures OwnersOk(owners, pending[k := e], waiting)
  {
  }

  lemma StartCpuInv(s: State, transit: set<nat>, share: nat, i: nat, cycles: Amount, cont: Cont)
    requires Inv(s, transit, {}, share + 1) && i in s.available && i < |s.cpus|
    requires cont.id in transit && cont.outer.ComputeOuter? && Owns(s.owners, cont) && NextInLine(s, cont.id)
    ensures Inv(StartCpu(s, i, cycles, cont), transit - {cont.id}, {}, share)
  {
    var e := CpuDone(i, cycles / s.cpus[i].freq, cont);
    PoolStarts(s.now, s.cpus, s.available, i);
    EventsStart(s.pending, s.nextEvent, s.cpus, e, s.now);
    OutcomesStart(s.completed, s.started, s.finalized, cont.id);
    FifoStarts(s, e);
    LedgerLaunches(s.ram, s.now, EventIds(s.pending), WaiterIds(s.waiting), transit, cont.id);
    OwnersStart(s.owners, s.pending, s.nextEvent, e, s.waiting);
    hide PoolOk, EventsOk, FifoOk, HistoryOk, OutcomesOk, LedgerOk, OwnersOk, NextInLine;
  }

  lemma HistoryReleases(owners: seq<Outer>, completed: seq<Completion>, live: set<nat>, id: nat)
    requires HistoryOk(owners, completed, live, {}) && id in live
    ensures HistoryOk(owners, completed, live - {id}, {id})
  {
    forall j: nat | j < |owners| ensures j in CompletedIds(completed) + (live - {id}) + {id} {
      assert j in CompletedIds(completed) + live + {};
    }
  }

  lemma SizesShrink(ram: Ram.RamState, now: real, id: nat, owners: seq<Outer>)
    requires SizesOk(ram.ongoing, owners) && Ram.DistinctIds(ram.ongoing)
    ensures SizesOk(ram.Release(now, id).ongoing, owners)
  {
    Ram.ReleaseTakesOut(ram, now, id);
  }

  lemma FreeRamInv(s: State, id: nat, share: nat)
    requires Inv(s, {id}, {}, share)
    ensures Inv(FreeRam(s, id), {}, {id}, share)
  {
    Ram.ReleaseSound(s.ram, s.now, id);
    SizesShrink(s.ram, s.now, id, s.owners);
    HistoryReleases(s.owners, s.completed, Ram.Ids(s.ram.ongoing), id);
    hide PoolOk, EventsOk, QueueOk, OwnersOk, OutcomesOk, FifoOk, HistoryOk, Ram.RamState.Sound;
  }

  lemma HistoryAnswers(owners: seq<Outer>, completed: seq<Completion>, live: set<nat>, c: Completion)
    requires HistoryOk(owners, completed, live, {c.id}) && Owns(owners, RamWrap(c.id, c.outer))
    ensures HistoryOk(owners, completed + [c], live, {})
  {
    assert forall d | d in completed :: d.id in CompletedIds(completed);
    assert CompletedIds(completed + [c]) == CompletedIds(completed) + {c.id} by {
      assert (completed + [c])[|completed|] == c;
      assert forall d | d in completed :: d in completed + [c];
    }
    forall j: nat | j < |owners| ensures j in CompletedIds(completed + [c]) + live + {} {
      assert j in CompletedIds(completed) + live + {c.id};
    }
  }

  lemma AnswerInv(s: State, id: nat, outer: Outer, result: Result)
    requires Inv(s, {}, {id}, outer.Share()) && Owns(s.owners, RamWrap(id, outer))
    requires result.IsError() ==> s.finalized
    requires outer.ComputeOuter? ==> (!result.IsError() <==> id in s.started)
    ensures Inv(Answer(s, id, outer, result), {}, {}, 0)
  {
    HistoryAnswers(s.owners, s.completed, Ram.Ids(s.ram.ongoing), Completion(id, outer, result.Response()));
    hide PoolOk, EventsOk, OwnersOk, LedgerOk, FifoOk, HistoryOk;
  }

  lemma PoolFrees(now: real, cpus: seq<Cpu.CpuState>, available: seq<nat>, i: nat, duration: real)
    requires PoolOk(now, cpus, available) && i < |cpus| && cpus[i].Busy()
    ensures PoolOk(now, cpus[i := cpus[i].Completed(now, duration)], available + [i])
  {
    assert (available + [i])[|available|] == i;
  }

  lemma EventsFree(pending: map<nat, Event>, next: nat, cpus: seq<Cpu.CpuState>, k: nat, now: real)
    requires EventsOk(pending, next, cpus) && k in pending && pending[k].CpuDone? && pending[k].cpu < |cpus|
    ensures var i := pending[k].cpu;
            EventsOk(pending - {k}, next, cpus[i := cpus[i].Completed(now, pending[k].duration)])
    ensures EventIds(pending - {k}) == EventIds(pending) - {pending[k].caller.id}
  {
    EventIdsOfDrop(pending, k);
  }

  lemma FreeCpuInv(s: State, k: nat)
    requires Inv(s, {}, {}, 0) && k in s.pending && s.pending[k].CpuDone? && s.pending[k].cpu < |s.cpus|
    ensures Inv(FreeCpu(s, k), {s.pending[k].caller.id}, {}, 1)
  {
    var i := s.pending[k].cpu;
    assert i in CpusAtWork(s.pending);
    PoolFrees(s.now, s.cpus, s.available, i, s.pending[k].duration);
    EventsFree(s.pending, s.nextEvent, s.cpus, k, s.now);
    hide PoolOk, EventsOk, HistoryOk, OutcomesOk, Ram.RamState.Sound;
  }

  lemma DropEventInv(s: State, k: nat)
    requires Inv(s, {}, {}, 0) && k in s.pending && s.pending[k].DiskDone?
    ensures Inv(DropEvent(s, k), {s.pending[k].caller.id}, {}, 0)
  {
    EventIdsOfDrop(s.pending, k);
    hide PoolOk, QueueOk, HistoryOk, OutcomesOk, Ram.RamState.Sound;
  }

  /** The first waiter is before all others. */
  lemma FirstWaiter(waiting: seq<Waiter>)
    requires waiting != []
    requires forall i, j | 0 <= i < j < |waiting| :: waiting[i].caller.id < waiting[j].caller.id
    ensures WaiterIds(waiting) == WaiterIds(waiting[1..]) + {waiting[0].caller.id}
    ensures forall w | w in waiting[1..] :: w in waiting && waiting[0].caller.id < w.caller.id
  {
    assert waiting == [waiting[0]] + waiting[1..];
  }

  lemma LedgerDequeues(ram: Ram.RamState, now: real, events: set<nat>, waiting: seq<Waiter>, transit: set<nat>)
    requires LedgerOk(ram, now, events, WaiterIds(waiting), transit) && waiting != []
    requires forall i, j | 0 <= i < j < |waiting| :: waiting[i].caller.id < waiting[j].caller.id
    ensures LedgerOk(ram, now, events, WaiterIds(waiting[1..]), transit + {waiting[0].caller.id})
    ensures waiting[0].caller.id !in transit
  {
    hide Ram.RamState.Sound;
    FirstWaiter(waiting);
  }

  lemma FifoDequeues(started: seq<nat>, waiting: seq<Waiter>, pending: map<nat, Event>, nextId: nat)
    requires FifoOk(started, waiting, pending, nextId) && waiting != []
    ensures FifoOk(started, waiting[1..], pending, nextId)
    ensures forall i, j | 0 <= i < j < |waiting| :: waiting[i].caller.id < waiting[j].caller.id
    ensures forall i | i in started :: i < waiting[0].caller.id
    ensures forall w | w in waiting[1..] :: waiting[0].caller.id < w.caller.id
  {
    FirstWaiter(waiting);
    hide WaiterIds;
  }

  lemma DequeueInv(s: State, transit: set<nat>, share: nat)
    requires Inv(s, transit, {}, share) && s.waiting != []
    ensures Inv(Dequeue(s), transit + {s.waiting[0].caller.id}, {}, share + 1)
    ensures s.waiting[0].caller.id !in transit
    ensures NextInLine(Dequeue(s), s.waiting[0].caller.id)
    ensures s.waiting[0].caller.outer.ComputeOuter? && Owns(s.owners, s.waiting[0].caller)
  {
    hide PoolOk, EventsOk, LedgerOk, FifoOk, HistoryOk, OutcomesOk, WaiterIds;
    FifoDequeues(s.started, s.waiting, s.pending, s.ram.nextId);
    LedgerDequeues(s.ram, s.now, EventIds(s.pending), s.waiting, transit);
    assert s.waiting[0] in s.waiting && forall w | w in s.waiting[1..] :: w in s.waiting;
  }

  // ----- The operations -----

  /**
   What one call leaves alone, callbacks and all: it takes nothing from the wait queue and frees no CPU, once
   the queue is finalized it does not touch it, and it answers only operations that it began itself, or `own`.
   */
  ghost predicate Later(s: State, r: State, own: set<nat>) {
    && SameWorker(s, r)
    && r.now == s.now
    && r.finalized == s.finalized
    && s.ram.nextId <= r.ram.nextId
    && (s.finalized ==> r.waiting == s.waiting)
    && (s.available == [] ==> r.available == [])
    && s.owners <= r.owners
    && s.refused <= r.refused
    && s.completed <= r.completed
    && (forall i | |s.completed| <= i < |r.completed| ::
          s.ram.nextId <= r.completed[i].id || r.completed[i].id in own)
  }

  /** The same pool, limit and memory, and no refusal by the RAM wrapper in between. */
  ghost predicate SameWorker(s: State, r: State) {
    && |r.cpus| == |s.cpus|
    && r.limit == s.limit
    && r.ram.capacity == s.ram.capacity
    && r.ramRefused == s.ramRefused
  }

  lemma LaterTransitive(s: State, t: State, r: State, own: set<nat>)
    requires Later(s, t, own) && Later(t, r, {})
    ensures Later(s, r, own)
  {
    assert forall i | |s.completed| <= i < |t.completed| :: r.completed[i] == t.completed[i];
  }

  lemma FirstAvailable(s: State)
    requires PoolOk(s.now, s.cpus, s.available) && s.available != []
    ensures s.available[0] in s.available && s.available[0] < |s.cpus|
    ensures s.cpus[s.available[0]].enabled && !s.cpus[s.available[0]].Busy()
  {
    assert s.available[0] in s.available;
  }

  lemma FinishInv(s: State, cont: Cont, result: Result)
    requires Inv(s, {cont.id}, {}, cont.outer.Share()) && Conserving(s) && Owns(s.owners, cont)
    requires result.IsError() ==> s.finalized
    requires cont.outer.ComputeOuter? ==> (!result.IsError() <==> cont.id in s.started)
    ensures var answered := Answer(FreeRam(s, cont.id), cont.id, cont.outer, result);
            Settled(answered) && Later(s, answered, {cont.id})
  {
    FreeRamInv(s, cont.id, cont.outer.Share());
    AnswerInv(FreeRam(s, cont.id), cont.id, cont.outer, result);
    hide Inv;
  }

  /** The caller's callback. */
  function Invoke(s: State, client: Client, response: Result): (r: State)
    requires Settled(s)
    ensures Settled(r) && Later(s, r, {})
    decreases client, 1
  {
    RunCalls(s, if response.IsError() then client.onError else client.onOk)
  }

  function RunCalls(s: State, calls: seq<Call>): (r: State)
    requires Settled(s)
    ensures Settled(r) && Later(s, r, {})
    decreases calls, 0
  {
    if calls == [] then s
    else
      var t := RunCall(s, calls[0]);
      var r := RunCalls(t, calls[1..]);
      LaterTransitive(s, t, r, {});
      r
  }

  function RunCall(s: State, call: Call): (r: State)
    requires Settled(s)
    ensures Settled(r) && Later(s, r, {})
    decreases call, 7
  {
    match call
    case Compute(cycles, bytes, client) => ReserveCompute(s, cycles, bytes, client)
    case Disk(op, bytes, client) => ReserveDisk(s, op, bytes, client)
  }

  lemma CountedInv(s: State)
    requires Settled(s)
    ensures Settled(Counted(s))
    ensures s.queueLength < s.limit ==> Inv(Queued(Counted(s)), {}, {}, 1) && Conserving(Queued(Counted(s)))
  {
    hide PoolOk, EventsOk, LedgerOk, FifoOk, OwnersOk, HistoryOk, OutcomesOk;
  }

  lemma RefusedInv(s: State, client: Client)
    requires Settled(s)
    ensures Settled(Refused(s, client))
  {
    hide PoolOk, EventsOk, QueueOk, LedgerOk, FifoOk, OwnersOk, HistoryOk, OutcomesOk;
  }

  /** Refuses at the door exactly when the queue counter is at its limit or the RAM is short. */
  function ReserveCompute(s: State, cycles: Amount, bytes: Amount, client: Client): (r: State)
    requires Settled(s)
    ensures Settled(r) && Later(s, r, {})
    ensures s.queueLength < s.limit && s.ram.utilized + bytes <= s.ram.capacity ==>
              s.owners + [ComputeOuter(client, cycles, bytes)] <= r.owners
    ensures !(s.queueLength < s.limit && s.ram.utilized + bytes <= s.ram.capacity) ==>
              s.refused + [client] <= r.refused
    decreases client, 6
  {
    CountedInv(s);
    if s.queueLength >= s.limit || s.ram.Available() < bytes then
      RefusedInv(Counted(s), client);
      Invoke(Refused(Counted(s), client), client, R5XX)
    else
      ReservePending(Queued(Counted(s)), bytes, CpuInner(cycles), ComputeOuter(client, cycles, bytes))
  }

  function ReserveDisk(s: State, op: DiskOp, bytes: Amount, client: Client): (r: State)
    requires Settled(s)
    ensures Settled(r) && Later(s, r, {})
    ensures s.ram.utilized + bytes <= s.ram.capacity ==> s.owners + [DiskOuter(client, op, bytes)] <= r.owners
    ensures !(s.ram.utilized + bytes <= s.ram.capacity) ==> s.refused + [client] <= r.refused
    decreases client, 6
  {
    if s.ram.Available() < bytes then
      RefusedInv(s, client);
      Invoke(Refused(s, client), client, R5XX)
    else
      ReservePending(s, bytes, DiskInner(op, bytes), DiskOuter(client, op, bytes))
  }

  lemma AdmitReady(s: State, bytes: Amount, outer: Outer)
    requires Inv(s, {}, {}, outer.Share()) && Conserving(s) && bytes <= s.ram.Available() && bytes == outer.bytes
    ensures var a := Admit(s, bytes, outer);
            && Inv(a, {s.ram.nextId}, {}, outer.Share())
            && Conserving(a)
            && Owns(a.owners, RamWrap(s.ram.nextId, outer))
            && Newest(a, s.ram.nextId)
            && a.ram.nextId == s.ram.nextId + 1
  {
    AdmitInv(s, bytes, outer, outer.Share());
    assert |s.owners| == s.ram.nextId;
    hide PoolOk, EventsOk, QueueOk, LedgerOk, FifoOk, OwnersOk, HistoryOk, OutcomesOk, Newest;
  }

  lemma LaterThanAdmission(s: State, bytes: Amount, outer: Outer, r: State)
    requires Later(Admit(s, bytes, outer), r, {s.ram.nextId})
    ensures Later(s, r, {}) && s.owners + [outer] <= r.owners
  {
  }

  lemma WithdrawInv(s: State, outer: Outer)
    requires Inv(s, {}, {}, outer.Share()) && Conserving(s)
    ensures Settled(Withdrawn(s, outer))
  {
    hide PoolOk, EventsOk, LedgerOk, FifoOk, OwnersOk, HistoryOk, OutcomesOk;
  }

  /** Holds RAM while the inner operation runs. */
  function ReservePending(s: State, bytes: Amount, inner: Inner, outer: Outer): (r: State)
    requires Inv(s, {}, {}, outer.Share()) && Conserving(s)
    requires bytes == outer.bytes && Serves(inner, outer)
    ensures Settled(r)
    ensures bytes <= s.ram.Available() ==> Later(s, r, {}) && s.owners + [outer] <= r.owners
    decreases outer.client, 5
  {
    if s.ram.Available() < bytes then
      WithdrawInv(s, outer);
      Invoke(Withdrawn(s, outer), outer.client, R5XX)
    else
      AdmitReady(s, bytes, outer);
      var r := LaunchInner(Admit(s, bytes, outer), inner, RamWrap(s.ram.nextId, outer));
      LaterThanAdmission(s, bytes, outer, r);
      r
  }

  /** The inner operation, with the RAM wrapper as its continuation. */
  function LaunchInner(s: State, inner: Inner, cont: Cont): (r: State)
    requires Inv(s, {cont.id}, {}, cont.outer.Share()) && Conserving(s)
    requires Owns(s.owners, cont) && Newest(s, cont.id)
    requires Serves(inner, cont.outer)
    ensures Settled(r) && Later(s, r, {cont.id})
    decreases cont.outer.client, 4, 1
  {
    match inner
    case CpuInner(cycles) => PoolReserve(s, cycles, cont)
    case DiskInner(op, bytes) =>
      LaunchDiskInv(s, op, bytes, cont);
      LaunchDisk(s, op, bytes, cont)
  }

  /** Takes a free CPU at once, otherwise queues; fails if the queue is full or finalized. */
  function PoolReserve(s: State, cycles: Amount, cont: Cont): (r: State)
    requires Inv(s, {cont.id}, {}, 1) && Conserving(s)
    requires Serves(CpuInner(cycles), cont.outer) && Owns(s.owners, cont) && Newest(s, cont.id)
    ensures Settled(r) && Later(s, r, {cont.id})
    decreases cont.outer.client, 4, 0
  {
    if |s.available| > 0 then
      var i := s.available[0];
      FirstAvailable(s);
      assert s.cpus[i].enabled && !s.cpus[i].Busy();
      StartCpuInv(s, {cont.id}, 0, i, cycles, cont);
      StartCpu(s, i, cycles, cont)
    else if |s.waiting| >= s.limit || s.finalized then
      RunCont(s, cont, QueueFull)
    else
      EnqueueInv(s, cycles, cont);
      Enqueue(s, cycles, cont)
  }

  /** The RAM wrapper's callback, then the worker's, then the caller's. */
  function RunCont(s: State, cont: Cont, result: Result): (r: State)
    requires Inv(s, {cont.id}, {}, cont.outer.Share()) && Conserving(s) && Owns(s.owners, cont)
    requires result.IsError() ==> s.finalized
    requires cont.outer.ComputeOuter? ==> (!result.IsError() <==> cont.id in s.started)
    ensures Settled(r) && Later(s, r, {cont.id})
    ensures |r.completed| > |s.completed|
    ensures r.completed[|s.completed|] == Completion(cont.id, cont.outer, result.Response())
    decreases cont.outer.client, 3
  {
    FinishInv(s, cont, result);
    var answered := Answer(FreeRam(s, cont.id), cont.id, cont.outer, result);
    var r := Invoke(answered, cont.outer.client, result.Response());
    LaterTransitive(s, answered, r, {cont.id});
    r
  }

  /** A waiter that can only fail: the queue is finalized and no CPU is free. */
  ghost predicate Doomed(s: State, w: Waiter) {
    && Inv(s, {w.caller.id}, {}, 1)
    && s.available == []
    && s.finalized
    && w.caller.outer.ComputeOuter?
    && Owns(s.owners, w.caller)
    && NextInLine(s, w.caller.id)
  }

  /** A dequeued waiter, whatever the result it is woken with: the first available CPU, or failure without one. */
  function GotCpu(s: State, w: Waiter): (r: State)
    requires s.available == [] ==> Doomed(s, w)
    requires s.available != [] ==> s.available[0] < |s.cpus|
    ensures s.available == [] ==>
              && Settled(r)
              && Later(s, r, {w.caller.id})
              && |r.completed| > |s.completed|
              && r.completed[|s.completed|] == Completion(w.caller.id, w.caller.outer, R5XX)
  {
    if s.available == [] then
      RunCont(s, w.caller, CpuShutdown)
    else
      StartCpu(s, s.available[0], w.cycles, w.caller)
  }

  /** A CPU is back in the pool: hand it to the next waiter, if there is one. */
  function PoolRelease(s: State, i: nat): State
    requires i < |s.cpus| && i in s.available
    requires s.available[0] < |s.cpus|
  {
    if (s.cpus[i].enabled || s.spinningDown) && s.waiting != [] then
      GotCpu(Dequeue(s), s.waiting[0])
    else
      s
  }

  lemma FreedCpu(s: State, k: nat)
    requires Settled(s) && k in s.pending && s.pending[k].CpuDone?
    ensures s.pending[k].cpu < |s.cpus|
    ensures var f := FreeCpu(s, k);
            && Inv(f, {s.pending[k].caller.id}, {}, 1)
            && f.available == s.available + [s.pending[k].cpu]
            && (f.waiting != [] ==> f.available == [s.pending[k].cpu])
            && s.pending[k].cpu in f.available
            && f.available[0] in f.available
            && f.available[0] < |f.cpus|
            && !f.cpus[f.available[0]].Busy()
            && f.cpus[s.pending[k].cpu].enabled
            && Owns(f.owners, s.pending[k].caller)
            && s.pending[k].caller.id in f.started
            && s.pending[k].caller.outer.ComputeOuter?
  {
    assert s.pending[k].cpu in CpusAtWork(s.pending);
    FreeCpuInv(s, k);
    var f := FreeCpu(s, k);
    assert f.available[|s.available|] == s.pending[k].cpu;
    assert f.available[0] in f.available;
  }

  lemma HandOverInv(s: State, i: nat, id: nat)
    requires Inv(s, {id}, {}, 1) && s.waiting != [] && s.available == [i] && i < |s.cpus|
    ensures var r := GotCpu(Dequeue(s), s.waiting[0]);
            && Inv(r, {id}, {}, 1)
            && Conserving(r)
            && r.started == s.started + [s.waiting[0].caller.id]
            && r.owners == s.owners
            && SameWorker(s, r)
            && r.completed == s.completed
            && r.finalized == s.finalized
  {
    var w := s.waiting[0];
    DequeueInv(s, {id}, 1);
    assert i in s.available;
    StartCpuInv(Dequeue(s), {id} + {w.caller.id}, 1, i, w.cycles, w.caller);
    assert {id} + {w.caller.id} - {w.caller.id} == {id};
    assert SwapRemove([i], i) == [];
  }

  lemma ReleasedInv(s: State, k: nat)
    requires Settled(s) && k in s.pending && s.pending[k].CpuDone?
    requires s.pending[k].cpu < |s.cpus|
    requires var f := FreeCpu(s, k); s.pending[k].cpu in f.available && f.available[0] < |f.cpus|
    ensures var released := PoolRelease(FreeCpu(s, k), s.pending[k].cpu);
            && Inv(released, {s.pending[k].caller.id}, {}, 1)
            && Conserving(released)
            && s.pending[k].caller.id in released.started
            && Owns(released.owners, s.pending[k].caller)
            && s.pending[k].caller.outer.ComputeOuter?
            && SameWorker(s, released)
            && released.completed == s.completed
  {
    FreedCpu(s, k);
    var freed := FreeCpu(s, k);
    if freed.waiting != [] {
      HandOverInv(freed, s.pending[k].cpu, s.pending[k].caller.id);
    }
    hide PoolOk, EventsOk, QueueOk, LedgerOk, FifoOk, OwnersOk, HistoryOk, OutcomesOk;
  }

  /** The CPU of a finished reservation is freed and handed on. */
  function Released(s: State, k: nat): (r: State)
    requires Settled(s) && k in s.pending && s.pending[k].CpuDone?
    ensures Inv(r, {s.pending[k].caller.id}, {}, 1) && Conserving(r)
    ensures s.pending[k].caller.id in r.started && Owns(r.owners, s.pending[k].caller)
    ensures s.pending[k].caller.outer.ComputeOuter?
    ensures SameWorker(s, r) && r.completed == s.completed
  {
    FreedCpu(s, k);
    ReleasedInv(s, k);
    PoolRelease(FreeCpu(s, k), s.pending[k].cpu)
  }

  /** A CPU reservation is over: the CPU is freed and handed on first, then its caller hears. */
  function CpuReserveDone(s: State, k: nat): (r: State)
    requires Settled(s) && k in s.pending && s.pending[k].CpuDone?
    ensures Settled(r) && SameWorker(s, r)
    ensures |r.completed| > |s.completed|
    ensures r.completed[|s.completed|] == Completion(s.pending[k].caller.id, s.pending[k].caller.outer, R4XX)
  {
    RunCont(Released(s, k), s.pending[k].caller, R4XX)
  }

  function DiskReserveDone(s: State, k: nat): (r: State)
    requires Settled(s) && k in s.pending && s.pending[k].DiskDone?
    ensures Settled(r) && SameWorker(s, r)
    ensures |r.completed| > |s.completed|
    ensures r.completed[|s.completed|] == Completion(s.pending[k].caller.id, s.pending[k].caller.outer, R4XX)
  {
    DropEventInv(s, k);
    RunCont(DropEvent(s, k), s.pending[k].caller, R4XX)
  }

  /** What an operation asked for fits again as soon as it is released. */
  lemma BytesFitAgain(s: State, cont: Cont, share: nat)
    requires Inv(s, {cont.id}, {}, share) && Owns(s.owners, cont)
    ensures cont.outer.bytes <= FreeRam(s, cont.id).ram.Available()
  {
    assert cont.id in Ram.Ids(s.ram.ongoing);
    var held :| held in s.ram.ongoing && held.id == cont.id;
    Ram.ReleaseTakesOut(s.ram, s.now, cont.id);
    assert held.bytes == cont.outer.bytes;
  }

  /**
   When a caller, in its callback, first asks the disk for no more bytes than the operation that has just ended asked
   for, it is admitted: a disk step after a compute step of the same size is refused only if the compute step was.
   */
  lemma NextStepIsAdmitted(s: State, cont: Cont, result: Result, op: DiskOp, bytes: Amount, next: Client)
    requires Inv(s, {cont.id}, {}, cont.outer.Share()) && Conserving(s) && Owns(s.owners, cont)
    requires result.IsError() ==> s.finalized
    requires cont.outer.ComputeOuter? ==> (!result.IsError() <==> cont.id in s.started)
    requires bytes <= cont.outer.bytes
    ensures var answered := Answer(FreeRam(s, cont.id), cont.id, cont.outer, result);
            && Settled(answered)
            && answered.owners + [DiskOuter(next, op, bytes)] <= ReserveDisk(answered, op, bytes, next).owners
  {
    hide Inv, Settled, ReserveDisk;
    FinishInv(s, cont, result);
    BytesFitAgain(s, cont, cont.outer.Share());
  }
}
