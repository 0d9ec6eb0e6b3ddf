/** Whole runs of a worker: any sequence of arrivals, completions, shutdown, profiler passes and blue-green starts. */
module WorkerRuns {
  import opened Basics
  import opened DynArrays
  import opened Scheduling
  import Shutdown
  import Ram = RamLedger
  import Cpu = CpuAccounting

  datatype Step =
    | Arrive(call: Call)
    | CpuFires(event: nat)
    | DiskFires(event: nat)
    | Shutdown
    | ProfilerPass
    | BlueGreen(util: real)

  datatype Timed = At(time: real, step: Step)

  function MapCpus(cpus: seq<Cpu.CpuState>, f: Cpu.CpuState -> Cpu.CpuState): (r: seq<Cpu.CpuState>)
    ensures |r| == |cpus|
    ensures forall i | 0 <= i < |cpus| :: r[i] == f(cpus[i])
  {
    seq(|cpus|, i requires 0 <= i < |cpus| => f(cpus[i]))
  }

  function Profile(s: State): State {
    s.(cpus := MapCpus(s.cpus, (c: Cpu.CpuState) => c.Profiled(s.now)), ram := s.ram.Profiled(s.now))
  }

  function Slow(s: State, util: real): State
    requires 0.0 <= util < 1.0
  {
    s.(cpus := MapCpus(s.cpus, (c: Cpu.CpuState) =>
                 Cpu.SlowedStillPositive(c, s.now, util); c.BlueGreenStarted(s.now, util)))
  }

  predicate Allows(s: State, t: Timed) {
    && s.now <= t.time
    && match t.step
       case CpuFires(k) => k in s.pending && s.pending[k].CpuDone?
       case DiskFires(k) => k in s.pending && s.pending[k].DiskDone?
       case BlueGreen(util) => 0.0 <= util < 1.0
       case _ => true
  }

  lemma AdvanceInv(s: State, t: real)
    requires Settled(s) && s.now <= t
    ensures Settled(s.(now := t))
  {
  }

  lemma ProfileInv(s: State)
    requires Settled(s)
    ensures Settled(Profile(s))
  {
  }

  lemma SlowInv(s: State, util: real)
    requires Settled(s) && 0.0 <= util < 1.0
    ensures Settled(Slow(s, util))
  {
  }

  /** A profiler pass closes the window of the RAM and of every CPU, and touches no work and no reservation. */
  lemma PassKeepsWork(s: State)
    ensures var r := Profile(s);
            && r == s.(cpus := r.cpus, ram := r.ram) && |r.cpus| == |s.cpus|
            && r.ram == s.ram.(integrated := r.ram.integrated, lastProfiled := s.now)
            && (s.ram.lastProfiled < s.now ==> r.ram.integrated == 0.0)
            && forall i | 0 <= i < |s.cpus| ::
                 && r.cpus[i].lastProfiled == s.now && r.cpus[i].freq == s.cpus[i].freq
                 && (0.0 <= s.now ==> (r.cpus[i].Busy() <==> s.cpus[i].Busy()))
  {
  }

  /** Blue-green slows every CPU down by its share, which it carries from now on; no work changes. */
  lemma BlueGreenKeepsWork(s: State, util: real)
    requires 0.0 <= util < 1.0
    ensures var r := Slow(s, util);
            && r == s.(cpus := r.cpus) && |r.cpus| == |s.cpus|
            && forall i | 0 <= i < |s.cpus| ::
                 && r.cpus[i].freq == s.cpus[i].freq * (1.0 - util)
                 && r.cpus[i].blueGreen && r.cpus[i].blueGreenStart == s.now && r.cpus[i].baseline == util
                 && r.cpus[i].lastReserved == s.cpus[i].lastReserved && r.cpus[i].busyTime == s.cpus[i].busyTime
  {
  }

  function Apply(s: State, t: Timed): (r: State)
    requires Settled(s) && Allows(s, t)
    ensures Settled(r) && SameWorker(s, r)
  {
    AdvanceInv(s, t.time);
    var there := s.(now := t.time);
    match t.step
    case Arrive(call) => RunCall(there, call)
    case CpuFires(k) => CpuReserveDone(there, k)
    case DiskFires(k) => DiskReserveDone(there, k)
    case Shutdown => Shutdown.SpinDown(there)
    case ProfilerPass => ProfileInv(there); Profile(there)
    case BlueGreen(util) => SlowInv(there, util); Slow(there, util)
  }

  ghost predicate Legal(s: State, steps: seq<Timed>)
    requires Settled(s)
    decreases |steps|
  {
    steps != [] ==> Allows(s, steps[0]) && Legal(Apply(s, steps[0]), steps[1..])
  }

  ghost function Run(s: State, steps: seq<Timed>): State
    requires Settled(s) && Legal(s, steps)
    decreases |steps|
  {
    if steps == [] then s else Run(Apply(s, steps[0]), steps[1..])
  }

  /** A worker with a fully spun-up pool of idle CPUs. */
  function NewWorker(cpus: nat, freq: real, memory: real, limit: nat, now: real): State
    requires 0 < cpus && 0.0 < freq
  {
    State.State(now, 0, map[], seq(cpus, _ => Cpu.NewCpu(freq)), seq(cpus, i => i), [], false, false,
          Ram.NewRam(memory), 0, limit, 0, [], [], [], [], 0)
  }

  lemma NewWorkerSettled(cpus: nat, freq: real, memory: real, limit: nat, now: real)
    requires 0 < cpus && 0.0 < freq && 0.0 < memory && 0.0 <= now
    ensures Settled(NewWorker(cpus, freq, memory, limit, now))
    ensures var s := NewWorker(cpus, freq, memory, limit, now);
            && |s.cpus| == |s.available| == cpus && s.limit == limit && s.now == now
            && (forall c | c in s.cpus :: c.freq == freq && !c.Busy() && !c.blueGreen && c.busyTime == 0.0)
            && s.ram.capacity == memory && s.ram.utilized == 0.0 && s.ram.ongoing == []
            && s.waiting == [] && s.pending == map[] && !s.finalized
  {
    var s := NewWorker(cpus, freq, memory, limit, now);
    forall i | 0 <= i < cpus ensures i in s.available {
      assert s.available[i] == i;
    }
  }

  ghost function Elements(s: seq<nat>): set<nat> {
    set i | i in s
  }

  lemma {:induction false} DistinctSize(s: seq<nat>)
    requires Distinct(s)
    ensures |Elements(s)| == |s|
  {
    if s != [] {
      var n := |s| - 1;
      DistinctSize(s[..n]);
      assert s == s[..n] + [s[n]];
      assert s[n] !in s[..n];
      assert Elements(s) == Elements(s[..n]) + {s[n]};
    }
  }

  ghost function UpTo(n: nat): (r: set<nat>)
    ensures forall i: nat :: i in r <==> i < n
    ensures |r| == n
  {
    if n == 0 then {} else UpTo(n - 1) + {n - 1}
  }

  ghost function BusyCpus(s: State): set<nat> {
    set i | i in UpTo(|s.cpus|) && s.cpus[i].Busy()
  }

  lemma BusyCount(s: State)
    requires PoolOk(s.now, s.cpus, s.available)
    ensures |BusyCpus(s)| == |s.cpus| - |s.available|
  {
    var free := Elements(s.available);
    var all := UpTo(|s.cpus|);
    DistinctSize(s.available);
    assert BusyCpus(s) == all - free;
    assert free <= all;
  }

  /** The counter reported by the profiler is what it says: busy CPUs and waiting requests, within the limit. */
  lemma QueueLengthIsExact(s: State)
    requires Settled(s)
    ensures s.queueLength == |BusyCpus(s)| + |s.waiting| <= s.limit
    ensures BusyCpus(s) == CpusAtWork(s.pending)
    ensures s.waiting != [] ==> |BusyCpus(s)| == |s.cpus|
  {
    BusyCount(s);
  }

  /** A compute that reaches the pool never finds the wait queue full. */
  lemma QueueNeverFull(s: State, id: nat)
    requires Inv(s, {id}, {}, 1) && s.available == []
    ensures |s.waiting| < s.limit
  {
  }

  lemma {:induction false} ReservationCount(s: seq<Ram.Reservation>)
    requires Ram.DistinctIds(s)
    ensures |Ram.Ids(s)| == |s|
  {
    if s != [] {
      var n := |s| - 1;
      ReservationCount(s[..n]);
      assert s == s[..n] + [s[n]];
      assert Ram.Ids(s) == Ram.Ids(s[..n]) + {s[n].id};
    }
  }

  lemma EventCount(pending: map<nat, Event>)
    requires DistinctEvents(pending)
    ensures |EventIds(pending)| == |pending|
    decreases |pending|
  {
    if pending != map[] {
      var k :| k in pending;
      EventIdsOfDrop(pending, k);
      EventCount(pending - {k});
      assert pending[k].caller.id in EventIds(pending);
      assert pending == (pending - {k})[k := pending[k]];
    }
  }

  lemma {:induction false} WaiterCount(waiting: seq<Waiter>)
    requires forall i, j | 0 <= i < j < |waiting| :: waiting[i].caller.id < waiting[j].caller.id
    ensures |WaiterIds(waiting)| == |waiting|
  {
    if waiting != [] {
      var n := |waiting| - 1;
      WaiterCount(waiting[..n]);
      assert waiting == waiting[..n] + [waiting[n]];
      assert WaiterIds(waiting) == WaiterIds(waiting[..n]) + {waiting[n].caller.id};
    }
  }

  /** RAM in use is the sum over live reservations, one for each in-flight operation, and within capacity. */
  lemma RamIsExact(s: State)
    requires Settled(s)
    ensures s.ram.utilized == Ram.SumBytes(s.ram.ongoing)
    ensures 0.0 <= s.ram.utilized <= s.ram.capacity
    ensures |s.ram.ongoing| == |s.pending| + |s.waiting|
  {
    ReservationCount(s.ram.ongoing);
    EventCount(s.pending);
    WaiterCount(s.waiting);
  }

  lemma {:induction false} RunsStaySettled(s: State, steps: seq<Timed>)
    requires Settled(s) && Legal(s, steps)
    ensures Settled(Run(s, steps))
    ensures SameWorker(s, Run(s, steps))
    decreases |steps|
  {
    if steps != [] {
      RunsStaySettled(Apply(s, steps[0]), steps[1..]);
    }
  }

  function FreshWorker(cpus: nat, freq: real, memory: real, limit: nat, now: real): (r: State)
    requires 0 < cpus && 0.0 < freq && 0.0 < memory && 0.0 <= now
    ensures Settled(r)
  {
    NewWorkerSettled(cpus, freq, memory, limit, now);
    NewWorker(cpus, freq, memory, limit, now)
  }

  /** Each live reservation, each waiter and each disk operation in flight is as big as its call asked for. */
  ghost predicate AsAsked(s: State) {
    && (forall r | r in s.ram.ongoing :: r.id < |s.owners| && r.bytes == s.owners[r.id].bytes)
    && (forall w | w in s.waiting :: w.caller.outer.ComputeOuter? && w.cycles == w.caller.outer.cycles)
    && (forall k | k in s.pending && s.pending[k].DiskDone? ::
          var e := s.pending[k];
          e.caller.outer.DiskOuter? && e.op == e.caller.outer.op && e.bytes == e.caller.outer.bytes)
  }

  lemma RequestsAreKept(s: State)
    requires Settled(s)
    ensures AsAsked(s)
  {
  }

  /** Reservation number id is held, or has been answered; never both. */
  ghost predicate HeldOrAnswered(s: State, id: nat) {
    id in Ram.Ids(s.ram.ongoing) <==> id !in CompletedIds(s.completed)
  }

  /**
   Main result, over every run from a new worker and every behaviour of its callers: the counter and the ledger
   are exact, with the bytes in each live reservation that its call asked for; work is conserved; computes start in
   the order of their reservations; every reservation is live or answered, never both, and answered once, to its
   owner; nothing that was admitted fails before shutdown; and the RAM wrapper never refuses.
   */
  lemma EveryRun(cpus: nat, freq: real, memory: real, limit: nat, now: real, steps: seq<Timed>)
    requires 0 < cpus && 0.0 < freq && 0.0 < memory && 0.0 <= now
    requires Legal(FreshWorker(cpus, freq, memory, limit, now), steps)
    ensures var s := Run(FreshWorker(cpus, freq, memory, limit, now), steps);
            && s.queueLength == |BusyCpus(s)| + |s.waiting| <= limit
            && (s.waiting != [] ==> |BusyCpus(s)| == cpus)
            && s.ram.utilized == Ram.SumBytes(s.ram.ongoing) <= memory
            && |s.ram.ongoing| == |s.pending| + |s.waiting|
            && AsAsked(s)
            && (forall i, j | 0 <= i < j < |s.started| :: s.started[i] < s.started[j])
            && (forall id: nat | id < |s.owners| :: HeldOrAnswered(s, id))
            && (forall i, j | 0 <= i < j < |s.completed| :: s.completed[i].id != s.completed[j].id)
            && (forall c | c in s.completed :: Owns(s.owners, RamWrap(c.id, c.outer)))
            && (!s.finalized ==> forall c | c in s.completed :: c.response == R4XX)
            && s.ramRefused == 0
  {
    var start := FreshWorker(cpus, freq, memory, limit, now);
    RunsStaySettled(start, steps);
    var s := Run(start, steps);
    QueueLengthIsExact(s);
    RamIsExact(s);
    HistoryIsExact(s);
    RequestsAreKept(s);
    hide AsAsked;
  }

  lemma HistoryIsExact(s: State)
    requires Settled(s)
    ensures forall id: nat | id < |s.owners| :: HeldOrAnswered(s, id)
    ensures forall i, j | 0 <= i < j < |s.completed| :: s.completed[i].id != s.completed[j].id
    ensures forall c | c in s.completed :: Owns(s.owners, RamWrap(c.id, c.outer))
    ensures !s.finalized ==> forall c | c in s.completed :: c.response == R4XX
    ensures forall i, j | 0 <= i < j < |s.started| :: s.started[i] < s.started[j]
  {
    var answered, live := CompletedIds(s.completed), Ram.Ids(s.ram.ongoing);
    forall id: nat | id < |s.owners| ensures HeldOrAnswered(s, id) {
      assert id in answered + live + {} && answered * live == {};
    }
  }
}
