/**
 A PUT request: a write on the primary worker of a shard and, once that has succeeded, writes on all the replicas at
 the same time. A write is a compute step and then a disk step, which is taken even after the first has failed. As
 in Search, a reservation either fails at once, from inside the call, or answers later, in any order.
 */
module Put {
  import opened Basics
  import opened Gathers

  datatype Phase = Compute | Disk | Done(at: real)
  {
    function Remaining(): nat {
      match this
      case Compute => 2
      case Disk => 1
      case Done(_) => 0
    }
  }

  /** The context of one write. `outcomes`, and everything once it is Done, is history. */
  datatype Write = Write(worker: nat, phase: Phase, response: Result, outcomes: seq<bool>)

  datatype Logged = Logged(result: Result, latency: real)

  /** Which reservations of the k-th write fail at once; each is asked at most once. */
  datatype Surroundings = Surroundings(refusesCompute: nat -> bool, refusesDisk: nat -> bool)

  /**
   The request. `workers` are those of its shard at present, the primary first; `home` are those it had when the
   request arrived. The writes are in the order in which they were started. `home` and `overtaken` are history: whether
   the shard was moved to other workers while the primary's write was on its way.
   */
  datatype State = Request(
    workers: seq<nat>,
    home: seq<nat>,
    overtaken: bool,
    writes: seq<Write>,
    startTime: real,
    now: real,
    completionTime: real,
    replicaCount: nat,
    replicasDone: nat,
    worst: Result,
    log: seq<Logged>)

  predicate Waiting(s: State, i: nat) {
    i < |s.writes| && !s.writes[i].phase.Done?
  }

  predicate SameRequest(s: State, r: State) {
    && r.workers == s.workers && r.home == s.home && r.overtaken == s.overtaken
    && r.startTime == s.startTime && r.now == s.now
    && |s.writes| <= |r.writes|
  }

  /** No write but the i-th has changed, and it has ended now if it has ended. */
  ghost predicate OnlyWrite(s: State, r: State, i: nat)
    requires i < |s.writes| <= |r.writes|
  {
    && (forall k | 0 <= k < |s.writes| && k != i :: r.writes[k] == s.writes[k])
    && (r.writes[i].phase.Done? ==> r.writes[i].phase.at == s.now)
  }

  function Log(s: State, result: Result): State {
    s.(log := s.log + [Logged(result, s.completionTime - s.startTime)])
  }

  /** The write i takes note of an answer. */
  function Answered(s: State, i: nat, result: Result): (r: State)
    requires Waiting(s, i)
    ensures SameRequest(s, r) && |r.writes| == |s.writes|
  {
    var w := s.writes[i];
    s.(writes := s.writes[i := Write(
      w.worker,
      if w.phase.Compute? then Disk else Done(s.now),
      if result.IsError() then R5XX else w.response,
      w.outcomes + [!result.IsError()])])
  }

  function Opened(s: State, worker: nat): State {
    s.(writes := s.writes + [Write(worker, Compute, R4XX, [])])
  }

  /** put_start_write */
  function StartWrite(s: State, env: Surroundings, worker: nat): (r: State)
    requires s.workers != []
    ensures SameRequest(s, r) && |s.writes| < |r.writes| && s.writes <= r.writes
    decreases 0, 4, 0
  {
    var t := Opened(s, worker);
    if env.refusesCompute(|s.writes|) then StepDone(t, env, |s.writes|, R5XX) else t
  }

  /** put_write_compute_done and put_write_disk_done */
  function StepDone(s: State, env: Surroundings, i: nat, result: Result): (r: State)
    requires s.workers != [] && Waiting(s, i)
    ensures SameRequest(s, r) && OnlyWrite(s, r, i)
    decreases if result.IsError() || s.writes[i].response.IsError() then 0 else 1, s.writes[i].phase.Remaining(), 0
  {
    var t := Answered(s, i, result);
    var w := t.writes[i];
    if w.phase.Disk? then
      if env.refusesDisk(i) then StepDone(t, env, i, R5XX) else t
    else if w.worker == s.workers[0] then PrimaryDone(t, env, w.response)
    else ReplicaDone(t, w.response)
  }

  /** put_primary_done */
  function PrimaryDone(s: State, env: Surroundings, result: Result): (r: State)
    requires s.workers != []
    ensures SameRequest(s, r) && s.writes <= r.writes
    decreases if result.IsError() then 0 else 1, 0, 0
  {
    var t := s.(completionTime := s.now);
    if result.IsError() || |s.workers| == 1 then Log(t, result)
    else Launch(t.(replicaCount := |s.workers| - 1, replicasDone := 0, worst := R4XX), env, 1)
  }

  /** The launch loop from replica i on. */
  function Launch(s: State, env: Surroundings, i: nat): (r: State)
    requires s.workers != [] && i <= |s.workers|
    ensures SameRequest(s, r) && |s.writes| + |s.workers| - i <= |r.writes| && s.writes <= r.writes
    decreases 0, 5, |s.workers| - i
  {
    if i == |s.workers| then s
    else Launch(StartWrite(s, env, s.workers[i]), env, i + 1)
  }

  /** put_replica_done */
  function ReplicaDone(s: State, result: Result): (r: State)
    ensures SameRequest(s, r) && r.writes == s.writes
  {
    var t := s.(worst := Worse(result, s.worst), replicasDone := s.replicasDone + 1);
    if t.replicasDone == t.replicaCount then Log(t, t.worst) else t
  }

  function NewRequest(workers: seq<nat>, now: real): State {
    Request(workers, workers, false, [], now, now, 0.0, 0, 0, Ok, [])
  }

  /** put_phase_arrived, once the shard is chosen. */
  function Arrive(workers: seq<nat>, env: Surroundings, now: real): (r: State)
    requires workers != []
    ensures r.workers == r.home == workers && !r.overtaken && r.startTime == now && r.writes != []
  {
    StartWrite(NewRequest(workers, now), env, workers[0])
  }

  /** A late answer to the pending step of a write, or a blue-green transfer of the shard to new workers. */
  datatype Event =
    | Answer(write: nat, result: Result, time: real)
    | Transfer(workers: seq<nat>, time: real)

  /** As many workers as before, and none that the shard or a write of this request has had. */
  predicate Fresh(s: State, workers: seq<nat>) {
    && |workers| == |s.workers|
    && (forall w | w in workers :: w !in s.workers)
    && (forall i | 0 <= i < |s.writes| :: s.writes[i].worker !in workers)
  }

  /** A disk never fails late: it either refuses at once or succeeds. */
  predicate Pending(s: State, e: Event) {
    match e
    case Answer(i, result, _) => Waiting(s, i) && (s.writes[i].phase.Disk? ==> !result.IsError())
    case Transfer(workers, _) => Fresh(s, workers)
  }

  function Moved(s: State, workers: seq<nat>): State {
    s.(workers := workers, overtaken := s.overtaken || Waiting(s, 0))
  }

  function Step(s: State, env: Surroundings, e: Event): (r: State)
    requires s.workers != [] && Pending(s, e)
    ensures |r.workers| == |s.workers| && r.home == s.home && r.startTime == s.startTime
    ensures |s.writes| <= |r.writes|
  {
    match e
    case Answer(i, result, time) => StepDone(s.(now := time), env, i, result)
    case Transfer(workers, time) => Moved(s.(now := time), workers)
  }

  /** Any order of late answers and transfers; an answer that nothing waits for cannot come. */
  function Run(s: State, env: Surroundings, events: seq<Event>): (r: State)
    requires s.workers != []
    ensures |r.workers| == |s.workers| && r.home == s.home && r.startTime == s.startTime
    ensures |s.writes| <= |r.writes|
    decreases |events|
  {
    if events == [] then s
    else
      var t := Run(s, env, events[..|events| - 1]);
      var e := events[|events| - 1];
      if Pending(t, e) then Step(t, env, e) else t
  }

  // ----- The invariant -----

  /** No replica lives on the primary's worker. */
  predicate PrimaryIsUnique(workers: seq<nat>) {
    workers != [] && forall j | 0 < j < |workers| :: workers[j] != workers[0]
  }

  predicate IsDone(w: Write) {
    w.phase.Done?
  }

  predicate HasFailed(w: Write) {
    w.phase.Done? && w.response == R5XX
  }

  /** A write knows how far it is, and its response is the verdict over its steps so far. */
  predicate WriteOk(w: Write) {
    |w.outcomes| == 2 - w.phase.Remaining() && w.response == Verdict(w.outcomes)
  }

  /** The writes are on the workers that the shard had, and none but the first is on its present primary. */
  ghost predicate WritesOk(s: State) {
    && PrimaryIsUnique(s.home) && |s.workers| == |s.home|
    && 1 <= |s.writes| <= |s.workers|
    && (forall i | 0 <= i < |s.writes| :: s.writes[i].worker == s.home[i] && WriteOk(s.writes[i]))
    && (forall i | 0 < i < |s.writes| :: s.writes[i].worker != s.workers[0])
  }

  /** The primary's write is on its way, on its shard's primary. */
  ghost predicate Before(s: State) {
    && |s.writes| == 1 && Waiting(s, 0) && s.log == [] && !s.overtaken && s.workers == s.home
    && s.replicaCount == s.replicasDone == 0
  }

  /**
   The shard has been moved while the primary's write was on its way. The write counts as a replica's when it ends, in
   a gather of none that has one, and nothing is ever logged.
   */
  ghost predicate Lost(s: State) {
    && s.workers != [] && |s.writes| == 1 && s.writes[0].worker != s.workers[0] && s.log == [] && s.overtaken
    && s.replicaCount == 0 && s.replicasDone == if Waiting(s, 0) then 0 else 1
  }

  /** The primary's write was the last. */
  ghost predicate Ended(s: State) {
    && |s.writes| == 1 && s.writes[0].phase == Done(s.completionTime) && !s.overtaken
    && (s.writes[0].response == R5XX || |s.workers| == 1)
    && s.log == [Logged(s.writes[0].response, s.completionTime - s.startTime)]
  }

  /** The primary's write has succeeded, and the replicas' writes are gathered. */
  ghost predicate Fanned(s: State) {
    && 1 <= |s.writes| && s.writes[0].phase == Done(s.completionTime) && s.writes[0].response == R4XX
    && !s.overtaken
    && s.replicaCount == |s.workers| - 1 > 0
    && s.replicasDone + 1 == CountOf(s.writes, IsDone) && s.worst == WorstOf(s.writes, HasFailed)
    && s.log == if s.replicasDone < s.replicaCount then [] else [Logged(s.worst, s.completionTime - s.startTime)]
  }

  ghost predicate Inv(s: State) {
    WritesOk(s) && (Before(s) || Ended(s) || Lost(s) || (Fanned(s) && |s.writes| == |s.workers|))
  }

  lemma AnsweredOk(s: State, i: nat, result: Result)
    requires WritesOk(s) && Waiting(s, i)
    ensures WritesOk(Answered(s, i, result))
  {
    assert WriteOk(s.writes[i]);
  }

  lemma ReplicaAnswered(s: State, i: nat, result: Result)
    requires WritesOk(s) && Fanned(s) && Waiting(s, i) && s.writes[i].phase.Compute?
    ensures Fanned(Answered(s, i, result))
  {
    var t := Answered(s, i, result);
    hide WriteOk, CountOf, WorstOf;
    CountUpdate(s.writes, IsDone, i, t.writes[i]);
    WorstUpdate(s.writes, HasFailed, i, t.writes[i]);
  }

  /** Until write i has reported, nothing is logged. */
  lemma NothingYet(s: State, i: nat)
    requires Fanned(s) && Waiting(s, i) && |s.writes| <= |s.workers|
    ensures s.replicasDone < s.replicaCount && s.log == []
  {
    hide WorstOf;
    CountedAll(s.writes, IsDone);
  }

  lemma ReplicaReported(s: State, i: nat, result: Result)
    requires Fanned(s) && Waiting(s, i) && |s.writes| <= |s.workers|
    requires s.writes[i].phase.Disk? && WriteOk(s.writes[i])
    ensures var t := Answered(s, i, result); Fanned(ReplicaDone(t, t.writes[i].response))
  {
    hide CountOf, WorstOf, WriteOk;
    NothingYet(s, i);
    var t := Answered(s, i, result);
    var w := t.writes[i];
    ResponseIsVerdict(s.writes[i]);
    assert t.writes == s.writes[i := w] && t.writes[0] == s.writes[0];
    CountUpdate(s.writes, IsDone, i, w);
    WorstUpdate(s.writes, HasFailed, i, w);
  }

  lemma ResponseIsVerdict(w: Write)
    requires WriteOk(w)
    ensures w.response == Verdict(w.outcomes)
  {
  }

  /** A replica's write moves on, and nothing else is started. */
  lemma {:induction false} ReplicaInv(s: State, env: Surroundings, i: nat, result: Result)
    requires WritesOk(s) && Fanned(s) && Waiting(s, i)
    ensures WritesOk(StepDone(s, env, i, result)) && Fanned(StepDone(s, env, i, result))
    ensures |StepDone(s, env, i, result).writes| == |s.writes|
    decreases s.writes[i].phase.Remaining()
  {
    var t := Answered(s, i, result);
    AnsweredOk(s, i, result);
    assert i > 0 && t.writes[i].worker != s.workers[0];
    if s.writes[i].phase.Compute? {
      hide Fanned;
      ReplicaAnswered(s, i, result);
      if env.refusesDisk(i) {
        ReplicaInv(t, env, i, R5XX);
      }
    } else {
      assert WriteOk(s.writes[i]);
      hide Fanned;
      ReplicaReported(s, i, result);
    }
  }

  lemma ReplicaOpened(s: State, worker: nat)
    requires WritesOk(s) && Fanned(s) && |s.writes| < |s.workers| && worker == s.workers[|s.writes|]
    requires s.workers == s.home
    ensures WritesOk(Opened(s, worker)) && Fanned(Opened(s, worker))
  {
    hide CountOf, WorstOf;
    CountAppend(s.writes, IsDone, Write(worker, Compute, R4XX, []));
    WorstAppend(s.writes, HasFailed, Write(worker, Compute, R4XX, []));
  }

  lemma StartReplica(s: State, env: Surroundings, worker: nat)
    requires WritesOk(s) && Fanned(s) && |s.writes| < |s.workers| && worker == s.workers[|s.writes|]
    requires s.workers == s.home
    ensures var r := StartWrite(s, env, worker); WritesOk(r) && Fanned(r) && |r.writes| == |s.writes| + 1
  {
    hide WritesOk, Fanned;
    ReplicaOpened(s, worker);
    if env.refusesCompute(|s.writes|) {
      hide StepDone;
      ReplicaInv(Opened(s, worker), env, |s.writes|, R5XX);
    }
  }

  lemma {:induction false} LaunchInv(s: State, env: Surroundings, i: nat)
    requires WritesOk(s) && Fanned(s) && |s.writes| == i && s.workers == s.home
    ensures var r := Launch(s, env, i); WritesOk(r) && Fanned(r) && |r.writes| == |r.workers|
    decreases |s.workers| - i
  {
    hide Fanned, StartWrite;
    if i < |s.workers| {
      StartReplica(s, env, s.workers[i]);
      LaunchInv(StartWrite(s, env, s.workers[i]), env, i + 1);
    }
  }

  lemma PrimaryDoneInv(s: State, env: Surroundings)
    requires WritesOk(s) && |s.writes| == 1 && s.writes[0].phase == Done(s.now) && s.log == []
    requires s.workers == s.home && !s.overtaken
    ensures Inv(PrimaryDone(s, env, s.writes[0].response))
  {
    hide Launch;
    if s.writes[0].response == R4XX && |s.workers| > 1 {
      var t := s.(completionTime := s.now, replicaCount := |s.workers| - 1, replicasDone := 0, worst := R4XX);
      assert CountOf(s.writes, IsDone) == 1 by {
        assert s.writes[..0] == [];
      }
      LaunchInv(t, env, 1);
    } else {
      assert WriteOk(s.writes[0]);
    }
  }

  lemma {:induction false} PrimaryInv(s: State, env: Surroundings, result: Result)
    requires WritesOk(s) && Before(s)
    ensures Inv(StepDone(s, env, 0, result))
    decreases s.writes[0].phase.Remaining()
  {
    hide PrimaryDone, WriteOk, Fanned;
    var t := Answered(s, 0, result);
    AnsweredOk(s, 0, result);
    if s.writes[0].phase.Compute? {
      if env.refusesDisk(0) {
        PrimaryInv(t, env, R5XX);
      }
    } else {
      PrimaryDoneInv(t, env);
    }
  }

  lemma ArriveInv(workers: seq<nat>, env: Surroundings, now: real)
    requires PrimaryIsUnique(workers)
    ensures Inv(Arrive(workers, env, now))
  {
    hide StepDone, Fanned;
    var t := Opened(NewRequest(workers, now), workers[0]);
    assert WritesOk(t) && Before(t);
    if env.refusesCompute(0) {
      PrimaryInv(t, env, R5XX);
    }
  }

  /** A lost write goes on to its end, and ends as a replica's. */
  lemma {:induction false} LostInv(s: State, env: Surroundings, result: Result)
    requires WritesOk(s) && Lost(s) && Waiting(s, 0)
    ensures WritesOk(StepDone(s, env, 0, result)) && Lost(StepDone(s, env, 0, result))
    decreases s.writes[0].phase.Remaining()
  {
    hide WriteOk;
    var t := Answered(s, 0, result);
    AnsweredOk(s, 0, result);
    if s.writes[0].phase.Compute? && env.refusesDisk(0) {
      LostInv(t, env, R5XX);
    }
  }

  lemma MovedInv(s: State, workers: seq<nat>)
    requires Inv(s) && Fresh(s, workers)
    ensures Inv(Moved(s, workers))
  {
    hide WriteOk, CountOf, WorstOf;
  }

  lemma LaterInv(s: State, time: real)
    requires Inv(s)
    ensures Inv(s.(now := time))
  {
    hide WriteOk, CountOf, WorstOf;
  }

  lemma StepInv(s: State, env: Surroundings, e: Event)
    requires Inv(s) && Pending(s, e)
    ensures Inv(Step(s, env, e))
  {
    hide StepDone, Moved, WriteOk, CountOf, WorstOf;
    var t := s.(now := e.time);
    LaterInv(s, e.time);
    match e
    case Transfer(workers, _) => MovedInv(t, workers);
    case Answer(i, result, _) =>
      if Before(t) {
        PrimaryInv(t, env, result);
      } else if Lost(t) {
        LostInv(t, env, result);
      } else {
        ReplicaInv(t, env, i, result);
      }
  }

  lemma {:induction false} RunInv(s: State, env: Surroundings, events: seq<Event>)
    requires Inv(s)
    ensures Inv(Run(s, env, events))
    decreases |events|
  {
    hide Before, Ended, Lost, Fanned, Step, Pending;
    if events != [] {
      RunInv(s, env, events[..|events| - 1]);
      var t := Run(s, env, events[..|events| - 1]);
      if Pending(t, events[|events| - 1]) {
        StepInv(t, env, events[|events| - 1]);
      }
    }
  }

  // ----- The request as the program changes it -----

  /** The request context; the contexts of its writes are the elements of `writes`. */
  class PutRequest {
    var workers: seq<nat>
    ghost const home: seq<nat>
    ghost var overtaken: bool
    const startTime: real
    var now: real
    var writes: seq<Write>
    var completionTime: real
    var replicaCount: nat
    var replicasDone: nat
    var worst: Result
    var log: seq<Logged>

    ghost function State(): State
      reads this
    {
      Request(workers, home, overtaken, writes, startTime, now, completionTime, replicaCount, replicasDone, worst, log)
    }

    constructor (workers: seq<nat>, time: real)
      requires workers != []
      ensures State() == NewRequest(workers, time)
    {
      this.workers, home, overtaken, startTime, now := workers, workers, false, time, time;
      writes, completionTime, replicaCount, replicasDone, worst, log := [], 0.0, 0, 0, Ok, [];
    }

    /** put_phase_arrived */
    method PhaseArrived(env: Surroundings)
      requires workers != [] && State() == NewRequest(workers, startTime)
      modifies this
      ensures State() == Arrive(old(workers), env, startTime)
    {
      hide StartWrite;
      BeginWrite(workers[0], env);
    }

    /** put_start_write */
    method BeginWrite(worker: nat, env: Surroundings)
      requires workers != []
      modifies this
      ensures State() == StartWrite(old(State()), env, worker)
      decreases 0, 4, 0
    {
      hide StepDone;
      var i := |writes|;
      writes := writes + [Write(worker, Compute, R4XX, [])];
      if env.refusesCompute(i) {
        WriteStepDone(i, R5XX, env);
      }
    }

    method TakeAnswer(i: nat, result: Result)
      requires Waiting(State(), i)
      modifies this`writes
      ensures State() == Answered(old(State()), i, result)
    {
      var response := writes[i].response;
      if result.IsError() {
        response := R5XX;
      }
      var phase := if writes[i].phase.Compute? then Disk else Done(now);
      writes := writes[i := Write(writes[i].worker, phase, response, writes[i].outcomes + [!result.IsError()])];
    }

    /** put_write_compute_done and put_write_disk_done */
    method WriteStepDone(i: nat, result: Result, env: Surroundings)
      requires workers != [] && Waiting(State(), i)
      modifies this
      ensures State() == StepDone(old(State()), env, i, result)
      decreases if result.IsError() || writes[i].response.IsError() then 0 else 1, writes[i].phase.Remaining(), 0
    {
      hide PrimaryDone, ReplicaDone;
      TakeAnswer(i, result);
      if writes[i].phase.Disk? {
        if env.refusesDisk(i) {
          WriteStepDone(i, R5XX, env);
        }
      } else {
        var isPrimary := writes[i].worker == workers[0];
        if isPrimary {
          EndPrimary(writes[i].response, env);
        } else {
          EndReplica(writes[i].response);
        }
      }
    }

    /** put_primary_done */
    method EndPrimary(result: Result, env: Surroundings)
      requires workers != []
      modifies this
      ensures State() == PrimaryDone(old(State()), env, result)
      decreases if result.IsError() then 0 else 1, 0, 0
    {
      hide Launch;
      completionTime := now;
      if result.IsError() || |workers| == 1 {
        LogResult(result);
        return;
      }
      replicaCount, replicasDone, worst := |workers| - 1, 0, R4XX;
      LaunchReplicas(env);
    }

    /** The launch loop; its bound stays in a local. */
    method LaunchReplicas(env: Surroundings)
      requires workers != []
      modifies this
      ensures State() == Launch(old(State()), env, 1)
      decreases 0, 5, |workers|
    {
      hide StartWrite;
      var n := |workers|;
      for i := 1 to n
        invariant workers == old(workers)
        invariant Launch(State(), env, i) == Launch(old(State()), env, 1)
      {
        BeginWrite(workers[i], env);
      }
    }

    /** put_replica_done */
    method EndReplica(result: Result)
      modifies this`worst, this`replicasDone, this`log
      ensures State() == ReplicaDone(old(State()), result)
    {
      if result.Code() > worst.Code() {
        worst := result;
      }
      replicasDone := replicasDone + 1;
      if replicasDone == replicaCount {
        LogResult(worst);
      }
    }

    method LogResult(result: Result)
      modifies this`log
      ensures State() == Log(old(State()), result)
    {
      log := log + [Logged(result, completionTime - startTime)];
    }

    /** A late answer arrives, or the shard is moved, with the clock at that time. */
    method Receive(e: Event, env: Surroundings)
      requires workers != [] && Pending(State(), e)
      modifies this
      ensures State() == Step(old(State()), env, e)
    {
      hide StepDone;
      now := e.time;
      match e
      case Answer(i, result, _) => WriteStepDone(i, result, env);
      case Transfer(newWorkers, _) =>
        overtaken := overtaken || Waiting(State(), 0);
        workers := newWorkers;
    }
  }
}
