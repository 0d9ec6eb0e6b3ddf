/**
 A SEARCH request: which shards it goes to, its three steps on each of them at the same time, and the collation
 once all have reported. A reservation on a worker either answers at once with an error, from inside the call,
 or answers later; which, and in what order the late answers come, is up to the rest of the simulation.
 */
module Search {
  import opened Basics
  import opened DynArrays
  import opened Gathers
  import Indexing

  // ----- Routing -----

  /** The shards that the given hashes select, each once, in the order of their first selection. */
  function Targets(hashes: seq<nat>, n: nat): (r: seq<nat>)
    requires n > 0
  {
    if hashes == [] then []
    else
      var before := Targets(hashes[..|hashes| - 1], n);
      var s := Indexing.ShardFromHash(hashes[|hashes| - 1], n);
      if s in before then before else before + [s]
  }

  /** Some given hash is congruent to the position modulo the number of shards. */
  ghost predicate Selected(hashes: seq<nat>, shard: nat, n: nat)
    requires n > 0
  {
    exists h :: h in hashes && Indexing.Congruent(h, shard, n)
  }

  /** The targets are without duplicates, and exactly the shards selected. */
  lemma {:induction false} TargetsAreSelected(hashes: seq<nat>, n: nat)
    requires n > 0
    ensures Distinct(Targets(hashes, n))
    ensures forall s: nat :: s in Targets(hashes, n) <==> s < n && Selected(hashes, s, n)
  {
    if hashes != [] {
      var m := |hashes| - 1;
      TargetsAreSelected(hashes[..m], n);
      assert hashes == hashes[..m] + [hashes[m]];
      forall s: nat | s < n ensures Indexing.Congruent(hashes[m], s, n) <==> s == Indexing.ShardFromHash(hashes[m], n) {
        Indexing.SelectedIff(hashes[m], s, n);
      }
    }
  }

  /** The nested loops that resolve the given hashes; without given hashes, all shards. */
  method ResolveTargets(hashes: seq<nat>, n: nat) returns (targets: seq<nat>)
    requires hashes != [] ==> n > 0
    ensures hashes == [] ==> targets == seq(n, i => i)
    ensures hashes != [] ==> targets == Targets(hashes, n)
  {
    targets := [];
    if |hashes| == 0 {
      for i := 0 to n
        invariant targets == seq(i, j => j)
      {
        targets := targets + [i];
      }
      return;
    }
    for i := 0 to |hashes|
      invariant targets == Targets(hashes[..i], n)
    {
      var s := Indexing.ShardFromHash(hashes[i], n);
      var found := false;
      for j := 0 to |targets|
        invariant found <==> s in targets[..j]
      {
        if targets[j] == s {
          found := true;
          break;
        }
      }
      assert hashes[..i + 1][..i] == hashes[..i];
      if !found {
        targets := targets + [s];
      }
    }
    assert hashes[..|hashes|] == hashes;
  }

  /** The scan for the collation worker: more shards win, and a coin decides between equals. */
  function Best(workers: seq<nat>, coins: nat -> bool, i: nat): (best: nat)
    requires i <= |workers|
    ensures i > 0 ==> best < i
  {
    if i <= 1 then 0
    else
      var b := Best(workers, coins, i - 1);
      var here, there := Indexing.Count(workers, workers[i - 1]), Indexing.Count(workers, workers[b]);
      if here > there || (here == there && coins(i - 1)) then i - 1 else b
  }

  /** Whatever the coins, the collation worker covers a maximal number of the chosen shards. */
  lemma {:induction false} BestIsMaximal(workers: seq<nat>, coins: nat -> bool, i: nat, j: nat)
    requires j < i <= |workers|
    ensures Indexing.Count(workers, workers[j]) <= Indexing.Count(workers, workers[Best(workers, coins, i)])
  {
    if j < i - 1 {
      BestIsMaximal(workers, coins, i - 1, j);
    } else if i > 1 {
      BestIsMaximal(workers, coins, i - 1, 0);
    }
  }

  /** It is the last one of these on which the coin falls, not counting the first of them; that if there is none. */
  ghost predicate Chosen(workers: seq<nat>, coins: nat -> bool, i: nat, best: nat)
    requires best < i <= |workers|
  {
    var most := Indexing.Count(workers, workers[best]);
    && (coins(best) || forall j | 0 <= j < best :: Indexing.Count(workers, workers[j]) < most)
    && (forall j: nat | best < j < i :: Indexing.Count(workers, workers[j]) == most ==> !coins(j))
  }

  lemma {:induction false} CoinsDecide(workers: seq<nat>, coins: nat -> bool, i: nat)
    requires 0 < i <= |workers|
    ensures Chosen(workers, coins, i, Best(workers, coins, i))
  {
    hide Indexing.Count;
    if i > 1 {
      CoinsDecide(workers, coins, i - 1);
      forall j: nat | j < i - 1
        ensures Indexing.Count(workers, workers[j]) <= Indexing.Count(workers, workers[Best(workers, coins, i - 1)])
      {
        BestIsMaximal(workers, coins, i - 1, j);
      }
    }
  }

  method PickCollator(workers: seq<nat>, coins: nat -> bool) returns (best: nat)
    ensures best == Best(workers, coins, |workers|)
    ensures workers != [] ==> best < |workers|
  {
    best := 0;
    var bestCount := 0;
    for i := 0 to |workers|
      invariant best == Best(workers, coins, i)
      invariant i > 0 ==> bestCount == Indexing.Count(workers, workers[best])
      invariant i == 0 ==> bestCount == 0
    {
      var count := 0;
      for j := 0 to |workers|
        invariant count == Indexing.Count(workers[..j], workers[i])
      {
        Indexing.CountAppend(workers[..j], workers[j], workers[i]);
        assert workers[..j + 1] == workers[..j] + [workers[j]];
        if workers[j] == workers[i] {
          count := count + 1;
        }
      }
      assert workers[..|workers|] == workers;
      Indexing.CountPositive(workers, i);
      if count > bestCount || (count == bestCount && coins(i)) {
        bestCount := count;
        best := i;
      }
    }
  }

  // ----- The request -----

  datatype Stage = QueryCompute | DiskRead | ResponseCompute
  {
    function Index(): nat {
      match this
      case QueryCompute => 0
      case DiskRead => 1
      case ResponseCompute => 2
    }
  }

  /** One shard's part: not launched, waiting for the answer of a step, or done. */
  datatype Part =
    | Idle
    | Waiting(stage: Stage, response: Result)
    | Finished(response: Result)

  /** The collation: not started, waiting for the answer of its worker, or answered. */
  datatype Collation = NotYet | Collating(worker: nat) | Collated(worker: nat, succeeded: bool)

  /** What the request tells its index at the end. */
  datatype Logged = Logged(result: Result, latency: real)

  /**
   What the rest of the simulation decides: which reservations fail at once, and the coins of the collation.
   Each is asked at most once in the life of a request.
   */
  datatype Surroundings = Surroundings(
    refusesStep: (nat, Stage) -> bool,
    refusesCollation: bool,
    coins: nat -> bool)

  /** The request. `outcomes` is history: for each shard, whether its steps so far succeeded. */
  datatype State = Request(
    workers: seq<nat>,
    parts: seq<Part>,
    outcomes: seq<seq<bool>>,
    shardsDone: nat,
    worst: Result,
    collation: Collation,
    startTime: real,
    now: real,
    log: seq<Logged>)

  /** One part and one history per chosen shard, and a worker for each. */
  predicate Shaped(s: State) {
    0 < |s.workers| == |s.parts| == |s.outcomes|
  }

  /** The same request at the same time, and only the part of shard i has moved on. */
  ghost predicate OnlyPart(s: State, r: State, i: nat)
    requires Shaped(s) && i < |s.parts|
  {
    && Shaped(r) && r.workers == s.workers
    && r.startTime == s.startTime && r.now == s.now
    && !r.parts[i].Idle?
    && forall j | 0 <= j < |s.parts| && j != i :: r.parts[j] == s.parts[j] && r.outcomes[j] == s.outcomes[j]
  }

  /** The same request at the same time with the same parts. */
  predicate SameParts(s: State, r: State) {
    && r.workers == s.workers && r.parts == s.parts && r.outcomes == s.outcomes
    && r.startTime == s.startTime && r.now == s.now
  }

  function Log(s: State, result: Result): State {
    s.(log := s.log + [Logged(result, s.now - s.startTime)])
  }

  function Await(s: State, i: nat, stage: Stage, response: Result): State
    requires i < |s.parts|
  {
    s.(parts := s.parts[i := Waiting(stage, response)])
  }

  /** Starts one step on shard i; its worker may refuse at once. */
  function StartStep(s: State, env: Surroundings, i: nat, stage: Stage, response: Result): (r: State)
    requires Shaped(s) && i < |s.parts|
    ensures OnlyPart(s, r, i)
    decreases 2 - stage.Index(), 1
  {
    var t := Await(s, i, stage, response);
    if env.refusesStep(i, stage) then StepDone(t, env, i, R5XX) else t
  }

  /** The answer to the pending step of shard i: search_shard_compute_done, _disk_done and _response_done. */
  function StepDone(s: State, env: Surroundings, i: nat, result: Result): (r: State)
    requires Shaped(s) && i < |s.parts| && s.parts[i].Waiting?
    ensures OnlyPart(s, r, i)
    decreases 2 - s.parts[i].stage.Index(), 0
  {
    var response := if result.IsError() then R5XX else s.parts[i].response;
    var t := Recorded(s, i, !result.IsError());
    match s.parts[i].stage
    case QueryCompute => StartStep(t, env, i, DiskRead, response)
    case DiskRead => StartStep(t, env, i, ResponseCompute, response)
    case ResponseCompute => ShardFinished(t.(parts := t.parts[i := Finished(response)]), env, response)
  }

  function Recorded(s: State, i: nat, succeeded: bool): State
    requires i < |s.outcomes|
  {
    s.(outcomes := s.outcomes[i := s.outcomes[i] + [succeeded]])
  }

  /** One more shard has reported. */
  function ShardFinished(s: State, env: Surroundings, response: Result): (r: State)
    requires Shaped(s)
    ensures SameParts(s, r)
  {
    var t := s.(worst := Worse(response, s.worst), shardsDone := s.shardsDone + 1);
    if t.shardsDone < |t.parts| then t
    else if t.worst.IsError() then Log(t, t.worst)
    else StartCollation(t, env)
  }

  function StartCollation(s: State, env: Surroundings): (r: State)
    requires Shaped(s)
    ensures SameParts(s, r)
  {
    var t := s.(collation := Collating(s.workers[Best(s.workers, env.coins, |s.workers|)]));
    if env.refusesCollation then CollateDone(t, R5XX) else t
  }

  function CollateDone(s: State, result: Result): (r: State)
    requires s.collation.Collating?
    ensures SameParts(s, r)
  {
    Log(s.(collation := Collated(s.collation.worker, !result.IsError())), result.Response())
  }

  /** The launch loop from shard i on. */
  function Launch(s: State, env: Surroundings, i: nat): (r: State)
    requires Shaped(s) && i <= |s.parts|
    ensures Shaped(r) && r.workers == s.workers && r.startTime == s.startTime && r.now == s.now
    decreases |s.parts| - i
  {
    if i == |s.parts| then s
    else Launch(StartStep(s, env, i, QueryCompute, R4XX), env, i + 1)
  }

  function NewRequest(workers: seq<nat>, now: real): State {
    Request(workers, seq(|workers|, _ => Idle), seq(|workers|, _ => []), 0, R4XX, NotYet, now, now, [])
  }

  /** search_phase_arrived, once the targets and a worker for each are chosen. */
  function Arrive(workers: seq<nat>, env: Surroundings, now: real): (r: State)
    ensures r.workers == workers && |r.parts| == |r.outcomes| == |workers| && r.startTime == now
  {
    if |workers| == 0 then Log(NewRequest(workers, now), R4XX)
    else Launch(NewRequest(workers, now), env, 0)
  }

  /** A late answer, to the pending step of a shard or to the collation. */
  datatype Event =
    | StepAnswer(shard: nat, result: Result, time: real)
    | CollationAnswer(result: Result, time: real)

  predicate Pending(s: State, e: Event) {
    match e
    case StepAnswer(i, _, _) => i < |s.parts| && s.parts[i].Waiting?
    case CollationAnswer(_, _) => s.collation.Collating?
  }

  function Step(s: State, env: Surroundings, e: Event): (r: State)
    requires Shaped(s) && Pending(s, e)
    ensures r.workers == s.workers && r.startTime == s.startTime
  {
    match e
    case StepAnswer(i, result, time) => StepDone(s.(now := time), env, i, result)
    case CollationAnswer(result, time) => CollateDone(s.(now := time), result)
  }

  /** Any order of late answers; an answer that nothing waits for cannot come. */
  function Run(s: State, env: Surroundings, events: seq<Event>): (r: State)
    ensures r.workers == s.workers && r.startTime == s.startTime
    decreases |events|
  {
    if events == [] then s
    else
      var t := Run(s, env, events[..|events| - 1]);
      var e := events[|events| - 1];
      if Shaped(t) && Pending(t, e) then Step(t, env, e) else t
  }

  // ----- The invariant -----

  /** A part knows how far it is, and its response is the verdict over its steps so far. */
  ghost predicate PartOk(p: Part, outcomes: seq<bool>) {
    match p
    case Idle => outcomes == []
    case Waiting(stage, response) => |outcomes| == stage.Index() && response == Verdict(outcomes)
    case Finished(response) => |outcomes| == 3 && response == Verdict(outcomes)
  }

  ghost predicate PartsOk(s: State) {
    Shaped(s) && forall i | 0 <= i < |s.parts| :: PartOk(s.parts[i], s.outcomes[i])
  }

  ghost predicate OthersOk(s: State, i: nat) {
    Shaped(s) && forall j | 0 <= j < |s.parts| && j != i :: PartOk(s.parts[j], s.outcomes[j])
  }

  predicate IsFinished(p: Part) {
    p.Finished?
  }

  predicate HasFailed(p: Part) {
    p == Finished(R5XX)
  }

  /** A worker that covers a maximal number of the chosen shards. */
  ghost predicate Covers(workers: seq<nat>, w: nat) {
    && w in workers
    && forall j | 0 <= j < |workers| :: Indexing.Count(workers, workers[j]) <= Indexing.Count(workers, w)
  }

  /** Before all shards have reported nothing is collated or logged; afterwards exactly one thing happens. */
  ghost predicate EndOk(s: State) {
    if s.shardsDone < |s.parts| then s.log == [] && s.collation == NotYet
    else if s.worst == R5XX then s.log == [Logged(R5XX, s.now - s.startTime)] && s.collation == NotYet
    else
      match s.collation
      case NotYet => false
      case Collating(w) => s.log == [] && Covers(s.workers, w)
      case Collated(w, succeeded) =>
        Covers(s.workers, w) && s.log == [Logged(if succeeded then R4XX else R5XX, s.now - s.startTime)]
  }

  ghost predicate GatherOk(s: State) {
    s.shardsDone == CountOf(s.parts, IsFinished) && s.worst == WorstOf(s.parts, HasFailed) && EndOk(s)
  }

  ghost predicate Inv(s: State) {
    PartsOk(s) && GatherOk(s)
  }

  lemma CollationInv(s: State, env: Surroundings)
    requires Shaped(s) && s.log == [] && s.collation == NotYet && s.worst == R4XX && s.shardsDone == |s.parts|
    ensures EndOk(StartCollation(s, env)) && SameParts(s, StartCollation(s, env))
    ensures StartCollation(s, env).shardsDone == s.shardsDone && StartCollation(s, env).worst == s.worst
  {
    var n := |s.workers|;
    var w := s.workers[Best(s.workers, env.coins, n)];
    assert Covers(s.workers, w) by {
      forall j | 0 <= j < n ensures Indexing.Count(s.workers, s.workers[j]) <= Indexing.Count(s.workers, w) {
        BestIsMaximal(s.workers, env.coins, n, j);
      }
    }
  }

  /** The gather keeps the invariant when it is called with the part already marked as finished. */
  lemma ShardFinishedInv(s: State, env: Surroundings, response: Result)
    requires PartsOk(s) && s.shardsDone + 1 == CountOf(s.parts, IsFinished)
    requires Worse(response, s.worst) == WorstOf(s.parts, HasFailed)
    requires s.log == [] && s.collation == NotYet
    ensures Inv(ShardFinished(s, env, response))
  {
    hide Covers, PartOk, CountOf;
    var t := s.(worst := Worse(response, s.worst), shardsDone := s.shardsDone + 1);
    if t.shardsDone == |t.parts| && !t.worst.IsError() {
      hide StartCollation;
      CollationInv(t, env);
    }
  }

  /** Until shard i has reported, nothing is collated or logged. */
  lemma NothingYet(s: State, i: nat)
    requires GatherOk(s) && i < |s.parts| && !s.parts[i].Finished?
    ensures s.shardsDone < |s.parts| && s.log == [] && s.collation == NotYet
  {
    CountedAll(s.parts, IsFinished);
  }

  lemma FinishInv(s: State, env: Surroundings, i: nat, response: Result)
    requires OthersOk(s, i) && GatherOk(s) && i < |s.parts| && !s.parts[i].Finished?
    requires PartOk(Finished(response), s.outcomes[i])
    ensures Inv(ShardFinished(s.(parts := s.parts[i := Finished(response)]), env, response))
  {
    hide EndOk, CountOf, WorstOf, ShardFinished;
    NothingYet(s, i);
    CountUpdate(s.parts, IsFinished, i, Finished(response));
    WorstUpdate(s.parts, HasFailed, i, Finished(response));
    ShardFinishedInv(s.(parts := s.parts[i := Finished(response)]), env, response);
  }

  lemma AwaitInv(s: State, i: nat, stage: Stage, response: Result)
    requires OthersOk(s, i) && GatherOk(s) && i < |s.parts| && !s.parts[i].Finished?
    requires PartOk(Waiting(stage, response), s.outcomes[i])
    ensures Inv(Await(s, i, stage, response))
  {
    hide CountOf, WorstOf;
    CountUpdate(s.parts, IsFinished, i, Waiting(stage, response));
    WorstUpdate(s.parts, HasFailed, i, Waiting(stage, response));
  }

  lemma RecordedOk(s: State, i: nat, succeeded: bool)
    requires PartsOk(s) && GatherOk(s) && i < |s.parts|
    ensures OthersOk(Recorded(s, i, succeeded), i) && GatherOk(Recorded(s, i, succeeded))
  {
    hide PartOk, CountOf, WorstOf;
  }

  lemma {:induction false} StartStepInv(s: State, env: Surroundings, i: nat, stage: Stage, response: Result)
    requires OthersOk(s, i) && GatherOk(s) && i < |s.parts| && !s.parts[i].Finished?
    requires PartOk(Waiting(stage, response), s.outcomes[i])
    ensures Inv(StartStep(s, env, i, stage, response))
    decreases 2 - stage.Index(), 1
  {
    hide PartOk, GatherOk;
    AwaitInv(s, i, stage, response);
    if env.refusesStep(i, stage) {
      StepDoneInv(Await(s, i, stage, response), env, i, R5XX);
    }
  }

  lemma {:induction false} StepDoneInv(s: State, env: Surroundings, i: nat, result: Result)
    requires Inv(s) && i < |s.parts| && s.parts[i].Waiting?
    ensures Inv(StepDone(s, env, i, result))
    decreases 2 - s.parts[i].stage.Index(), 0
  {
    hide GatherOk, ShardFinished;
    var response := if result.IsError() then R5XX else s.parts[i].response;
    var t := Recorded(s, i, !result.IsError());
    RecordedOk(s, i, !result.IsError());
    assert PartOk(s.parts[i], s.outcomes[i]);
    assert response == Verdict(t.outcomes[i]);
    match s.parts[i].stage
    case QueryCompute => StartStepInv(t, env, i, DiskRead, response);
    case DiskRead => StartStepInv(t, env, i, ResponseCompute, response);
    case ResponseCompute => FinishInv(t, env, i, response);
  }

  /** The shards before i are launched, the others not. */
  ghost predicate LaunchedBefore(s: State, i: nat) {
    forall j | 0 <= j < |s.parts| :: s.parts[j].Idle? <==> i <= j
  }

  lemma LaunchOne(s: State, env: Surroundings, i: nat)
    requires Inv(s) && i < |s.parts| && LaunchedBefore(s, i)
    ensures Inv(StartStep(s, env, i, QueryCompute, R4XX))
    ensures LaunchedBefore(StartStep(s, env, i, QueryCompute, R4XX), i + 1)
  {
    hide GatherOk, StartStep;
    assert PartOk(s.parts[i], s.outcomes[i]);
    StartStepInv(s, env, i, QueryCompute, R4XX);
  }

  lemma {:induction false} LaunchInv(s: State, env: Surroundings, i: nat)
    requires Inv(s) && i <= |s.parts| && LaunchedBefore(s, i)
    ensures Inv(Launch(s, env, i)) && LaunchedBefore(Launch(s, env, i), |s.parts|)
    decreases |s.parts| - i
  {
    if i < |s.parts| {
      hide GatherOk, PartOk, StartStep, LaunchedBefore;
      LaunchOne(s, env, i);
      LaunchInv(StartStep(s, env, i, QueryCompute, R4XX), env, i + 1);
    }
  }

  lemma ArriveInv(workers: seq<nat>, env: Surroundings, now: real)
    requires workers != []
    ensures Inv(Arrive(workers, env, now))
    ensures LaunchedBefore(Arrive(workers, env, now), |workers|)
  {
    var s := NewRequest(workers, now);
    CountedNone(s.parts, IsFinished);
    LaunchInv(s, env, 0);
  }

  lemma StepInv(s: State, env: Surroundings, e: Event)
    requires Inv(s) && LaunchedBefore(s, |s.parts|) && Pending(s, e)
    ensures Inv(Step(s, env, e)) && LaunchedBefore(Step(s, env, e), |s.parts|)
    ensures |Step(s, env, e).parts| == |s.parts|
  {
    match e
    case StepAnswer(i, result, time) =>
      NothingYet(s, i);
      var t := s.(now := time);
      assert Inv(t);
      hide GatherOk, StepDone;
      StepDoneInv(t, env, i, result);
    case CollationAnswer(result, time) =>
      hide CountOf, WorstOf, Covers, PartOk;
  }

  lemma {:induction false} RunInv(s: State, env: Surroundings, events: seq<Event>)
    requires Inv(s) && LaunchedBefore(s, |s.parts|)
    ensures Inv(Run(s, env, events)) && LaunchedBefore(Run(s, env, events), |s.parts|)
    ensures |Run(s, env, events).parts| == |s.parts|
    decreases |events|
  {
    hide GatherOk, PartOk, Step, LaunchedBefore;
    if events != [] {
      RunInv(s, env, events[..|events| - 1]);
      var t := Run(s, env, events[..|events| - 1]);
      if Pending(t, events[|events| - 1]) {
        StepInv(t, env, events[|events| - 1]);
      }
    }
  }

  // ----- The request as the program changes it -----

  /** The request context; the contexts of its shards are the elements of `parts`. */
  class SearchRequest {
    const workers: seq<nat>
    const startTime: real
    var now: real
    var parts: seq<Part>
    var shardsDone: nat
    var worst: Result
    var collation: Collation
    var log: seq<Logged>
    ghost var outcomes: seq<seq<bool>>

    ghost function State(): State
      reads this
    {
      Request(workers, parts, outcomes, shardsDone, worst, collation, startTime, now, log)
    }

    constructor (workers: seq<nat>, time: real)
      ensures State() == NewRequest(workers, time)
    {
      this.workers, startTime, now := workers, time, time;
      parts, outcomes := seq(|workers|, _ => Idle), seq(|workers|, _ => []);
      shardsDone, worst, collation, log := 0, R4XX, NotYet, [];
    }

    /** search_phase_arrived after the choice of workers; the loop bound stays in a local. */
    method PhaseArrived(env: Surroundings)
      requires State() == NewRequest(workers, startTime)
      modifies this
      ensures State() == Arrive(workers, env, startTime)
    {
      var n := |workers|;
      if n == 0 {
        LogResult(R4XX);
        return;
      }
      hide StartStep;
      for i := 0 to n
        invariant Shaped(State())
        invariant Launch(State(), env, i) == Launch(old(State()), env, 0)
      {
        StartStepOn(i, QueryCompute, R4XX, env);
      }
    }

    /** worker_reserve_compute or worker_reserve_disk for one step: a refusal runs the callback at once. */
    method StartStepOn(i: nat, stage: Stage, response: Result, env: Surroundings)
      requires Shaped(State()) && i < |parts|
      modifies this
      ensures State() == StartStep(old(State()), env, i, stage, response)
      decreases 2 - stage.Index(), 1
    {
      parts := parts[i := Waiting(stage, response)];
      if env.refusesStep(i, stage) {
        ShardStepDone(i, R5XX, env);
      }
    }

    /** search_shard_compute_done, search_shard_disk_done and search_shard_response_done */
    method ShardStepDone(i: nat, result: Result, env: Surroundings)
      requires Shaped(State()) && i < |parts| && parts[i].Waiting?
      modifies this
      ensures State() == StepDone(old(State()), env, i, result)
      decreases 2 - parts[i].stage.Index(), 0
    {
      hide StartStep, ShardFinished, OnlyPart;
      var stage := parts[i].stage;
      var response := if result.IsError() then R5XX else parts[i].response;
      outcomes := outcomes[i := outcomes[i] + [!result.IsError()]];
      match stage {
        case QueryCompute => StartStepOn(i, DiskRead, response, env);
        case DiskRead => StartStepOn(i, ResponseCompute, response, env);
        case ResponseCompute =>
          parts := parts[i := Finished(response)];
          FinishShard(response, env);
      }
    }

    /** search_shard_finished */
    method FinishShard(response: Result, env: Surroundings)
      requires Shaped(State())
      modifies this
      ensures State() == ShardFinished(old(State()), env, response)
    {
      if response.Code() > worst.Code() {
        worst := response;
      }
      shardsDone := shardsDone + 1;
      if shardsDone < |parts| {
        return;
      }
      if worst.IsError() {
        LogResult(worst);
      } else {
        Collate(env);
      }
    }

    method Collate(env: Surroundings)
      requires Shaped(State())
      modifies this`collation, this`log
      ensures State() == StartCollation(old(State()), env)
    {
      var best := PickCollator(workers, env.coins);
      collation := Collating(workers[best]);
      if env.refusesCollation {
        FinishCollation(R5XX);
      }
    }

    /** search_collate_done */
    method FinishCollation(result: Result)
      requires collation.Collating?
      modifies this`collation, this`log
      ensures State() == CollateDone(old(State()), result)
    {
      collation := Collated(collation.worker, !result.IsError());
      LogResult(if result.IsError() then R5XX else R4XX);
    }

    method LogResult(result: Result)
      modifies this`log
      ensures State() == Log(old(State()), result)
    {
      log := log + [Logged(result, now - startTime)];
    }

    /** A late answer arrives with the clock at its time. */
    method Receive(e: Event, env: Surroundings)
      requires Shaped(State()) && Pending(State(), e)
      modifies this
      ensures State() == Step(old(State()), env, e)
    {
      hide StepDone, CollateDone;
      now := e.time;
      match e
      case StepAnswer(i, result, _) => ShardStepDone(i, result, env);
      case CollationAnswer(result, _) => FinishCollation(result);
    }
  }
}
