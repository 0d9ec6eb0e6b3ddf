/** What every SEARCH logs, from what is refused to it and how its steps and its collation are answered. */
module SearchResults {
  import opened Basics
  import opened Gathers
  import opened Search

  // ----- What every search keeps -----

  /** Nothing is waiting for an answer. */
  ghost predicate Quiet(s: State) {
    (forall i | 0 <= i < |s.parts| :: !s.parts[i].Waiting?) && !s.collation.Collating?
  }

  /** All three steps were taken on every shard. */
  ghost predicate AllReported(s: State) {
    forall i | 0 <= i < |s.outcomes| :: |s.outcomes[i]| == 3
  }

  lemma ReportedIffDone(s: State)
    requires Inv(s) && LaunchedBefore(s, |s.parts|)
    ensures s.shardsDone == |s.parts| <==> AllReported(s)
    ensures AllReported(s) <==> forall i | 0 <= i < |s.parts| :: !s.parts[i].Waiting?
    ensures AllReported(s) ==> (s.worst == R4XX <==> !SomeFailed(s.outcomes))
  {
    CountedAll(s.parts, IsFinished);
    forall i | 0 <= i < |s.parts| ensures s.parts[i].Finished? <==> |s.outcomes[i]| == 3 {
      assert PartOk(s.parts[i], s.outcomes[i]);
    }
    if AllReported(s) {
      assert forall i | 0 <= i < |s.parts| :: s.parts[i].response == Verdict(s.outcomes[i]);
      if i :| 0 <= i < |s.parts| && false in s.outcomes[i] {
        assert s.parts[i] == Finished(R5XX);
      }
    }
  }

  // ----- The result, from what is refused and how the answers are -----

  function StageAt(k: nat): Stage {
    if k == 0 then QueryCompute else if k == 1 then DiskRead else ResponseCompute
  }

  /** Which steps, by the number of the shard and of the step, are refused at once. */
  function RefusedSteps(env: Surroundings): (nat, nat) -> bool {
    (i: nat, k: nat) => env.refusesStep(i, StageAt(k))
  }

  /** The step that a shard waits for has not been refused. */
  predicate Accepted(s: State, env: Surroundings, i: nat) {
    i < |s.parts| && s.parts[i].Waiting? ==> !env.refusesStep(i, s.parts[i].stage)
  }

  ghost predicate StepsTold(s: State, env: Surroundings, erred: bool) {
    Tally(s.outcomes, RefusedSteps(env), erred) && forall i: nat :: Accepted(s, env, i)
  }

  lemma {:induction false} StartStepTally(
    s: State, env: Surroundings, i: nat, stage: Stage, response: Result, erred: bool)
    requires Shaped(s) && i < |s.parts| && |s.outcomes[i]| == stage.Index()
    requires Tally(s.outcomes, RefusedSteps(env), erred)
    ensures Tally(StartStep(s, env, i, stage, response).outcomes, RefusedSteps(env), erred)
    ensures Accepted(StartStep(s, env, i, stage, response), env, i)
    decreases 2 - stage.Index(), 1
  {
    hide Tally;
    if env.refusesStep(i, stage) {
      StepDoneTally(Await(s, i, stage, response), env, i, R5XX, erred);
    }
  }

  /** The answer to a step of shard i, with the steps that fail at once after it. */
  lemma {:induction false} StepDoneTally(s: State, env: Surroundings, i: nat, result: Result, erred: bool)
    requires Shaped(s) && i < |s.parts| && s.parts[i].Waiting? && |s.outcomes[i]| == s.parts[i].stage.Index()
    requires Tally(s.outcomes, RefusedSteps(env), erred)
    requires env.refusesStep(i, s.parts[i].stage) ==> result.IsError()
    ensures Tally(StepDone(s, env, i, result).outcomes, RefusedSteps(env),
                  erred || (result.IsError() && !env.refusesStep(i, s.parts[i].stage)))
    ensures Accepted(StepDone(s, env, i, result), env, i)
    decreases 2 - s.parts[i].stage.Index(), 0
  {
    hide Tally, StartStep;
    var response := if result.IsError() then R5XX else s.parts[i].response;
    var t := Recorded(s, i, !result.IsError());
    var stage := s.parts[i].stage;
    assert StageAt(|s.outcomes[i]|) == stage;
    TallyRecords(s.outcomes, RefusedSteps(env), erred, i, !result.IsError());
    var erred' := erred || (result.IsError() && !env.refusesStep(i, stage));
    match stage
    case QueryCompute => StartStepTally(t, env, i, DiskRead, response, erred');
    case DiskRead => StartStepTally(t, env, i, ResponseCompute, response, erred');
    case ResponseCompute =>
  }
  /** What the collation came to, or is about to come to. */
  ghost predicate CollationTold(s: State, env: Surroundings, erred: bool) {
    match s.collation
    case NotYet => !erred
    case Collating(_) => !env.refusesCollation && !erred
    case Collated(_, succeeded) => succeeded == (!env.refusesCollation && !erred)
  }

  lemma {:induction false} StartStepCollation(s: State, env: Surroundings, i: nat, stage: Stage, response: Result)
    requires Shaped(s) && i < |s.parts| && s.collation == NotYet
    ensures CollationTold(StartStep(s, env, i, stage, response), env, false)
    decreases 2 - stage.Index(), 1
  {
    if env.refusesStep(i, stage) {
      StepDoneCollation(Await(s, i, stage, response), env, i, R5XX);
    }
  }

  lemma {:induction false} StepDoneCollation(s: State, env: Surroundings, i: nat, result: Result)
    requires Shaped(s) && i < |s.parts| && s.parts[i].Waiting? && s.collation == NotYet
    ensures CollationTold(StepDone(s, env, i, result), env, false)
    decreases 2 - s.parts[i].stage.Index(), 0
  {
    hide StartStep;
    var response := if result.IsError() then R5XX else s.parts[i].response;
    var t := Recorded(s, i, !result.IsError());
    match s.parts[i].stage
    case QueryCompute => StartStepCollation(t, env, i, DiskRead, response);
    case DiskRead => StartStepCollation(t, env, i, ResponseCompute, response);
    case ResponseCompute =>
  }

  /** Failures and the collation are explained by refusals and by the errors among the answers so far. */
  ghost predicate Told(s: State, env: Surroundings, erred: bool, collationErred: bool) {
    StepsTold(s, env, erred) && CollationTold(s, env, collationErred)
  }

  lemma LaunchOneTold(s: State, env: Surroundings, i: nat)
    requires Inv(s) && i < |s.parts| && LaunchedBefore(s, i) && Told(s, env, false, false)
    ensures Told(StartStep(s, env, i, QueryCompute, R4XX), env, false, false)
  {
    NothingYet(s, i);
    assert PartOk(s.parts[i], s.outcomes[i]);
    StartStepTally(s, env, i, QueryCompute, R4XX, false);
    StartStepCollation(s, env, i, QueryCompute, R4XX);
    hide StartStep, Tally, RefusedSteps, Inv;
    var r := StartStep(s, env, i, QueryCompute, R4XX);
    assert forall j: nat | j != i && j < |s.parts| :: Accepted(s, env, j) && r.parts[j] == s.parts[j];
  }

  lemma {:induction false} LaunchTold(s: State, env: Surroundings, i: nat)
    requires Inv(s) && i <= |s.parts| && LaunchedBefore(s, i) && Told(s, env, false, false)
    ensures Told(Launch(s, env, i), env, false, false)
    decreases |s.parts| - i
  {
    if i < |s.parts| {
      hide Inv, StartStep, LaunchedBefore, Told;
      LaunchOne(s, env, i);
      LaunchOneTold(s, env, i);
      LaunchTold(StartStep(s, env, i, QueryCompute, R4XX), env, i + 1);
    }
  }

  lemma ArriveTold(workers: seq<nat>, env: Surroundings, now: real)
    requires workers != []
    ensures Told(Arrive(workers, env, now), env, false, false)
  {
    var s := NewRequest(workers, now);
    CountedNone(s.parts, IsFinished);
    assert Tally(s.outcomes, RefusedSteps(env), false);
    hide Tally;
    LaunchTold(s, env, 0);
  }

  lemma StepTold(s: State, env: Surroundings, e: Event, erred: bool, collationErred: bool)
    requires Inv(s) && Pending(s, e) && Told(s, env, erred, collationErred)
    ensures Told(Step(s, env, e), env, erred || (e.StepAnswer? && e.result.IsError()),
                 collationErred || (e.CollationAnswer? && e.result.IsError()))
  {
    match e
    case StepAnswer(i, result, time) =>
      NothingYet(s, i);
      assert PartOk(s.parts[i], s.outcomes[i]) && Accepted(s, env, i);
      var t := s.(now := time);
      StepDoneTally(t, env, i, result, erred);
      StepDoneCollation(t, env, i, result);
      hide StepDone, Tally, RefusedSteps, Inv;
      var r := StepDone(t, env, i, result);
      assert forall j: nat | j != i && j < |s.parts| :: Accepted(s, env, j) && r.parts[j] == s.parts[j];
    case CollationAnswer(result, time) =>
      hide Tally, Inv;
      var r := CollateDone(s.(now := time), result);
      forall j: nat ensures Accepted(r, env, j) {
        assert Accepted(s, env, j);
      }
  }

  /** Event n is an answer that something waits for. */
  ghost predicate Taken(s: State, env: Surroundings, events: seq<Event>, n: nat)
    requires n < |events|
  {
    var before := Run(s, env, events[..n]);
    Shaped(before) && Pending(before, events[n])
  }

  /** Event n is an answer that something waits for, and an error. */
  ghost predicate TakenError(s: State, env: Surroundings, events: seq<Event>, n: nat)
    requires n < |events|
  {
    Taken(s, env, events, n) && events[n].result.IsError()
  }

  ghost predicate StepError(s: State, env: Surroundings, events: seq<Event>, n: nat)
    requires n < |events|
  {
    TakenError(s, env, events, n) && events[n].StepAnswer?
  }

  ghost predicate CollationError(s: State, env: Surroundings, events: seq<Event>, n: nat)
    requires n < |events|
  {
    TakenError(s, env, events, n) && events[n].CollationAnswer?
  }

  /** Some answer to a step, of those that something waited for, is an error. */
  ghost predicate StepErred(s: State, env: Surroundings, events: seq<Event>) {
    exists n: nat :: n < |events| && StepError(s, env, events, n)
  }

  /** The answer to the collation is an error. */
  ghost predicate CollationErred(s: State, env: Surroundings, events: seq<Event>) {
    exists n: nat :: n < |events| && CollationError(s, env, events, n)
  }

  ghost predicate SomeStepRefused(env: Surroundings, shards: nat) {
    exists i: nat, stage :: i < shards && env.refusesStep(i, stage)
  }

  /** The time of the last answer that something waited for, or else of the arrival. */
  ghost function LastTaken(s: State, env: Surroundings, events: seq<Event>): real
    decreases |events|
  {
    if events == [] then s.now
    else
      var m := |events| - 1;
      if Taken(s, env, events, m) then events[m].time else LastTaken(s, env, events[..m])
  }

  lemma TakenBefore(s: State, env: Surroundings, events: seq<Event>, n: nat)
    requires n < |events| - 1
    ensures StepError(s, env, events, n) <==> StepError(s, env, events[..|events| - 1], n)
    ensures CollationError(s, env, events, n) <==> CollationError(s, env, events[..|events| - 1], n)
  {
    assert events[..|events| - 1][..n] == events[..n];
  }

  lemma ErredGrows(s: State, env: Surroundings, events: seq<Event>)
    requires events != []
    ensures StepErred(s, env, events) <==>
              StepErred(s, env, events[..|events| - 1]) || StepError(s, env, events, |events| - 1)
    ensures CollationErred(s, env, events) <==>
              CollationErred(s, env, events[..|events| - 1]) || CollationError(s, env, events, |events| - 1)
  {
    var m := |events| - 1;
    var before := events[..m];
    forall n: nat | n < m
      ensures StepError(s, env, events, n) <==> StepError(s, env, before, n)
      ensures CollationError(s, env, events, n) <==> CollationError(s, env, before, n)
    {
      TakenBefore(s, env, events, n);
    }
    hide StepError, CollationError;
  }

  lemma {:induction false} RunTold(s: State, env: Surroundings, events: seq<Event>)
    requires Inv(s) && LaunchedBefore(s, |s.parts|) && Told(s, env, false, false)
    ensures Told(Run(s, env, events), env, StepErred(s, env, events), CollationErred(s, env, events))
    ensures Run(s, env, events).now == LastTaken(s, env, events)
    decreases |events|
  {
    if events != [] {
      var m := |events| - 1;
      RunInv(s, env, events[..m]);
      RunTold(s, env, events[..m]);
      ErredGrows(s, env, events);
      var t := Run(s, env, events[..m]);
      hide Inv, LaunchedBefore, Told, StepErred, CollationErred, StepDone, CollateDone;
      if Shaped(t) && Pending(t, events[m]) {
        StepTold(t, env, events[m], StepErred(s, env, events[..m]), CollationErred(s, env, events[..m]));
      }
    }
  }

  /** No step and no collation is refused, and no answer is an error. */
  ghost predicate AllWell(workers: seq<nat>, env: Surroundings, start: real, events: seq<Event>) {
    var s := Arrive(workers, env, start);
    && !SomeStepRefused(env, |workers|) && !StepErred(s, env, events)
    && (workers != [] ==> !env.refusesCollation && !CollationErred(s, env, events))
  }

  /** Once all steps were taken, some failed exactly if one was refused or answered with an error. */
  lemma FailedIff(s: State, env: Surroundings, erred: bool)
    requires Shaped(s) && AllReported(s) && StepsTold(s, env, erred)
    ensures SomeFailed(s.outcomes) <==> erred || SomeStepRefused(env, |s.workers|)
  {
    hide SomeFailed;
    if i: nat, stage: Stage :| i < |s.workers| && env.refusesStep(i, stage) {
      assert StageAt(stage.Index()) == stage;
      assert stage.Index() < |s.outcomes[i]| && RefusedSteps(env)(i, stage.Index());
    }
    if i: nat, k: nat :| i < |s.outcomes| && k < |s.outcomes[i]| && RefusedSteps(env)(i, k) {
      assert env.refusesStep(i, StageAt(k));
    }
  }

  /** Before a collation every step was taken, and none was refused or answered with an error. */
  lemma NothingHasFailed(s: State, env: Surroundings, erred: bool)
    requires Inv(s) && LaunchedBefore(s, |s.parts|) && StepsTold(s, env, erred) && s.collation != NotYet
    ensures AllReported(s) && !SomeStepRefused(env, |s.workers|) && !erred
    ensures Covers(s.workers, s.collation.worker)
  {
    ReportedIffDone(s);
    hide PartOk, CountOf, WorstOf, Covers, AllReported, LaunchedBefore, StepsTold, SomeStepRefused, SomeFailed;
    FailedIff(s, env, erred);
  }

  /** What is logged when nothing is pending any more. */
  lemma LoggedByReasons(s: State, env: Surroundings, erred: bool, collationErred: bool)
    requires Inv(s) && LaunchedBefore(s, |s.parts|) && Told(s, env, erred, collationErred)
    ensures if !Quiet(s) then s.log == []
            else
              var well := !SomeStepRefused(env, |s.workers|) && !erred && !env.refusesCollation && !collationErred;
              AllReported(s) && s.log == [Logged(if well then R4XX else R5XX, s.now - s.startTime)]
  {
    ReportedIffDone(s);
    if AllReported(s) {
      FailedIff(s, env, erred);
    }
    hide PartOk, CountOf, WorstOf, Covers, AllReported, LaunchedBefore, StepsTold, SomeStepRefused, SomeFailed;
  }

  /**
   Whatever fails at once and in whatever order the other answers come: a search logs at most once, and has logged
   exactly when nothing is pending any more, with the latency of its last answer, after all three steps of every shard;
   the result is 4XX exactly when no step and no collation was refused or answered with an error, and 5XX otherwise.
   */
  lemma SearchIsLoggedOnce(workers: seq<nat>, env: Surroundings, start: real, events: seq<Event>)
    ensures var s := Run(Arrive(workers, env, start), env, events);
      if !Quiet(s) then s.log == []
      else
        var end := LastTaken(Arrive(workers, env, start), env, events);
        && AllReported(s)
        && s.log == [Logged(if AllWell(workers, env, start, events) then R4XX else R5XX, end - start)]
  {
    hide *;
    if workers == [] {
      EmptyRun(env, start, events);
    } else {
      RunIsLogged(workers, env, start, events);
    }
  }

  lemma WellMeans(workers: seq<nat>, env: Surroundings, start: real, events: seq<Event>)
    requires workers != []
    ensures var s := Arrive(workers, env, start);
            AllWell(workers, env, start, events) <==>
              && !SomeStepRefused(env, |workers|) && !StepErred(s, env, events)
              && !env.refusesCollation && !CollationErred(s, env, events)
  {
  }

  lemma RunIsLogged(workers: seq<nat>, env: Surroundings, start: real, events: seq<Event>)
    requires workers != []
    ensures var s := Run(Arrive(workers, env, start), env, events);
      if !Quiet(s) then s.log == []
      else
        var end := LastTaken(Arrive(workers, env, start), env, events);
        && AllReported(s)
        && s.log == [Logged(if AllWell(workers, env, start, events) then R4XX else R5XX, end - start)]
  {
    hide *;
    var s0 := Arrive(workers, env, start);
    ArriveInv(workers, env, start);
    ArriveTold(workers, env, start);
    RunInv(s0, env, events);
    RunTold(s0, env, events);
    LoggedByReasons(Run(s0, env, events), env, StepErred(s0, env, events), CollationErred(s0, env, events));
    WellMeans(workers, env, start, events);
  }

  lemma {:induction false} EmptyRun(env: Surroundings, start: real, events: seq<Event>)
    ensures Run(Arrive([], env, start), env, events) == Arrive([], env, start)
    ensures Quiet(Arrive([], env, start)) && AllReported(Arrive([], env, start))
    ensures Arrive([], env, start).log == [Logged(R4XX, 0.0)]
    ensures AllWell([], env, start, events) && LastTaken(Arrive([], env, start), env, events) == start
    decreases |events|
  {
    var s0 := Arrive([], env, start);
    if events != [] {
      var m := |events| - 1;
      EmptyRun(env, start, events[..m]);
      ErredGrows(s0, env, events);
      hide StepErred, CollationErred;
    }
  }

  /**
   A collation starts only after all three steps of every shard, none of them refused and none answered with an error,
   and on a worker that covers a maximal number of the chosen shards.
   */
  lemma CollationComesLast(workers: seq<nat>, env: Surroundings, start: real, events: seq<Event>)
    ensures var s0 := Arrive(workers, env, start);
      var s := Run(s0, env, events);
      s.collation != NotYet ==>
        && AllReported(s) && !SomeStepRefused(env, |workers|) && !StepErred(s0, env, events)
        && Covers(workers, s.collation.worker)
  {
    if workers == [] {
      EmptyRun(env, start, events);
    } else {
      hide Run, Arrive, Inv, LaunchedBefore, AllReported, StepErred, CollationErred, SomeStepRefused, StepsTold, Covers;
      var s0 := Arrive(workers, env, start);
      ArriveInv(workers, env, start);
      ArriveTold(workers, env, start);
      RunInv(s0, env, events);
      RunTold(s0, env, events);
      var s := Run(s0, env, events);
      if s.collation != NotYet {
        NothingHasFailed(s, env, StepErred(s0, env, events));
      }
    }
  }
}
