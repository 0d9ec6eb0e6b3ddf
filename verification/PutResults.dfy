/** What every PUT logs, from what is refused to it and how its steps are answered; and when it never logs. */
module PutResults {
  import opened Basics
  import opened Gathers
  import opened Put

  // ----- What is refused, and how the answers are -----

  /** The step that write i waits for, or is about to take, is refused at once. */
  predicate Refused(s: State, env: Surroundings, i: nat)
    requires Waiting(s, i)
  {
    if s.writes[i].phase.Compute? then env.refusesCompute(i) else env.refusesDisk(i)
  }

  function RefusedSteps(env: Surroundings): (nat, nat) -> bool {
    (k: nat, m: nat) => if m == 0 then env.refusesCompute(k) else env.refusesDisk(k)
  }

  function Outcomes(writes: seq<Write>): (r: seq<seq<bool>>)
    ensures |r| == |writes|
    ensures forall k | 0 <= k < |writes| :: r[k] == writes[k].outcomes
  {
    seq(|writes|, k requires 0 <= k < |writes| => writes[k].outcomes)
  }

  predicate Accepted(s: State, env: Surroundings, i: nat) {
    Waiting(s, i) ==> !Refused(s, env, i)
  }

  /** Writes have taken as many steps as they should have. */
  ghost predicate Lengths(writes: seq<Write>) {
    forall w | w in writes :: |w.outcomes| == 2 - w.phase.Remaining()
  }

  ghost predicate Counted(s: State, env: Surroundings, erred: bool) {
    Lengths(s.writes) && Tally(Outcomes(s.writes), RefusedSteps(env), erred)
  }

  /** Failures are explained by refusals and by the errors among the answers so far. */
  ghost predicate Told(s: State, env: Surroundings, erred: bool) {
    Counted(s, env, erred) && forall i: nat :: Accepted(s, env, i)
  }

  /** The same, with a step of write i just being answered. */
  ghost predicate ToldBut(s: State, env: Surroundings, erred: bool, i: nat) {
    Counted(s, env, erred) && forall j: nat | j != i :: Accepted(s, env, j)
  }

  lemma AnsweredTold(s: State, env: Surroundings, i: nat, result: Result, erred: bool)
    requires Waiting(s, i) && ToldBut(s, env, erred, i)
    requires Refused(s, env, i) ==> result.IsError()
    ensures ToldBut(Answered(s, i, result), env, erred || (result.IsError() && !Refused(s, env, i)), i)
  {
    var t := Answered(s, i, result);
    assert s.writes[i] in s.writes;
    assert Outcomes(t.writes) == Outcomes(s.writes)[i := Outcomes(s.writes)[i] + [!result.IsError()]];
    assert RefusedSteps(env)(i, |s.writes[i].outcomes|) == Refused(s, env, i);
    TallyRecords(Outcomes(s.writes), RefusedSteps(env), erred, i, !result.IsError());
    hide Tally;
    forall j: nat | j != i ensures Accepted(t, env, j) {
      assert Accepted(s, env, j);
    }
  }

  lemma OpenedTold(s: State, env: Surroundings, worker: nat, erred: bool)
    requires Told(s, env, erred)
    ensures ToldBut(Opened(s, worker), env, erred, |s.writes|)
  {
    var t := Opened(s, worker);
    assert Outcomes(t.writes) == Outcomes(s.writes) + [[]];
    TallyOpens(Outcomes(s.writes), RefusedSteps(env), erred);
    hide Tally;
    forall j: nat | j != |s.writes| ensures Accepted(t, env, j) {
      assert Accepted(s, env, j);
    }
  }

  lemma SameWritesTold(s: State, r: State, env: Surroundings, erred: bool)
    requires r.writes == s.writes && Told(s, env, erred)
    ensures Told(r, env, erred)
  {
    forall i: nat ensures Accepted(r, env, i) {
      assert Accepted(s, env, i);
    }
  }

  lemma AcceptedToo(s: State, env: Surroundings, erred: bool, i: nat)
    requires ToldBut(s, env, erred, i) && Accepted(s, env, i)
    ensures Told(s, env, erred)
  {
  }

  /** An answer to a write, with all that follows at once. */
  lemma {:induction false} StepDoneTold(s: State, env: Surroundings, i: nat, result: Result, erred: bool)
    requires s.workers != [] && Waiting(s, i) && ToldBut(s, env, erred, i)
    requires Refused(s, env, i) ==> result.IsError()
    ensures Told(StepDone(s, env, i, result), env, erred || (result.IsError() && !Refused(s, env, i)))
    decreases if result.IsError() || s.writes[i].response.IsError() then 0 else 1, s.writes[i].phase.Remaining(), 0
  {
    hide Told, ToldBut, PrimaryDone, ReplicaDone;
    var t := Answered(s, i, result);
    var erred' := erred || (result.IsError() && !Refused(s, env, i));
    AnsweredTold(s, env, i, result, erred);
    var w := t.writes[i];
    if w.phase.Disk? && env.refusesDisk(i) {
      StepDoneTold(t, env, i, R5XX, erred');
    } else {
      AcceptedToo(t, env, erred', i);
      if w.phase.Done? {
        if w.worker == s.workers[0] {
          PrimaryDoneTold(t, env, w.response, erred');
        } else {
          SameWritesTold(t, ReplicaDone(t, w.response), env, erred');
        }
      }
    }
  }

  lemma {:induction false} PrimaryDoneTold(s: State, env: Surroundings, result: Result, erred: bool)
    requires s.workers != [] && Told(s, env, erred)
    ensures Told(PrimaryDone(s, env, result), env, erred)
    decreases if result.IsError() then 0 else 1, 0, 0
  {
    hide Told, Launch;
    var t := s.(completionTime := s.now);
    if result.IsError() || |s.workers| == 1 {
      SameWritesTold(s, Log(t, result), env, erred);
    } else {
      var u := t.(replicaCount := |s.workers| - 1, replicasDone := 0, worst := R4XX);
      SameWritesTold(s, u, env, erred);
      LaunchTold(u, env, 1, erred);
    }
  }

  lemma {:induction false} LaunchTold(s: State, env: Surroundings, i: nat, erred: bool)
    requires s.workers != [] && i <= |s.workers| && Told(s, env, erred)
    ensures Told(Launch(s, env, i), env, erred)
    decreases 0, 5, |s.workers| - i
  {
    hide Told, StartWrite;
    if i < |s.workers| {
      StartWriteTold(s, env, s.workers[i], erred);
      LaunchTold(StartWrite(s, env, s.workers[i]), env, i + 1, erred);
    }
  }

  lemma {:induction false} StartWriteTold(s: State, env: Surroundings, worker: nat, erred: bool)
    requires s.workers != [] && Told(s, env, erred)
    ensures Told(StartWrite(s, env, worker), env, erred)
    decreases 0, 4, 0
  {
    hide Told, ToldBut, StepDone;
    OpenedTold(s, env, worker, erred);
    var k, t := |s.writes|, Opened(s, worker);
    if env.refusesCompute(k) {
      StepDoneTold(t, env, k, R5XX, erred);
    } else {
      AcceptedToo(t, env, erred, k);
    }
  }

  lemma StepTold(s: State, env: Surroundings, e: Event, erred: bool)
    requires s.workers != [] && Pending(s, e) && Told(s, env, erred)
    ensures Told(Step(s, env, e), env, erred || (e.Answer? && e.result.IsError()))
  {
    var t := s.(now := e.time);
    SameWritesTold(s, t, env, erred);
    match e
    case Answer(i, result, _) =>
      assert Accepted(s, env, i);
      hide StepDone;
      StepDoneTold(t, env, i, result, erred);
    case Transfer(workers, _) => SameWritesTold(s, Moved(t, workers), env, erred);
  }

  /** Event n is a transfer, or an answer that something waits for. */
  ghost predicate Taken(s: State, env: Surroundings, events: seq<Event>, n: nat)
    requires s.workers != [] && n < |events|
  {
    Pending(Run(s, env, events[..n]), events[n])
  }

  /** Event n is an answer that something waits for, and an error. */
  ghost predicate TakenError(s: State, env: Surroundings, events: seq<Event>, n: nat)
    requires s.workers != [] && n < |events|
  {
    Taken(s, env, events, n) && events[n].Answer? && events[n].result.IsError()
  }

  /** Some answer, of those that something waited for, is an error. */
  ghost predicate Erred(s: State, env: Surroundings, events: seq<Event>)
    requires s.workers != []
  {
    exists n: nat :: n < |events| && TakenError(s, env, events, n)
  }

  ghost predicate PrimaryError(s: State, env: Surroundings, events: seq<Event>, n: nat)
    requires s.workers != [] && n < |events|
  {
    TakenError(s, env, events, n) && events[n].write == 0
  }

  /** Some answer to the primary's write is an error. */
  ghost predicate PrimaryErred(s: State, env: Surroundings, events: seq<Event>)
    requires s.workers != []
  {
    exists n: nat :: n < |events| && PrimaryError(s, env, events, n)
  }

  /** The time of the last answer to the primary's write, or else of the arrival. */
  ghost function PrimaryEnd(s: State, env: Surroundings, events: seq<Event>): real
    requires s.workers != []
    decreases |events|
  {
    if events == [] then s.startTime
    else
      var m := |events| - 1;
      var e := events[m];
      if Taken(s, env, events, m) && e.Answer? && e.write == 0 then e.time else PrimaryEnd(s, env, events[..m])
  }

  lemma TakenBefore(s: State, env: Surroundings, events: seq<Event>, n: nat)
    requires s.workers != [] && n < |events| - 1
    ensures TakenError(s, env, events, n) <==> TakenError(s, env, events[..|events| - 1], n)
    ensures PrimaryError(s, env, events, n) <==> PrimaryError(s, env, events[..|events| - 1], n)
  {
    assert events[..|events| - 1][..n] == events[..n];
  }

  lemma ErredGrows(s: State, env: Surroundings, events: seq<Event>)
    requires s.workers != [] && events != []
    ensures Erred(s, env, events) <==>
              Erred(s, env, events[..|events| - 1]) || TakenError(s, env, events, |events| - 1)
  {
    var m := |events| - 1;
    var before := events[..m];
    forall n: nat | n < m ensures TakenError(s, env, events, n) <==> TakenError(s, env, before, n) {
      TakenBefore(s, env, events, n);
    }
    hide TakenError;
  }

  lemma PrimaryErredGrows(s: State, env: Surroundings, events: seq<Event>)
    requires s.workers != [] && events != []
    ensures PrimaryErred(s, env, events) <==>
              PrimaryErred(s, env, events[..|events| - 1]) || PrimaryError(s, env, events, |events| - 1)
  {
    var m := |events| - 1;
    var before := events[..m];
    forall n: nat | n < m ensures PrimaryError(s, env, events, n) <==> PrimaryError(s, env, before, n) {
      TakenBefore(s, env, events, n);
    }
    hide TakenError, PrimaryError;
  }

  /**
   What an answer makes of the write it is for. The disk step follows also a compute step that has failed; if it is
   refused, the write ends at once with a 5XX.
   */
  lemma WriteMovesOn(s: State, env: Surroundings, i: nat, result: Result)
    requires s.workers != [] && Waiting(s, i)
    ensures var w, r := s.writes[i], StepDone(s, env, i, result).writes[i];
            var response := if result.IsError() then R5XX else w.response;
            var steps := w.outcomes + [!result.IsError()];
            if w.phase.Disk? then r == Write(w.worker, Done(s.now), response, steps)
            else if env.refusesDisk(i) then r == Write(w.worker, Done(s.now), R5XX, steps + [false])
            else r == Write(w.worker, Disk, response, steps)
  {
    hide PrimaryDone, ReplicaDone;
    var t := Answered(s, i, result);
    if t.writes[i].phase.Disk? && env.refusesDisk(i) {
      LastStep(t, env, i, R5XX);
    } else if t.writes[i].phase.Done? {
      LastStep(s, env, i, result);
    }
  }

  lemma LastStep(s: State, env: Surroundings, i: nat, result: Result)
    requires s.workers != [] && Waiting(s, i) && s.writes[i].phase.Disk?
    ensures var w, r := s.writes[i], StepDone(s, env, i, result).writes[i];
            var response := if result.IsError() then R5XX else w.response;
            r == Write(w.worker, Done(s.now), response, w.outcomes + [!result.IsError()])
  {
    hide PrimaryDone, ReplicaDone;
  }

  /** How the primary's write stands, from what was refused and answered to it. */
  ghost predicate PrimaryTold(s: State, env: Surroundings, erred: bool) {
    && s.writes != []
    && var w, well := s.writes[0], !env.refusesCompute(0) && !erred;
       match w.phase
       case Compute => well && w.response == R4XX
       case Disk => !env.refusesDisk(0) && w.response == if well then R4XX else R5XX
       case Done(_) => w.response == if well && !env.refusesDisk(0) then R4XX else R5XX
  }

  lemma StepPrimaryTold(s: State, env: Surroundings, e: Event, erred: bool)
    requires s.workers != [] && Pending(s, e) && PrimaryTold(s, env, erred)
    ensures PrimaryTold(Step(s, env, e), env, erred || (e.Answer? && e.result.IsError() && e.write == 0))
  {
    match e
    case Answer(i, result, _) =>
      var t := s.(now := e.time);
      if i == 0 {
        WriteMovesOn(t, env, 0, result);
      }
      hide StepDone;
    case Transfer(_, _) =>
  }

  lemma {:induction false} RunPrimaryTold(s: State, env: Surroundings, events: seq<Event>)
    requires s.workers != [] && PrimaryTold(s, env, false)
    ensures PrimaryTold(Run(s, env, events), env, PrimaryErred(s, env, events))
    decreases |events|
  {
    if events != [] {
      var m := |events| - 1;
      RunPrimaryTold(s, env, events[..m]);
      PrimaryErredGrows(s, env, events);
      hide PrimaryTold, PrimaryErred, Step, Pending;
      var t := Run(s, env, events[..m]);
      if Pending(t, events[m]) {
        StepPrimaryTold(t, env, events[m], PrimaryErred(s, env, events[..m]));
      }
    }
  }

  lemma ArrivePrimaryTold(workers: seq<nat>, env: Surroundings, start: real)
    requires workers != []
    ensures PrimaryTold(Arrive(workers, env, start), env, false)
  {
    var t := Opened(NewRequest(workers, start), workers[0]);
    if env.refusesCompute(0) {
      WriteMovesOn(t, env, 0, R5XX);
    }
    hide StepDone;
  }

  /** If the primary's write has ended, it was at this time. */
  predicate EndedAt(s: State, time: real) {
    s.writes != [] && (s.writes[0].phase.Done? ==> s.writes[0].phase.at == time)
  }

  lemma StepEnds(s: State, env: Surroundings, e: Event, time: real)
    requires s.workers != [] && Pending(s, e) && EndedAt(s, time)
    ensures EndedAt(Step(s, env, e), if e.Answer? && e.write == 0 then e.time else time)
  {
    hide StepDone;
  }

  lemma {:induction false} RunTold(s: State, env: Surroundings, events: seq<Event>)
    requires s.workers != [] && Told(s, env, false) && EndedAt(s, s.startTime)
    ensures Told(Run(s, env, events), env, Erred(s, env, events))
    ensures EndedAt(Run(s, env, events), PrimaryEnd(s, env, events))
    decreases |events|
  {
    if events != [] {
      var m := |events| - 1;
      RunTold(s, env, events[..m]);
      ErredGrows(s, env, events);
      hide Told, Erred, Step, Pending, EndedAt;
      var t := Run(s, env, events[..m]);
      if Pending(t, events[m]) {
        StepTold(t, env, events[m], Erred(s, env, events[..m]));
        StepEnds(t, env, events[m], PrimaryEnd(s, env, events[..m]));
      }
    }
  }

  lemma ArriveTold(workers: seq<nat>, env: Surroundings, start: real)
    requires workers != []
    ensures Told(Arrive(workers, env, start), env, false) && EndedAt(Arrive(workers, env, start), start)
  {
    var s := NewRequest(workers, start);
    StartWriteTold(s, env, workers[0], false);
    hide Told;
  }

  // ----- What every put keeps -----

  /** Nothing is waiting for an answer. */
  ghost predicate Quiet(s: State) {
    forall i | 0 <= i < |s.writes| :: s.writes[i].phase.Done?
  }

  /** Both steps on the primary and on every replica succeeded. */
  ghost predicate Succeeded(s: State) {
    |s.writes| == |s.workers| && forall i | 0 <= i < |s.writes| :: s.writes[i].outcomes == [true, true]
  }

  /** Neither step of the primary's write or of a replica's is refused. */
  ghost predicate NoneRefused(env: Surroundings, writes: nat) {
    forall k: nat | k < writes :: !env.refusesCompute(k) && !env.refusesDisk(k)
  }

  /**
   Logged exactly when nothing is pending any more: a 4XX if nothing was refused and no answer was an error, a 5XX
   otherwise, and the time until the last answer to the primary's write.
   */
  ghost predicate LoggedWell(workers: seq<nat>, env: Surroundings, start: real, events: seq<Event>)
    requires workers != []
  {
    var s0 := Arrive(workers, env, start);
    var s := Run(s0, env, events);
    if !Quiet(s) then s.log == []
    else
      var result := if NoneRefused(env, |workers|) && !Erred(s0, env, events) then R4XX else R5XX;
      s.log == [Logged(result, PrimaryEnd(s0, env, events) - start)]
  }

  lemma TwoSteps(w: Write)
    requires WriteOk(w) && w.phase.Done?
    ensures w.response == if w.outcomes == [true, true] then R4XX else R5XX
  {
    if false in w.outcomes {
      assert w.outcomes != [true, true];
    } else {
      var first, second := w.outcomes[0], w.outcomes[1];
      assert first in w.outcomes && second in w.outcomes;
      assert first == true && second == true;
      assert w.outcomes == [true, true];
    }
  }

  /** A quiet put has succeeded exactly if nothing was refused and no answer was an error. */
  lemma SucceededIff(s: State, env: Surroundings, erred: bool)
    requires Inv(s) && !s.overtaken && Quiet(s) && Told(s, env, erred)
    ensures Succeeded(s) <==> NoneRefused(env, |s.workers|) && !erred
  {
    var outcomes := Outcomes(s.writes);
    forall k | 0 <= k < |s.writes|
      ensures |outcomes[k]| == 2 && (outcomes[k] == [true, true] <==> false !in outcomes[k])
    {
      TwoSteps(s.writes[k]);
    }
    if Succeeded(s) {
      assert !SomeFailed(outcomes);
      forall k: nat | k < |s.workers| ensures !env.refusesCompute(k) && !env.refusesDisk(k) {
        assert 0 < |outcomes[k]| && RefusedSteps(env)(k, 0) == env.refusesCompute(k);
        assert 1 < |outcomes[k]| && RefusedSteps(env)(k, 1) == env.refusesDisk(k);
      }
    }
    if NoneRefused(env, |s.workers|) && !erred {
      NoneFailed(s, env);
      AllStarted(s);
    }
  }

  /** A quiet put whose first write has not failed has written to all. */
  lemma AllStarted(s: State)
    requires Inv(s) && !s.overtaken && Quiet(s) && false !in s.writes[0].outcomes
    ensures |s.writes| == |s.workers|
  {
    hide CountOf, WorstOf;
    assert WriteOk(s.writes[0]);
  }

  lemma NoneFailed(s: State, env: Surroundings)
    requires NoneRefused(env, |s.workers|) && |s.writes| <= |s.workers| && Told(s, env, false)
    ensures forall k | 0 <= k < |s.writes| :: false !in s.writes[k].outcomes
  {
    var outcomes := Outcomes(s.writes);
    assert !SomeRefused(outcomes, RefusedSteps(env));
    assert !SomeFailed(outcomes);
    forall k | 0 <= k < |s.writes| ensures false !in s.writes[k].outcomes {
      assert false !in outcomes[k];
    }
  }

  lemma LoggedByInv(s: State)
    requires Inv(s) && !s.overtaken
    ensures s.writes != []
    ensures if !Quiet(s) then s.log == []
            else
              && s.writes[0].phase.Done?
              && s.log == [Logged(if Succeeded(s) then R4XX else R5XX, s.writes[0].phase.at - s.startTime)]
  {
    hide CountOf;
    forall i | 0 <= i < |s.writes| && s.writes[i].phase.Done?
      ensures s.writes[i].response == if s.writes[i].outcomes == [true, true] then R4XX else R5XX
    {
      TwoSteps(s.writes[i]);
    }
    if !Before(s) {
      CountedAll(s.writes, IsDone);
      if i :| 0 <= i < |s.writes| && HasFailed(s.writes[i]) {
        assert !Succeeded(s);
      }
    }
  }

  lemma LoggedByReasons(s: State, env: Surroundings, erred: bool, end: real)
    requires Inv(s) && !s.overtaken && Told(s, env, erred) && EndedAt(s, end)
    ensures if !Quiet(s) then s.log == []
            else
              var result := if NoneRefused(env, |s.workers|) && !erred then R4XX else R5XX;
              s.log == [Logged(result, end - s.startTime)]
  {
    LoggedByInv(s);
    hide Inv, Told, Succeeded, NoneRefused, Quiet;
    if Quiet(s) {
      SucceededIff(s, env, erred);
    }
  }

  /**
   On a shard without a replica on the primary's worker, whatever fails at once and in whatever order late answers and
   transfers come: if no transfer comes while the primary's write is on its way, a put logs at most once, and has logged
   exactly when nothing is pending any more. The result is 4XX exactly when no step on the primary or on a replica was
   refused and no answer was an error, and 5XX otherwise; the latency ends with the last answer to the primary's write.
   Otherwise it never logs.
   */
  lemma PutIsLoggedOnce(workers: seq<nat>, env: Surroundings, start: real, events: seq<Event>)
    requires PrimaryIsUnique(workers)
    ensures var s := Run(Arrive(workers, env, start), env, events);
      if s.overtaken then s.log == [] else LoggedWell(workers, env, start, events)
  {
    RunIsLogged(workers, env, start, events);
    hide Run, Arrive, LoggedWell;
  }

  lemma RunIsLogged(workers: seq<nat>, env: Surroundings, start: real, events: seq<Event>)
    requires workers != [] && PrimaryIsUnique(workers)
    ensures var s := Run(Arrive(workers, env, start), env, events);
      if s.overtaken then s.log == [] else LoggedWell(workers, env, start, events)
  {
    hide *;
    var s0 := Arrive(workers, env, start);
    ArriveInv(workers, env, start);
    ArriveTold(workers, env, start);
    RunInv(s0, env, events);
    RunTold(s0, env, events);
    var s := Run(s0, env, events);
    if s.overtaken {
      OvertakenIsLost(s);
    } else {
      LoggedByReasons(s, env, Erred(s0, env, events), PrimaryEnd(s0, env, events));
      LoggedWellIs(workers, env, start, events);
    }
  }

  lemma OvertakenIsLost(s: State)
    requires Inv(s) && s.overtaken
    ensures s.log == []
  {
  }

  lemma LoggedWellIs(workers: seq<nat>, env: Surroundings, start: real, events: seq<Event>)
    requires workers != []
    ensures var s0 := Arrive(workers, env, start);
            var s := Run(s0, env, events);
            LoggedWell(workers, env, start, events) <==>
              if !Quiet(s) then s.log == []
              else
                var result := if NoneRefused(env, |workers|) && !Erred(s0, env, events) then R4XX else R5XX;
                s.log == [Logged(result, PrimaryEnd(s0, env, events) - start)]
  {
  }

  /** Once nothing is pending any more, a put has logged well if and only if it was not overtaken. */
  lemma LoggedWellIffNotOvertaken(workers: seq<nat>, env: Surroundings, start: real, events: seq<Event>)
    requires PrimaryIsUnique(workers) && Quiet(Run(Arrive(workers, env, start), env, events))
    ensures LoggedWell(workers, env, start, events) <==> !Run(Arrive(workers, env, start), env, events).overtaken
  {
    hide Run, Arrive, Quiet, NoneRefused, Erred, PrimaryEnd;
    PutIsLoggedOnce(workers, env, start, events);
  }

  /** Event n is a transfer that comes while the primary's write is on its way. */
  predicate Overtakes(s: State, env: Surroundings, events: seq<Event>, n: nat)
    requires s.workers != [] && n < |events|
  {
    var before := Run(s, env, events[..n]);
    events[n].Transfer? && Pending(before, events[n]) && Waiting(before, 0)
  }

  /** What being overtaken means for the events of a run. */
  lemma {:induction false} OvertakenIff(s: State, env: Surroundings, events: seq<Event>)
    requires s.workers != [] && !s.overtaken
    ensures Run(s, env, events).overtaken <==> exists n | 0 <= n < |events| :: Overtakes(s, env, events, n)
    decreases |events|
  {
    if events != [] {
      var m := |events| - 1;
      var before, e := events[..m], events[m];
      OvertakenIff(s, env, before);
      forall n | 0 <= n < m ensures Overtakes(s, env, events, n) <==> Overtakes(s, env, before, n) {
        assert events[..n] == before[..n];
      }
      var t := Run(s, env, before);
      StepOvertakes(t, env, e);
      hide Step, Pending, StepDone;
      if Run(s, env, events).overtaken && !t.overtaken {
        assert Overtakes(s, env, events, m);
      }
    }
  }

  lemma StepOvertakes(t: State, env: Surroundings, e: Event)
    requires t.workers != []
    ensures Pending(t, e) ==> (Step(t, env, e).overtaken <==> t.overtaken || (e.Transfer? && Waiting(t, 0)))
  {
    hide StepDone;
  }

  /**
   Nothing is written to a replica unless both steps on the primary were accepted and answered without an error, and
   then once to each.
   */
  lemma ReplicasFollowPrimary(workers: seq<nat>, env: Surroundings, start: real, events: seq<Event>)
    requires PrimaryIsUnique(workers)
    ensures var s0 := Arrive(workers, env, start);
      var s := Run(s0, env, events);
      && s.writes != []
      && (if |s.writes| == 1 then s.writes[0].worker == workers[0]
          else
            && s.writes[0].phase.Done?
            && !env.refusesCompute(0) && !env.refusesDisk(0) && !PrimaryErred(s0, env, events)
            && |s.writes| == |workers| && forall i | 0 <= i < |workers| :: s.writes[i].worker == workers[i])
  {
    hide Run, Arrive, CountOf, WorstOf, PrimaryErred;
    var s0 := Arrive(workers, env, start);
    ArriveInv(workers, env, start);
    RunInv(s0, env, events);
    ArrivePrimaryTold(workers, env, start);
    RunPrimaryTold(s0, env, events);
  }
}
