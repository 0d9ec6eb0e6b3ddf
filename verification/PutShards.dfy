/**
 Shards with a replica on the primary's worker: what their puts come to, and which transfers make such shards. Puts log
 well on exactly the other ones, unless a transfer overtakes them.
 */
module PutShards {
  import opened Basics
  import opened DynArrays
  import opened Put
  import opened PutResults
  import Indexing
  import Primes

  // ----- A replica on the primary's worker -----

  /** A disk step can be refused only after the compute step of the same write was: otherwise its bytes fit again. */
  ghost predicate Plausible(env: Surroundings) {
    forall k :: env.refusesDisk(k) ==> env.refusesCompute(k)
  }

  /** The worker of write j has no place in its queue when the write begins, and nothing else fails at once. */
  function QueueFullFor(j: nat): Surroundings {
    Surroundings(k => k == j, _ => false)
  }

  /** The primary's write takes one second, and the disk step of write j ends one second later. */
  function CopyEnds(j: nat, time: real): seq<Event> {
    [Answer(0, R4XX, time), Answer(0, R4XX, time + 1.0), Answer(j, R4XX, time + 2.0)]
  }

  /** A write as it begins: refused at the door, or waiting for its compute step. */
  function Begun(env: Surroundings, k: nat, worker: nat): Write {
    if env.refusesCompute(k) then Write(worker, Disk, R5XX, [false]) else Write(worker, Compute, R4XX, [])
  }

  ghost predicate DisksAccept(env: Surroundings) {
    forall k :: !env.refusesDisk(k)
  }

  /** When no disk refuses, the launch loop begins one write for each replica, and ends none. */
  lemma {:induction false} LaunchBegins(s: State, env: Surroundings, i: nat)
    requires 0 < i <= |s.workers| && DisksAccept(env)
    ensures var r := Launch(s, env, i);
      r.log == s.log && |r.writes| == |s.writes| + |s.workers| - i
      && (forall k | 0 <= k < |s.writes| :: r.writes[k] == s.writes[k])
      && (forall k | i <= k < |s.workers| ::
          r.writes[|s.writes| + k - i] == Begun(env, |s.writes| + k - i, s.workers[k]))
    decreases |s.workers| - i
  {
    if i < |s.workers| {
      StartBegins(s, env, s.workers[i]);
      hide StartWrite, Begun;
      LaunchBegins(StartWrite(s, env, s.workers[i]), env, i + 1);
    }
  }

  lemma StartBegins(s: State, env: Surroundings, worker: nat)
    requires s.workers != [] && DisksAccept(env)
    ensures var r := StartWrite(s, env, worker);
      r.log == s.log && r.writes == s.writes + [Begun(env, |s.writes|, worker)] && r.workers == s.workers
  {
    var k, t := |s.writes|, Opened(s, worker);
    if env.refusesCompute(k) {
      assert StepDone(t, env, k, R5XX) == Answered(t, k, R5XX);
      assert t.writes[k].outcomes + [false] == [false];
      assert Answered(t, k, R5XX).writes[k] == Begun(env, k, worker);
      assert Answered(t, k, R5XX).writes == s.writes + [Begun(env, k, worker)];
    }
  }

  /** The first step of a write whose disk does not refuse. */
  lemma FirstStep(s: State, env: Surroundings, i: nat, time: real)
    requires s.workers != [] && Waiting(s, i) && s.writes[i].phase.Compute? && s.writes[i].response == R4XX
    requires DisksAccept(env)
    ensures var r := Step(s, env, Answer(i, R4XX, time));
      && r == s.(now := time, writes := r.writes) && |r.writes| == |s.writes|
      && r.writes[i].phase.Disk? && r.writes[i].response == R4XX && r.writes[i].worker == s.writes[i].worker
      && forall k | 0 <= k < |s.writes| && k != i :: r.writes[k] == s.writes[k]
  {
  }

  /** The last step of a write on the primary's worker, whoever's write it is: all replicas start. */
  lemma TakenForPrimary(s: State, env: Surroundings, i: nat, time: real)
    requires |s.workers| > 1 && Waiting(s, i) && s.writes[i].phase.Disk? && s.writes[i].response == R4XX
    requires s.writes[i].worker == s.workers[0] && DisksAccept(env)
    ensures var r := Step(s, env, Answer(i, R4XX, time));
      && r.log == s.log && |r.writes| == |s.writes| + |s.workers| - 1 && r.writes[i].phase == Done(time)
      && r.writes[i].response == R4XX && r.workers == s.workers
      && (forall k | 0 <= k < |s.writes| && k != i :: r.writes[k] == s.writes[k])
      && (forall k | 1 <= k < |s.workers| ::
          r.writes[|s.writes| + k - 1] == Begun(env, |s.writes| + k - 1, s.workers[k]))
  {
    hide Launch, Begun, DisksAccept;
    var answered := Answered(s.(now := time), i, R4XX);
    var t := answered.(
      completionTime := time, replicaCount := |s.workers| - 1, replicasDone := 0, worst := R4XX);
    assert PrimaryDone(answered, env, R4XX) == Launch(t, env, 1);
    LaunchBegins(t, env, 1);
  }

  /** The end of a refused copy on the primary's worker is taken for the primary's, and ends the put. */
  lemma RefusedCopyEnds(s: State, env: Surroundings, j: nat, time: real)
    requires s.workers != [] && Waiting(s, j) && s.writes[j].phase.Disk? && s.writes[j].response == R5XX
    requires s.writes[j].worker == s.workers[0]
    ensures var r := Step(s, env, Answer(j, R4XX, time));
      && r.log == s.log + [Logged(R5XX, time - s.startTime)] && |r.writes| == |s.writes|
      && forall k | 0 <= k < |s.writes| && k != j :: r.writes[k] == s.writes[k]
  {
    var answered := Answered(s.(now := time), j, R4XX);
    assert PrimaryDone(answered, env, R5XX) == Log(answered.(completionTime := time), R5XX);
  }

  /**
   When some copy shares the primary's worker, a put can log before all is done, or with the wrong latency: let the
   queue of that worker be full when the last copy on it begins.
   */
  lemma SharedPrimaryMislogs(workers: seq<nat>, j: nat, start: real)
    requires 0 < j < |workers| && workers[j] == workers[0]
    ensures !LoggedWell(workers, QueueFullFor(j), start, CopyEnds(j, start))
    ensures !Run(Arrive(workers, QueueFullFor(j), start), QueueFullFor(j), CopyEnds(j, start)).overtaken
  {
    hide Step, Run, Launch, Begun, NoneRefused, Erred, PrimaryEnd, Told;
    var env, events := QueueFullFor(j), CopyEnds(j, start);
    var s0 := Arrive(workers, env, start);
    FirstStep(s0, env, 0, start);
    var s1 := Step(s0, env, events[0]);
    TakenForPrimary(s1, env, 0, start + 1.0);
    var s2 := Step(s1, env, events[1]);
    assert s2.writes[|s1.writes| + j - 1] == Begun(env, j, workers[j]);
    assert s2.writes[j] == Write(workers[j], Disk, R5XX, [false]) by {
      BegunRefused(j, workers[j]);
    }
    RefusedCopyEnds(s2, env, j, start + 2.0);
    RunThree(s0, env, events);
    var s3 := Run(s0, env, events);
    assert s3.log[0].latency == 2.0 && s3.writes[0].phase.at - s3.startTime == 1.0;
    ArriveTold(workers, env, start);
    RunTold(s0, env, events);
    OnlyAnswers(s0, env, events);
  }

  lemma BegunRefused(j: nat, worker: nat)
    ensures Begun(QueueFullFor(j), j, worker) == Write(worker, Disk, R5XX, [false])
  {
  }

  lemma {:induction false} OnlyAnswers(s: State, env: Surroundings, events: seq<Event>)
    requires s.workers != [] && forall e | e in events :: e.Answer?
    ensures Run(s, env, events).overtaken == s.overtaken && Run(s, env, events).workers == s.workers
    decreases |events|
  {
    if events != [] {
      hide StepDone, Pending;
      OnlyAnswers(s, env, events[..|events| - 1]);
    }
  }

  lemma RunThree(s: State, env: Surroundings, events: seq<Event>)
    requires s.workers != [] && |events| == 3
    requires Pending(s, events[0])
    requires Pending(Step(s, env, events[0]), events[1])
    requires Pending(Step(Step(s, env, events[0]), env, events[1]), events[2])
    ensures Run(s, env, events) == Step(Step(Step(s, env, events[0]), env, events[1]), env, events[2])
  {
    hide Step, Pending;
    assert events[..2][..1] == events[..1] && events[..1][..0] == [];
    assert Run(s, env, events[..1]) == Step(s, env, events[0]);
    assert Run(s, env, events[..2]) == Step(Step(s, env, events[0]), env, events[1]);
  }

  /** Both steps of the primary succeed, with a transfer in between. */
  function TransferMidway(workers: seq<nat>, time: real): seq<Event> {
    [Answer(0, R4XX, time), Transfer(workers, time), Answer(0, R4XX, time)]
  }

  /** A put overtaken by a transfer: all its steps succeed, and it never logs. */
  lemma OvertakenPutIsLost(workers: seq<nat>, newWorkers: seq<nat>, start: real)
    requires PrimaryIsUnique(workers) && |newWorkers| == |workers| && forall w | w in newWorkers :: w !in workers
    ensures var s := Run(Arrive(workers, Calm(), start), Calm(), TransferMidway(newWorkers, start));
      Quiet(s) && s.overtaken && s.log == []
  {
    var events := TransferMidway(newWorkers, start);
    var s0 := Arrive(workers, Calm(), start);
    FirstStep(s0, Calm(), 0, start);
    var s1 := Step(s0, Calm(), events[0]);
    var s2 := Step(s1, Calm(), events[1]);
    assert s2 == Moved(s1, newWorkers);
    var s3 := Step(s2, Calm(), events[2]);
    assert s3.writes[0].phase.Done?;
    hide Step, Arrive;
    RunThree(s0, Calm(), events);
    PutIsLoggedOnce(workers, Calm(), start, events);
  }

  /** Nothing fails at once. */
  function Calm(): Surroundings {
    Surroundings(_ => false, _ => false)
  }

  /** Some write on the primary's worker is on its way, and nothing has failed. */
  ghost predicate Alive(s: State) {
    && s.workers != []
    && (exists i: nat :: Waiting(s, i) && s.writes[i].worker == s.workers[0])
    && (forall i | 0 <= i < |s.writes| :: s.writes[i].response == R4XX)
  }

  lemma StepKeepsAlive(s: State, j: nat, e: Event)
    requires 0 < j < |s.workers| && s.workers[j] == s.workers[0]
    requires Alive(s) && Pending(s, e) && e.Answer? && e.result == R4XX
    ensures Alive(Step(s, Calm(), e))
  {
    var i: nat :| Waiting(s, i) && s.writes[i].worker == s.workers[0];
    var k := e.write;
    var r := Step(s, Calm(), e);
    if s.writes[k].phase.Compute? {
      FirstStep(s, Calm(), k, e.time);
      hide Step;
      assert Waiting(r, i) && r.writes[i].worker == r.workers[0];
    } else if s.writes[k].worker == s.workers[0] {
      TakenForPrimary(s, Calm(), k, e.time);
      hide Step;
      var m := |s.writes| + j - 1;
      assert r.writes[m] == Begun(Calm(), m, s.workers[j]);
      assert Waiting(r, m);
      forall n | 0 <= n < |r.writes| ensures r.writes[n].response == R4XX {
        if n >= |s.writes| {
          var copy := n - |s.writes| + 1;
          assert r.writes[|s.writes| + copy - 1] == Begun(Calm(), n, s.workers[copy]);
        }
      }
    } else {
      assert r.writes == Answered(s.(now := e.time), k, R4XX).writes;
      assert Waiting(r, i) && r.writes[i].worker == r.workers[0];
    }
  }

  /**
   When some copy shares the primary's worker and nothing ever fails, a put never ends: whichever copy on that worker
   finishes is taken for the primary, and all replicas are written again.
   */
  lemma {:induction false} SharedPrimaryNeverEnds(workers: seq<nat>, j: nat, start: real, events: seq<Event>)
    requires 0 < j < |workers| && workers[j] == workers[0]
    requires forall e | e in events :: e.Answer? && e.result == R4XX
    ensures Alive(Run(Arrive(workers, Calm(), start), Calm(), events))
    ensures !Quiet(Run(Arrive(workers, Calm(), start), Calm(), events))
    decreases |events|
  {
    var s0 := Arrive(workers, Calm(), start);
    if events == [] {
      assert Waiting(s0, 0);
    } else {
      hide Step, Alive, Arrive, Quiet;
      var n := |events| - 1;
      SharedPrimaryNeverEnds(workers, j, start, events[..n]);
      var t := Run(s0, Calm(), events[..n]);
      OnlyAnswers(s0, Calm(), events[..n]);
      ArriveAt(workers, start);
      if Pending(t, events[n]) {
        StepKeepsAlive(t, j, events[n]);
      }
      AliveIsNotQuiet(Run(s0, Calm(), events));
    }
  }

  lemma ArriveAt(workers: seq<nat>, start: real)
    requires workers != []
    ensures Arrive(workers, Calm(), start).workers == workers
  {
  }

  lemma AliveIsNotQuiet(s: State)
    requires Alive(s)
    ensures !Quiet(s)
  {
    var i: nat :| Waiting(s, i);
  }

  /** On this shard, every put that is not overtaken by a transfer logs well, whatever can happen around it. */
  ghost predicate PutsLogWell(workers: seq<nat>)
    requires workers != []
  {
    forall env: Surroundings, start: real, events: seq<Event> | Plausible(env) ::
      Run(Arrive(workers, env, start), env, events).overtaken || LoggedWell(workers, env, start, events)
  }

  lemma {:induction false} LastCopy(workers: seq<nat>, n: nat) returns (j: nat)
    requires 0 < n <= |workers| && exists k :: 0 < k < n && workers[k] == workers[0]
    ensures 0 < j < n && workers[j] == workers[0] && forall k | j < k < n :: workers[k] != workers[0]
  {
    if workers[n - 1] == workers[0] && n > 1 {
      j := n - 1;
    } else {
      j := LastCopy(workers, n - 1);
    }
  }

  /** Puts on a shard log well exactly when no replica lives on the primary's worker. */
  lemma PutsLogWellIffPrimaryIsUnique(workers: seq<nat>)
    requires workers != []
    ensures PutsLogWell(workers) <==> PrimaryIsUnique(workers)
  {
    hide LoggedWell, Run, Arrive;
    if PrimaryIsUnique(workers) {
      forall env: Surroundings, start: real, events: seq<Event> | Plausible(env)
        ensures Run(Arrive(workers, env, start), env, events).overtaken || LoggedWell(workers, env, start, events)
      {
        PutIsLoggedOnce(workers, env, start, events);
      }
    } else {
      var j := LastCopy(workers, |workers|);
      SharedPrimaryMislogs(workers, j, 0.0);
      assert Plausible(QueueFullFor(j));
    }
  }

  // ----- Where such shards come from -----

  lemma OneRoundLater(from: nat, k: nat, n: nat)
    requires n > 0
    ensures (from + n) % n == from % n
    ensures 0 < k < n ==> (from + k) % n != from % n
  {
    var q, r := from / n, from % n;
    Primes.ModUnique(from + n, n, q + 1, r);
    if 0 < k < n {
      if r + k < n {
        Primes.ModUnique(from + k, n, q, r + k);
      } else {
        Primes.ModUnique(from + k, n, q + 1, r + k - n);
      }
    }
  }

  /** Dealing workers to the replicas of a shard keeps the primary's for itself exactly when there are enough. */
  lemma DealtIsUniqueIff(workers: seq<nat>, from: nat, count: nat)
    requires Distinct(workers) && workers != [] && count > 0
    ensures PrimaryIsUnique(Indexing.Dealt(workers, from, count)) <==> count <= |workers|
  {
    var n := |workers|;
    var dealt := Indexing.Dealt(workers, from, count);
    if count <= n {
      forall k | 0 < k < count ensures dealt[k] != dealt[0] {
        OneRoundLater(from, k, n);
      }
    } else {
      OneRoundLater(from, 0, n);
      assert dealt[n] == dealt[0];
    }
  }

  /** The workers of shard i after a transfer. */
  function WorkersAfter(shards: seq<seq<nat>>, workers: seq<nat>, i: nat): (r: seq<nat>)
    requires workers != [] && i < |shards| && shards[i] != []
    ensures |r| == |shards[i]|
  {
    Indexing.TransferShape(shards, workers, i);
    Indexing.Transfer(shards, workers)[i]
  }

  /**
   A blue-green transfer to distinct workers leaves a shard on which later puts log well if and only if the shard has
   no more replicas than there are new workers.
   */
  lemma TransferKeepsPutsWellIff(shards: seq<seq<nat>>, workers: seq<nat>, i: nat)
    requires Distinct(workers) && workers != [] && i < |shards| && shards[i] != []
    ensures PutsLogWell(WorkersAfter(shards, workers, i)) <==> |shards[i]| <= |workers|
  {
    hide PutsLogWell, PrimaryIsUnique;
    Indexing.TransferAt(shards, workers, i);
    DealtIsUniqueIff(workers, |Indexing.Slots(shards[..i])|, |shards[i]|);
    PutsLogWellIffPrimaryIsUnique(WorkersAfter(shards, workers, i));
  }

  /** Where all workers are new, a transfer is what a put in flight on shard i sees. */
  lemma TransferIsFresh(s: State, shards: seq<seq<nat>>, workers: seq<nat>, i: nat)
    requires workers != [] && i < |shards| && shards[i] != [] && s.workers == shards[i]
    requires forall w | w in workers :: w !in s.workers && forall k | 0 <= k < |s.writes| :: s.writes[k].worker != w
    ensures Fresh(s, WorkersAfter(shards, workers, i))
  {
    var after := WorkersAfter(shards, workers, i);
    forall w | w in after ensures w in workers {
      var j :| 0 <= j < |after| && after[j] == w;
      Indexing.TransferUsesNewWorkers(shards, workers, i, j);
    }
  }
}
