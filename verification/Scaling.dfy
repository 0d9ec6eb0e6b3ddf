/**
 Blue-green scaling of a collection: spin up a second fleet, move all shards to it, retire the first fleet.
 The protocol runs over many events; other events of the simulation may come between any two of them.
 */
module Scaling {
  import opened Basics
  import opened DynArrays
  import opened Clocks
  import Cpu = CpuAccounting
  import Indexing

  type WorkerId = nat

  datatype Status = Obsolete | Blue | Green

  /** A worker as scaling sees it: its status, its pool, and the pool's spin-up gather. */
  datatype Node = Node(
    status: Status,
    cpus: seq<Cpu.CpuState>,
    poolFreq: real,
    numCpus: nat,
    cpusDone: nat)
  {
    predicate Complete() {
      cpusDone == numCpus
    }

    ghost predicate Untouched() {
      forall c | c in cpus :: !c.blueGreen
    }

    ghost predicate BuiltFor(count: nat, freq: real) {
      numCpus == count && poolFreq == freq && forall c | c in cpus :: c.freq == freq
    }
  }

  /** One shard on each of these workers in turn. */
  function DealtShards(registry: seq<WorkerId>, count: nat): (shards: seq<seq<WorkerId>>)
    requires registry != []
    ensures |shards| == count
    ensures forall k | 0 <= k < count :: shards[k] == [registry[k % |registry|]]
  {
    seq(count, k requires 0 <= k => [registry[k % |registry|]])
  }

  lemma NoneDealt(before: seq<seq<WorkerId>>, registry: seq<WorkerId>)
    requires registry != []
    ensures before + DealtShards(registry, 0) == before
  {
  }

  lemma OneMoreDealt(before: seq<seq<WorkerId>>, registry: seq<WorkerId>, k: nat)
    requires registry != []
    ensures before + DealtShards(registry, k + 1)
         == before + DealtShards(registry, k) + [[registry[k % |registry|]]]
  {
    assert DealtShards(registry, k + 1) == DealtShards(registry, k) + [[registry[k % |registry|]]];
  }

  /** The scaling under way, with the gather over the pools of its new workers. */
  datatype Scale = Scale(
    newNumWorkers: nat,
    caller: nat,
    oldWorkers: seq<WorkerId>,
    newWorkers: seq<WorkerId>,
    poolsDone: nat,
    spinDownsDone: nat,
    startedAt: real)

  datatype Reply = Reply(caller: nat, result: Result, time: real)

  /** Half of the half-OCUs, but at least one CPU. */
  function CpusPerWorker(halfOcus: int): (n: nat)
    ensures n >= 1
    ensures if halfOcus < 4 then n == 1 else 2 * n <= halfOcus <= 2 * n + 1
  {
    if halfOcus / 2 > 1 then halfOcus / 2 else 1
  }

  /** An old worker when blue-green begins: half the frequency for its pool, every CPU slowed down. */
  function SlowedNode(node: Node, now: real, util: real): (r: Node)
    requires 0.0 <= util < 1.0
    ensures |r.cpus| == |node.cpus|
  {
    node.(poolFreq := node.poolFreq / 2.0, cpus := SlowedCpus(node.cpus, now, util))
  }

  function SlowedCpus(cpus: seq<Cpu.CpuState>, now: real, util: real): (r: seq<Cpu.CpuState>)
    requires 0.0 <= util < 1.0
    ensures |r| == |cpus|
    ensures forall i | 0 <= i < |cpus| :: r[i] == cpus[i].BlueGreenStarted(now, util)
  {
    if cpus == [] then []
    else
      var n := |cpus| - 1;
      Cpu.SlowedStillPositive(cpus[n], now, util);
      SlowedCpus(cpus[..n], now, util) + [cpus[n].BlueGreenStarted(now, util)]
  }

  /** The CPU at its reduced speed, carrying the blue-green share from `now` on; nothing else has changed. */
  ghost predicate SlowedCpu(before: Cpu.CpuState, after: Cpu.CpuState, now: real, util: real) {
    && after.freq == before.freq * (1.0 - util)
    && after.blueGreen && after.blueGreenStart == now && after.baseline == util
    && after.lastReserved == before.lastReserved && after.busyTime == before.busyTime
    && after.enabled == before.enabled
    && after.emptyProfiles == before.emptyProfiles && after.lastProfiled == before.lastProfiled
  }

  /** The pool at half its frequency, and every CPU of it slowed down; nothing else has changed. */
  ghost predicate SlowedDown(before: Node, after: Node, now: real, util: real) {
    && after.poolFreq == before.poolFreq / 2.0
    && |after.cpus| == |before.cpus|
    && (forall i | 0 <= i < |before.cpus| :: SlowedCpu(before.cpus[i], after.cpus[i], now, util))
    && after.status == before.status && after.numCpus == before.numCpus && after.cpusDone == before.cpusDone
  }

  lemma SlowedNodeIsSlowed(node: Node, now: real, util: real)
    requires 0.0 <= util < 1.0
    ensures SlowedDown(node, SlowedNode(node, now, util), now, util)
  {
  }

  // ----- The parts of the invariant -----

  ghost predicate NodesOk(nodes: map<WorkerId, Node>, registry: seq<WorkerId>, nextId: nat) {
    && Distinct(registry)
    && (forall w | w in registry :: w in nodes)
    && (forall w | w in nodes ::
          && w < nextId
          && |nodes[w].cpus| == nodes[w].cpusDone <= nodes[w].numCpus
          && 0 < nodes[w].numCpus
          && 0.0 < nodes[w].poolFreq)
  }

  /** A worker that may be given requests: registered, blue, with its full number of CPUs. */
  predicate Serving(nodes: map<WorkerId, Node>, registry: seq<WorkerId>, w: WorkerId) {
    && w in registry
    && w in nodes
    && nodes[w].status == Blue
    && nodes[w].Complete()
  }

  ghost predicate RoutingOk(indices: seq<seq<seq<WorkerId>>>, nodes: map<WorkerId, Node>, registry: seq<WorkerId>) {
    forall i, j, k | 0 <= i < |indices| && 0 <= j < |indices[i]| && 0 <= k < |indices[i][j]| ::
      Serving(nodes, registry, indices[i][j][k])
  }

  /** Every slot holds a registered worker. */
  ghost predicate OnRegistered(indices: seq<seq<seq<WorkerId>>>, registry: seq<WorkerId>) {
    forall i, j, k | 0 <= i < |indices| && 0 <= j < |indices[i]| && 0 <= k < |indices[i][j]| ::
      indices[i][j][k] in registry
  }

  /** No slot holds one of these workers. */
  ghost predicate NoneOn(indices: seq<seq<seq<WorkerId>>>, ids: seq<WorkerId>) {
    forall i, j, k | 0 <= i < |indices| && 0 <= j < |indices[i]| && 0 <= k < |indices[i][j]| ::
      indices[i][j][k] !in ids
  }

  ghost predicate AllBlue(nodes: map<WorkerId, Node>, ids: seq<WorkerId>) {
    forall w | w in ids :: w in nodes && nodes[w].status == Blue && nodes[w].Complete()
  }

  ghost predicate AllObsolete(nodes: map<WorkerId, Node>, ids: seq<WorkerId>) {
    forall w | w in ids :: w in nodes && nodes[w].status == Obsolete
  }

  ghost predicate AllComplete(nodes: map<WorkerId, Node>, ids: seq<WorkerId>) {
    forall w | w in ids :: w in nodes && nodes[w].Complete()
  }

  ghost predicate Known(nodes: map<WorkerId, Node>, ids: seq<WorkerId>) {
    forall w | w in ids :: w in nodes
  }

  ghost predicate AllUntouched(nodes: map<WorkerId, Node>, ids: seq<WorkerId>) {
    forall w | w in ids :: w in nodes && nodes[w].Untouched()
  }

  /** Every pool is built for this number of CPUs at this frequency, and the CPUs it has run at it. */
  ghost predicate Sized(nodes: map<WorkerId, Node>, ids: seq<WorkerId>, cpus: nat, freq: real) {
    forall w | w in ids :: w in nodes && nodes[w].BuiltFor(cpus, freq)
  }

  /** These workers have been slowed down, and the others that were there are as before. */
  ghost predicate Slowed(
    before: map<WorkerId, Node>, nodes: map<WorkerId, Node>, ids: seq<WorkerId>, now: real, util: real)
  {
    && (forall w | w in ids :: w in before)
    && (forall w | w in before ::
          w in nodes && if w in ids then SlowedDown(before[w], nodes[w], now, util) else nodes[w] == before[w])
  }

  /** These workers are new and green, with an empty pool for this number of CPUs. */
  ghost predicate Fresh(
    before: map<WorkerId, Node>, nodes: map<WorkerId, Node>, ids: seq<WorkerId>, cpus: nat, freq: real)
  {
    forall w | w in ids :: w !in before && w in nodes && nodes[w] == Node(Green, [], freq, cpus, 0)
  }

  ghost predicate AllGreen(nodes: map<WorkerId, Node>, ids: seq<WorkerId>) {
    forall w | w in ids :: w in nodes && nodes[w].status == Green
  }

  ghost function CompleteCount(nodes: map<WorkerId, Node>, ids: seq<WorkerId>): (n: nat)
    ensures n <= |ids|
  {
    if ids == [] then 0
    else
      var n := |ids| - 1;
      CompleteCount(nodes, ids[..n]) + if ids[n] in nodes && nodes[ids[n]].Complete() then 1 else 0
  }

  /** One event is pending for each CPU that a new pool still lacks, and none for anybody else. */
  ghost predicate EventsOk(spinUps: multiset<WorkerId>, nodes: map<WorkerId, Node>, newWorkers: seq<WorkerId>) {
    forall w: WorkerId ::
      spinUps[w] == if w in newWorkers && w in nodes && nodes[w].cpusDone <= nodes[w].numCpus
                    then nodes[w].numCpus - nodes[w].cpusDone else 0
  }

  /** The second gather: pools done are counted exactly, and the ready event is there once all are. */
  ghost predicate GatherOk(sc: Scale, nodes: map<WorkerId, Node>, readyEvents: nat) {
    && sc.newNumWorkers == |sc.newWorkers|
    && sc.poolsDone == CompleteCount(nodes, sc.newWorkers)
    && readyEvents == if sc.poolsDone == |sc.newWorkers| then 1 else 0
  }

  lemma {:induction false} CompleteCountFull(nodes: map<WorkerId, Node>, ids: seq<WorkerId>)
    requires Known(nodes, ids)
    ensures CompleteCount(nodes, ids) == |ids| <==> AllComplete(nodes, ids)
  {
    if ids != [] {
      var n := |ids| - 1;
      CompleteCountFull(nodes, ids[..n]);
      assert ids == ids[..n] + [ids[n]];
    }
  }

  /** Completing one pool counts it once. */
  lemma {:induction false} CompleteOne(nodes: map<WorkerId, Node>, ids: seq<WorkerId>, w: WorkerId, node: Node)
    requires Distinct(ids) && w in nodes && !nodes[w].Complete()
    ensures CompleteCount(nodes[w := node], ids)
         == CompleteCount(nodes, ids) + if w in ids && node.Complete() then 1 else 0
  {
    if ids != [] {
      var n := |ids| - 1;
      CompleteOne(nodes, ids[..n], w, node);
      assert ids == ids[..n] + [ids[n]];
      assert ids[n] !in ids[..n];
    }
  }

  lemma {:induction false} CompleteNone(nodes: map<WorkerId, Node>, ids: seq<WorkerId>)
    requires forall w | w in ids :: w in nodes && !nodes[w].Complete()
    ensures CompleteCount(nodes, ids) == 0
  {
    if ids != [] {
      var n := |ids| - 1;
      CompleteNone(nodes, ids[..n]);
      assert ids[n] in ids;
    }
  }

  lemma StaysOnRegistered(
    indices: seq<seq<seq<WorkerId>>>, registry: seq<WorkerId>, registry': seq<WorkerId>)
    requires OnRegistered(indices, registry)
    requires forall w | w in registry :: w in registry'
    ensures OnRegistered(indices, registry')
  {
  }

  lemma NewFleetIsEmpty(indices: seq<seq<seq<WorkerId>>>, oldIds: seq<WorkerId>, newIds: seq<WorkerId>)
    requires OnRegistered(indices, oldIds) && Distinct(oldIds + newIds)
    ensures NoneOn(indices, newIds)
  {
    DistinctTail(oldIds, newIds);
  }

  /** A blue registry serves all that is routed to it. */
  lemma BlueRouting(indices: seq<seq<seq<WorkerId>>>, nodes: map<WorkerId, Node>, registry: seq<WorkerId>)
    requires OnRegistered(indices, registry) && AllBlue(nodes, registry)
    ensures RoutingOk(indices, nodes, registry)
  {
  }

  /** During a scaling the routing goes to serving workers only exactly if no shard is on the new fleet. */
  lemma RoutingIffNoneOn(
    indices: seq<seq<seq<WorkerId>>>, nodes: map<WorkerId, Node>, oldIds: seq<WorkerId>, newIds: seq<WorkerId>)
    requires OnRegistered(indices, oldIds + newIds)
    requires AllBlue(nodes, oldIds) && AllGreen(nodes, newIds)
    ensures RoutingOk(indices, nodes, oldIds + newIds) <==> NoneOn(indices, newIds)
  {
    if NoneOn(indices, newIds) {
      forall i, j, k | 0 <= i < |indices| && 0 <= j < |indices[i]| && 0 <= k < |indices[i][j]|
        ensures Serving(nodes, oldIds + newIds, indices[i][j][k])
      {
        assert indices[i][j][k] in oldIds;
      }
    } else {
      var i, j, k :| 0 <= i < |indices| && 0 <= j < |indices[i]| && 0 <= k < |indices[i][j]| &&
                     indices[i][j][k] in newIds;
      assert !Serving(nodes, oldIds + newIds, indices[i][j][k]);
    }
  }

  lemma SlowedFleet(
    before: map<WorkerId, Node>, nodes: map<WorkerId, Node>, registry: seq<WorkerId>, ids: seq<WorkerId>, nextId: nat,
    now: real, util: real)
    requires NodesOk(before, registry, nextId) && 0.0 <= util < 1.0
    requires nodes.Keys == before.Keys && forall w | w in ids :: w in before
    requires forall w | w in nodes :: nodes[w] == if w in ids then SlowedNode(before[w], now, util) else before[w]
    ensures NodesOk(nodes, registry, nextId) && Slowed(before, nodes, ids, now, util)
  {
    forall w | w in ids ensures SlowedDown(before[w], nodes[w], now, util) {
      SlowedNodeIsSlowed(before[w], now, util);
    }
  }

  /** The two fleets right after a scaling has begun. */
  lemma FleetsOk(
    before: map<WorkerId, Node>, nodes: map<WorkerId, Node>, oldIds: seq<WorkerId>, newIds: seq<WorkerId>,
    spinUps: multiset<WorkerId>, cpus: nat, freq: real)
    requires AllBlue(before, oldIds) && cpus > 0
    requires forall w | w in oldIds ::
               w in nodes && nodes[w].status == before[w].status &&
               nodes[w].cpusDone == before[w].cpusDone && nodes[w].numCpus == before[w].numCpus
    requires forall w | w in newIds :: w in nodes && nodes[w] == Node(Green, [], freq, cpus, 0)
    requires forall w: WorkerId :: spinUps[w] == if w in newIds then cpus else 0
    ensures AllBlue(nodes, oldIds) && AllGreen(nodes, newIds) && AllUntouched(nodes, newIds)
    ensures EventsOk(spinUps, nodes, newIds)
    ensures CompleteCount(nodes, newIds) == 0
  {
    CompleteNone(nodes, newIds);
  }

  /** A pool of the new fleet with one CPU more. */
  function Grown(node: Node): Node
    requires 0.0 < node.poolFreq
  {
    node.(cpus := node.cpus + [Cpu.NewCpu(node.poolFreq)], cpusDone := node.cpusDone + 1)
  }

  /** The pool of w has one more CPU, new and at the speed of the pool; all else is as before. */
  ghost predicate Gains(before: map<WorkerId, Node>, after: map<WorkerId, Node>, w: WorkerId) {
    && w in before && 0.0 < before[w].poolFreq
    && after.Keys == before.Keys
    && (forall v | v in before && v != w :: after[v] == before[v])
    && after[w].cpus == before[w].cpus + [Cpu.NewCpu(before[w].poolFreq)]
    && after[w].cpusDone == before[w].cpusDone + 1
    && after[w].status == before[w].status && after[w].poolFreq == before[w].poolFreq
    && after[w].numCpus == before[w].numCpus
  }

  lemma GrownGains(nodes: map<WorkerId, Node>, w: WorkerId)
    requires w in nodes && 0.0 < nodes[w].poolFreq
    ensures Gains(nodes, nodes[w := Grown(nodes[w])], w)
  {
  }

  lemma GrownKeepsFleets(
    nodes: map<WorkerId, Node>, oldIds: seq<WorkerId>, newIds: seq<WorkerId>, nextId: nat, w: WorkerId)
    requires NodesOk(nodes, oldIds + newIds, nextId) && w in newIds && w in nodes && !nodes[w].Complete()
    requires AllBlue(nodes, oldIds) && AllGreen(nodes, newIds) && AllUntouched(nodes, newIds)
    ensures NodesOk(nodes[w := Grown(nodes[w])], oldIds + newIds, nextId)
    ensures AllBlue(nodes[w := Grown(nodes[w])], oldIds)
    ensures AllGreen(nodes[w := Grown(nodes[w])], newIds)
    ensures AllUntouched(nodes[w := Grown(nodes[w])], newIds)
  {
  }

  lemma GrownEvents(spinUps: multiset<WorkerId>, nodes: map<WorkerId, Node>, newIds: seq<WorkerId>, w: WorkerId)
    requires EventsOk(spinUps, nodes, newIds) && spinUps[w] > 0
    requires w in nodes ==> 0.0 < nodes[w].poolFreq
    ensures w in newIds && w in nodes && nodes[w].cpusDone < nodes[w].numCpus
    ensures EventsOk(spinUps[w := spinUps[w] - 1], nodes[w := Grown(nodes[w])], newIds)
    ensures |spinUps[w := spinUps[w] - 1]| == |spinUps| - 1
  {
    assert spinUps[w := spinUps[w] - 1] == spinUps - multiset{w};
  }

  lemma DistinctTail(a: seq<WorkerId>, b: seq<WorkerId>)
    requires Distinct(a + b)
    ensures Distinct(b)
    ensures forall w | w in b :: w !in a
  {
    assert forall i | 0 <= i < |b| :: b[i] == (a + b)[|a| + i];
    assert forall i | 0 <= i < |a| :: a[i] == (a + b)[i];
  }

  lemma DistinctHead(a: seq<WorkerId>, b: seq<WorkerId>)
    requires Distinct(a + b)
    ensures Distinct(a)
    ensures forall i, j | 0 <= i < |a| && i < j < |a| :: a[i] != a[j]
    ensures forall w | w in a :: w !in b
  {
    assert forall i | 0 <= i < |a| :: a[i] == (a + b)[i];
    assert forall i | 0 <= i < |b| :: b[i] == (a + b)[|a| + i];
  }

  /** One spin-up event, on everything but the ready event. */
  lemma SpinUpStep(
    nodes: map<WorkerId, Node>, nextId: nat,
    oldIds: seq<WorkerId>, newIds: seq<WorkerId>, spinUps: multiset<WorkerId>, w: WorkerId)
    requires NodesOk(nodes, oldIds + newIds, nextId)
    requires AllBlue(nodes, oldIds) && AllGreen(nodes, newIds) && AllUntouched(nodes, newIds)
    requires EventsOk(spinUps, nodes, newIds) && spinUps[w] > 0
    ensures w in newIds && w in nodes && 0.0 < nodes[w].poolFreq
    ensures var after := nodes[w := Grown(nodes[w])];
            && NodesOk(after, oldIds + newIds, nextId)
            && AllBlue(after, oldIds)
            && AllGreen(after, newIds)
            && AllUntouched(after, newIds)
            && EventsOk(spinUps[w := spinUps[w] - 1], after, newIds)
            && CompleteCount(after, newIds) == CompleteCount(nodes, newIds) + (if after[w].Complete() then 1 else 0)
            && (CompleteCount(after, newIds) == |newIds| <==> AllComplete(after, newIds))
            && CompleteCount(nodes, newIds) < |newIds|
    ensures |spinUps[w := spinUps[w] - 1]| == |spinUps| - 1
  {
    GrownEvents(spinUps, nodes, newIds, w);
    GrownKeepsFleets(nodes, oldIds, newIds, nextId, w);
    DistinctTail(oldIds, newIds);
    CompleteOne(nodes, newIds, w, Grown(nodes[w]));
    CompleteCountFull(nodes, newIds);
    CompleteCountFull(nodes[w := Grown(nodes[w])], newIds);
    hide NodesOk, AllBlue, AllUntouched, EventsOk, CompleteCount;
  }

  ghost function Greens(nodes: map<WorkerId, Node>, ids: seq<WorkerId>): seq<WorkerId> {
    if ids == [] then []
    else
      var n := |ids| - 1;
      Greens(nodes, ids[..n]) + if ids[n] in nodes && nodes[ids[n]].status == Green then [ids[n]] else []
  }

  lemma GreensAppend(nodes: map<WorkerId, Node>, ids: seq<WorkerId>, w: WorkerId)
    ensures Greens(nodes, ids + [w])
         == Greens(nodes, ids) + if w in nodes && nodes[w].status == Green then [w] else []
  {
    assert (ids + [w])[..|ids|] == ids;
  }

  lemma {:induction false} GreensNone(nodes: map<WorkerId, Node>, ids: seq<WorkerId>)
    requires forall w | w in ids :: w in nodes && nodes[w].status != Green
    ensures Greens(nodes, ids) == []
  {
    if ids != [] {
      var n := |ids| - 1;
      GreensNone(nodes, ids[..n]);
      assert ids[n] in ids;
    }
  }

  lemma GrownKeepsSize(nodes: map<WorkerId, Node>, ids: seq<WorkerId>, w: WorkerId, cpus: nat, freq: real)
    requires Sized(nodes, ids, cpus, freq) && w in ids && w in nodes && 0.0 < nodes[w].poolFreq
    ensures Sized(nodes[w := Grown(nodes[w])], ids, cpus, freq)
  {
  }

  lemma SwappedKeepsSize(
    before: map<WorkerId, Node>, nodes: map<WorkerId, Node>, oldIds: seq<WorkerId>, newIds: seq<WorkerId>,
    cpus: nat, freq: real)
    requires Sized(before, newIds, cpus, freq) && Swapped(before, nodes, oldIds, newIds)
    ensures Sized(nodes, newIds, cpus, freq)
  {
  }

  lemma ShrunkKeepsSize(
    nodes: map<WorkerId, Node>, shrunk: seq<WorkerId>, newIds: seq<WorkerId>, cpus: nat, freq: real)
    requires Sized(nodes, newIds, cpus, freq)
    requires forall w :: w in shrunk <==> w in newIds
    ensures Sized(nodes, shrunk, cpus, freq)
  {
  }

  /** Scanning the registry for green workers finds exactly the new fleet, in order. */
  lemma {:induction false} GreensAreNew(nodes: map<WorkerId, Node>, oldIds: seq<WorkerId>, newIds: seq<WorkerId>)
    requires forall w | w in oldIds :: w in nodes && nodes[w].status != Green
    requires AllGreen(nodes, newIds)
    ensures Greens(nodes, oldIds + newIds) == newIds
  {
    if newIds == [] {
      GreensNone(nodes, oldIds);
      assert oldIds + [] == oldIds;
    } else {
      var n := |newIds| - 1;
      assert newIds == newIds[..n] + [newIds[n]];
      assert oldIds + newIds == oldIds + newIds[..n] + [newIds[n]];
      assert newIds[n] in newIds;
      hide Greens;
      GreensAreNew(nodes, oldIds, newIds[..n]);
      GreensAppend(nodes, oldIds + newIds[..n], newIds[n]);
    }
  }

  /** Indices and shards have only been added. */
  ghost predicate Extends(before: seq<seq<seq<WorkerId>>>, after: seq<seq<seq<WorkerId>>>) {
    && |before| <= |after|
    && forall i | 0 <= i < |before| :: before[i] <= after[i]
  }

  /** What can come between two events of a scaling, and these events themselves. */
  datatype Step =
    | SpinUpFires(w: WorkerId)
    | ReadyFires
    | ScaleCall(numWorkers: int, halfOcus: int, caller: nat, now: real)
    | NewIndex
    | NewShard(index: nat, w: WorkerId)

  /** The answers to the scale calls that come while a scaling is under way. */
  function Refusals(steps: seq<Step>): seq<Reply> {
    if steps == [] then []
    else
      var last := steps[|steps| - 1];
      Refusals(steps[..|steps| - 1]) +
      if last.ScaleCall? then [Reply(last.caller, NotSteady, last.now)] else []
  }

  /** Every index has been dealt anew to these workers. */
  ghost predicate Moved(indices: seq<seq<seq<WorkerId>>>, moved: seq<seq<seq<WorkerId>>>, newIds: seq<WorkerId>)
  {
    && newIds != []
    && |moved| == |indices|
    && forall i | 0 <= i < |indices| :: moved[i] == Indexing.Transfer(indices[i], newIds)
  }

  lemma TransferRouting(
    indices: seq<seq<seq<WorkerId>>>, moved: seq<seq<seq<WorkerId>>>, newIds: seq<WorkerId>,
    nodes: map<WorkerId, Node>, registry: seq<WorkerId>)
    requires Moved(indices, moved, newIds)
    requires forall w | w in newIds :: Serving(nodes, registry, w)
    ensures RoutingOk(moved, nodes, registry)
  {
    forall i, j, k | 0 <= i < |moved| && 0 <= j < |moved[i]| && 0 <= k < |moved[i][j]|
      ensures Serving(nodes, registry, moved[i][j][k])
    {
      Indexing.TransferShape(indices[i], newIds, j);
      Indexing.TransferUsesNewWorkers(indices[i], newIds, j, k);
    }
  }

  lemma FleetFacts(nodes: map<WorkerId, Node>, oldIds: seq<WorkerId>, newIds: seq<WorkerId>, nextId: nat)
    requires NodesOk(nodes, oldIds + newIds, nextId) && AllBlue(nodes, oldIds) && AllGreen(nodes, newIds)
    requires CompleteCount(nodes, newIds) == |newIds|
    ensures Known(nodes, oldIds + newIds) && Known(nodes, oldIds) && Known(nodes, newIds)
    ensures AllComplete(nodes, newIds)
    ensures Greens(nodes, oldIds + newIds) == newIds
  {
    GreensAreNew(nodes, oldIds, newIds);
    CompleteCountFull(nodes, newIds);
  }

  /** Only the statuses differ: the old fleet is obsolete, the new one blue. */
  ghost predicate Swapped(
    before: map<WorkerId, Node>, nodes: map<WorkerId, Node>, oldIds: seq<WorkerId>, newIds: seq<WorkerId>)
  {
    && nodes.Keys == before.Keys
    && forall w | w in nodes ::
         nodes[w] == before[w].(status := if w in oldIds then Obsolete
                                          else if w in newIds then Blue else before[w].status)
  }

  /** The nodes once the new fleet is blue and the old one obsolete. */
  lemma SwappedFleets(
    before: map<WorkerId, Node>, nodes: map<WorkerId, Node>, oldIds: seq<WorkerId>, newIds: seq<WorkerId>, nextId: nat)
    requires NodesOk(before, oldIds + newIds, nextId) && AllUntouched(before, newIds)
    requires AllComplete(before, newIds)
    requires Swapped(before, nodes, oldIds, newIds)
    ensures NodesOk(nodes, oldIds + newIds, nextId)
    ensures forall w | w in newIds :: Serving(nodes, oldIds + newIds, w)
    ensures AllBlue(nodes, newIds) && AllUntouched(nodes, newIds)
    ensures AllObsolete(nodes, oldIds)
  {
    DistinctTail(oldIds, newIds);
  }

  /** Once the registry has shrunk to the new fleet, the routing still goes to serving workers only. */
  lemma ShrunkRegistry(
    indices: seq<seq<seq<WorkerId>>>, moved: seq<seq<seq<WorkerId>>>, nodes: map<WorkerId, Node>,
    registry: seq<WorkerId>, shrunk: seq<WorkerId>, newIds: seq<WorkerId>, nextId: nat)
    requires NodesOk(nodes, registry, nextId)
    requires AllBlue(nodes, newIds) && AllUntouched(nodes, newIds)
    requires Distinct(shrunk) && forall w :: w in shrunk <==> w in newIds
    requires Moved(indices, moved, newIds)
    ensures NodesOk(nodes, shrunk, nextId)
    ensures AllBlue(nodes, shrunk) && AllUntouched(nodes, shrunk)
    ensures RoutingOk(moved, nodes, shrunk) && OnRegistered(moved, shrunk)
  {
    TransferRouting(indices, moved, newIds, nodes, shrunk);
    ServingIsRegistered(moved, nodes, shrunk);
  }

  lemma ServingIsRegistered(indices: seq<seq<seq<WorkerId>>>, nodes: map<WorkerId, Node>, registry: seq<WorkerId>)
    requires RoutingOk(indices, nodes, registry)
    ensures OnRegistered(indices, registry)
  {
    forall i, j, k | 0 <= i < |indices| && 0 <= j < |indices[i]| && 0 <= k < |indices[i][j]|
      ensures indices[i][j][k] in registry
    {
      assert Serving(nodes, registry, indices[i][j][k]);
    }
  }

  // ----- The collection -----

  class Collection {
    const freq: real
    const spinUpDelay: real
    const readyTime: real
    const blueGreenUtil: real
    var steady: bool
    var numWorkers: int
    var halfOcus: int
    var registry: seq<WorkerId>
    var nodes: map<WorkerId, Node>
    var nextId: nat
    var indices: seq<seq<seq<WorkerId>>>
    var scale: Option<Scale>
    // Pending events: one per CPU that is still spinning up, and the ready event after the last of them.
    var spinUps: multiset<WorkerId>
    var readyEvents: nat
    var readyDue: real
    var replies: seq<Reply>

    ghost predicate Valid()
      reads this
    {
      && 0.0 < freq
      && 0.0 <= blueGreenUtil < 1.0
      && NodesOk(nodes, registry, nextId)
      && numWorkers == |registry|
      && OnRegistered(indices, registry)
      && (steady <==> scale.None?)
      && (scale.None? ==> SteadyOk())
      && (scale.Some? ==> ScalingOk(scale.value))
    }

    ghost predicate SteadyOk()
      reads this
    {
      && AllBlue(nodes, registry)
      && AllUntouched(nodes, registry)
      && Sized(nodes, registry, CpusPerWorker(halfOcus), freq)
      && spinUps == multiset{}
      && readyEvents == 0
    }

    ghost predicate ScalingOk(sc: Scale)
      reads this
    {
      && registry == sc.oldWorkers + sc.newWorkers
      && sc.newWorkers != []
      && AllBlue(nodes, sc.oldWorkers)
      && AllGreen(nodes, sc.newWorkers)
      && AllUntouched(nodes, sc.newWorkers)
      && Sized(nodes, sc.newWorkers, CpusPerWorker(halfOcus), freq)
      && EventsOk(spinUps, nodes, sc.newWorkers)
      && GatherOk(sc, nodes, readyEvents)
      && (readyEvents > 0 ==> readyDue == FinishTime(sc))
      && sc.spinDownsDone == 0
    }

    /** When a scaling that began at this time is over. */
    ghost function FinishTime(sc: Scale): (r: real)
      ensures spinUpDelay > 0.0 && readyTime > 0.0 ==> r == sc.startedAt + spinUpDelay + readyTime
    {
      Due(Due(sc.startedAt, spinUpDelay), readyTime)
    }

    /** A collection with its initial workers, which exist with all their CPUs from the start. */
    constructor (initialWorkers: nat, halfOcus: int, freq: real, spinUpDelay: real, readyTime: real, util: real)
      requires 0.0 < freq && 0.0 <= util < 1.0
      ensures Valid() && steady && |registry| == initialWorkers && this.halfOcus == halfOcus && replies == []
      ensures indices == []
      ensures this.freq == freq && blueGreenUtil == util
      ensures this.spinUpDelay == spinUpDelay && this.readyTime == readyTime
    {
      this.freq, this.spinUpDelay, this.readyTime, this.blueGreenUtil := freq, spinUpDelay, readyTime, util;
      this.halfOcus := halfOcus;
      var cpus := CpusPerWorker(halfOcus);
      var made: map<WorkerId, Node> := map[];
      var ids: seq<WorkerId> := [];
      for i := 0 to initialWorkers
        invariant |ids| == i && (forall w | w in ids :: w in made) && (forall w | w in made :: w < i)
        invariant Distinct(ids)
        invariant forall w | w in made :: made[w] == Node(Blue, seq(cpus, _ => Cpu.NewCpu(freq)), freq, cpus, cpus)
      {
        assert i !in ids;
        made := made[i := Node(Blue, seq(cpus, _ => Cpu.NewCpu(freq)), freq, cpus, cpus)];
        ids := ids + [i];
      }
      registry, nodes, nextId, numWorkers := ids, made, initialWorkers, initialWorkers;
      steady, scale, indices, replies := true, None, [], [];
      spinUps, readyEvents, readyDue := multiset{}, 0, 0.0;
    }

    method AddIndex()
      requires Valid()
      modifies this`indices
      ensures Valid() && indices == old(indices) + [[]]
    {
      indices := indices + [[]];
    }

    /** A new shard of an index may start on any registered worker, on one that is still spinning up, too. */
    method CreateShard(i: nat, w: WorkerId)
      requires Valid() && i < |indices| && w in registry
      modifies this`indices
      ensures Valid() && indices == old(indices)[i := old(indices[i]) + [[w]]]
    {
      indices := indices[i := indices[i] + [[w]]];
    }

    /** index_create_shards_distributed: the new shards are dealt over the whole registry. */
    method CreateShardsDistributed(i: nat, count: nat)
      requires Valid() && i < |indices|
      modifies this`indices
      ensures Valid()
      ensures indices == if registry == [] then old(indices)
                         else old(indices)[i := old(indices[i]) + DealtShards(registry, count)]
    {
      if |registry| == 0 {
        return;
      }
      hide NodesOk, OnRegistered, AllBlue, AllGreen, AllUntouched, EventsOk, CompleteCount, Sized, GatherOk;
      NoneDealt(indices[i], registry);
      for k := 0 to count
        invariant Valid() && |indices| == |old(indices)|
        invariant indices[i] == old(indices[i]) + DealtShards(registry, k)
        invariant forall m | 0 <= m < |indices| && m != i :: indices[m] == old(indices[m])
      {
        OneMoreDealt(old(indices[i]), registry, k);
        CreateShard(i, registry[k % |registry|]);
      }
    }

    /** Outside of a scaling all shards are on serving workers. */
    lemma SteadyRouting()
      requires Valid() && steady
      ensures RoutingOk(indices, nodes, registry)
    {
      BlueRouting(indices, nodes, registry);
    }

    /** During a scaling they are exactly as long as none was created on the new fleet. */
    lemma ScalingRouting()
      requires Valid() && scale.Some?
      ensures RoutingOk(indices, nodes, registry) <==> NoneOn(indices, scale.value.newWorkers)
    {
      RoutingIffNoneOn(indices, nodes, scale.value.oldWorkers, scale.value.newWorkers);
    }

    /** Slows every CPU of the old fleet. The assertion is the one in cpu_start_blue_green. */
    method SlowOldWorkers(ids: seq<WorkerId>, now: real)
      requires 0.0 <= blueGreenUtil < 1.0
      requires Distinct(ids) && AllUntouched(nodes, ids) && NodesOk(nodes, registry, nextId)
      modifies this`nodes
      ensures NodesOk(nodes, registry, nextId)
      ensures nodes.Keys == old(nodes).Keys && Slowed(old(nodes), nodes, ids, now, blueGreenUtil)
    {
      for i := 0 to |ids|
        invariant nodes.Keys == old(nodes).Keys
        invariant forall w | w in nodes ::
                    nodes[w] == if w in ids[..i] then SlowedNode(old(nodes)[w], now, blueGreenUtil) else old(nodes)[w]
      {
        var w := ids[i];
        assert w !in ids[..i];
        assert w in ids && forall c | c in nodes[w].cpus :: !c.blueGreen;
        assert ids[..i + 1] == ids[..i] + [w];
        nodes := nodes[w := SlowedNode(nodes[w], now, blueGreenUtil)];
      }
      assert ids[..|ids|] == ids;
      hide SlowedNode, SlowedDown, NodesOk;
      SlowedFleet(old(nodes), nodes, registry, ids, nextId, now, blueGreenUtil);
    }

    /** Allocates and registers green workers without CPUs. */
    method CreateWorkers(count: nat, cpus: nat) returns (ids: seq<WorkerId>)
      requires NodesOk(nodes, registry, nextId) && 0 < cpus && 0.0 < freq
      modifies this`nodes, this`registry, this`nextId
      ensures NodesOk(nodes, registry, nextId)
      ensures |ids| == count && Distinct(ids) && (forall w | w in ids :: w !in old(nodes))
      ensures registry == old(registry) + ids
      ensures nextId == old(nextId) + count
      ensures forall w :: w in nodes <==> w in old(nodes) || w in ids
      ensures forall w | w in ids :: old(nextId) <= w < nextId && nodes[w] == Node(Green, [], freq, cpus, 0)
      ensures forall w | w in old(nodes) :: nodes[w] == old(nodes)[w]
    {
      ids := [];
      for i := 0 to count
        invariant |ids| == i && Distinct(ids) && (forall w | w in ids :: w !in old(nodes))
        invariant NodesOk(nodes, registry, nextId)
        invariant registry == old(registry) + ids
        invariant nextId == old(nextId) + i
        invariant forall w :: w in nodes <==> w in old(nodes) || w in ids
        invariant forall w | w in ids :: old(nextId) <= w < nextId && nodes[w] == Node(Green, [], freq, cpus, 0)
        invariant forall w | w in old(nodes) :: nodes[w] == old(nodes)[w]
      {
        assert nextId !in ids && nextId !in registry;
        nodes := nodes[nextId := Node(Green, [], freq, cpus, 0)];
        registry := registry + [nextId];
        ids := ids + [nextId];
        nextId := nextId + 1;
      }
    }

    /** One spin-up event for each CPU of each new pool. */
    method ScheduleSpinUps(ids: seq<WorkerId>, cpus: nat)
      requires spinUps == multiset{} && Distinct(ids)
      modifies this`spinUps
      ensures forall w: WorkerId :: spinUps[w] == if w in ids then cpus else 0
    {
      for i := 0 to |ids|
        invariant forall w: WorkerId :: spinUps[w] == if w in ids[..i] then cpus else 0
      {
        assert ids[..i + 1] == ids[..i] + [ids[i]];
        spinUps := spinUps[ids[i] := cpus];
      }
      assert ids[..|ids|] == ids;
    }

    ghost function Outstanding(): nat
      reads this
    {
      |spinUps| + if scale.Some? then 1 else 0
    }

    /** Slows the old fleet down and begins to spin up the new one. */
    method BeginFleets(count: nat, cpus: nat, now: real) returns (newWorkers: seq<WorkerId>)
      requires 0.0 < freq && 0.0 <= blueGreenUtil < 1.0 && cpus > 0
      requires NodesOk(nodes, registry, nextId) && OnRegistered(indices, registry)
      requires AllBlue(nodes, registry) && AllUntouched(nodes, registry) && spinUps == multiset{}
      modifies this`nodes, this`registry, this`nextId, this`spinUps
      ensures NodesOk(nodes, registry, nextId) && OnRegistered(indices, registry)
      ensures NoneOn(indices, newWorkers)
      ensures |newWorkers| == count && registry == old(registry) + newWorkers
      ensures AllBlue(nodes, old(registry)) && AllGreen(nodes, newWorkers) && AllUntouched(nodes, newWorkers)
      ensures EventsOk(spinUps, nodes, newWorkers) && CompleteCount(nodes, newWorkers) == 0
      ensures Sized(nodes, newWorkers, cpus, freq)
      ensures Slowed(old(nodes), nodes, old(registry), now, blueGreenUtil)
      ensures Fresh(old(nodes), nodes, newWorkers, cpus, freq)
    {
      SlowOldWorkers(registry, now);
      newWorkers := CreateWorkers(count, cpus);
      assert Sized(nodes, newWorkers, cpus, freq);
      assert Slowed(old(nodes), nodes, old(registry), now, blueGreenUtil);
      assert Fresh(old(nodes), nodes, newWorkers, cpus, freq);
      ScheduleSpinUps(newWorkers, cpus);
      FleetsOk(old(nodes), nodes, old(registry), newWorkers, spinUps, cpus, freq);
      hide NodesOk, OnRegistered, AllBlue, AllGreen, AllUntouched, EventsOk, CompleteCount, Sized, Slowed, Fresh;
      hide OnRegistered, NoneOn;
      StaysOnRegistered(indices, old(registry), registry);
      assert Distinct(old(registry) + newWorkers) by {
        DistinctRegistry(nodes, registry, nextId);
      }
      NewFleetIsEmpty(indices, old(registry), newWorkers);
    }

    /** scale_workers_start, for a collection that is steady. */
    method StartScaling(newNumWorkers: nat, newHalfOcus: int, caller: nat, now: real)
      requires Valid() && steady && newNumWorkers >= 1
      modifies this
      ensures Valid() && !steady && scale.Some?
      ensures scale.value.newNumWorkers == newNumWorkers
      ensures scale.value.caller == caller && scale.value.startedAt == now
      ensures scale.value.oldWorkers == old(registry)
      ensures Slowed(old(nodes), nodes, old(registry), now, blueGreenUtil)
      ensures Fresh(old(nodes), nodes, scale.value.newWorkers, CpusPerWorker(newHalfOcus), freq)
      ensures NoneOn(indices, scale.value.newWorkers)
      ensures halfOcus == newHalfOcus && indices == old(indices) && replies == old(replies)
    {
      hide NodesOk, OnRegistered, AllBlue, AllGreen, AllUntouched, EventsOk, CompleteCount, Sized, Slowed, Fresh;
      steady := false;
      var oldWorkers := registry;
      halfOcus := newHalfOcus;
      numWorkers := numWorkers + newNumWorkers;
      var newWorkers := BeginFleets(newNumWorkers, CpusPerWorker(halfOcus), now);
      scale := Some(Scale(newNumWorkers, caller, oldWorkers, newWorkers, 0, 0, now));
    }

    method ScaleTo(newNumWorkers: int, newHalfOcus: int, caller: nat, now: real)
      requires Valid()
      modifies this
      ensures Valid()
      ensures !old(steady) ==> replies == old(replies) + [Reply(caller, NotSteady, now)]
      ensures old(steady) && old(numWorkers) == newNumWorkers && old(halfOcus) == newHalfOcus ==>
                replies == old(replies) + [Reply(caller, R4XX, now)]
      ensures old(steady) && (old(numWorkers) != newNumWorkers || old(halfOcus) != newHalfOcus) &&
              (newNumWorkers < 1 || newHalfOcus < 1) ==>
                replies == old(replies) + [Reply(caller, InvalidScaling, now)]
      ensures old(steady) && (old(numWorkers) != newNumWorkers || old(halfOcus) != newHalfOcus) &&
              newNumWorkers >= 1 && newHalfOcus >= 1 ==>
                replies == old(replies)
      ensures replies != old(replies) ==>
                unchanged(`steady, `numWorkers, `halfOcus, `registry, `nodes, `nextId, `indices, `scale) &&
                unchanged(`spinUps, `readyEvents, `readyDue)
      ensures replies == old(replies) ==>
                && old(steady) && !steady && scale.Some?
                && scale.value.newNumWorkers == newNumWorkers && halfOcus == newHalfOcus
                && scale.value.caller == caller && scale.value.startedAt == now
                && Slowed(old(nodes), nodes, old(registry), now, blueGreenUtil)
                && Fresh(old(nodes), nodes, scale.value.newWorkers, CpusPerWorker(newHalfOcus), freq)
                && indices == old(indices)
    {
      if !steady {
        replies := replies + [Reply(caller, NotSteady, now)];
        return;
      }
      if numWorkers == newNumWorkers && halfOcus == newHalfOcus {
        replies := replies + [Reply(caller, R4XX, now)];
        return;
      }
      if newNumWorkers < 1 {
        replies := replies + [Reply(caller, InvalidScaling, now)];
        return;
      }
      if newHalfOcus < 1 {
        replies := replies + [Reply(caller, InvalidScaling, now)];
        return;
      }
      StartScaling(newNumWorkers, newHalfOcus, caller, now);
    }

    /** The inner gather: one more CPU for one pool. */
    method AddCpu(w: WorkerId) returns (poolDone: bool)
      requires scale.Some? && NodesOk(nodes, registry, nextId)
      requires ScalingOk(scale.value) && spinUps[w] > 0
      modifies `spinUps, `nodes
      ensures NodesOk(nodes, registry, nextId)
      ensures var newIds := scale.value.newWorkers;
              && AllBlue(nodes, scale.value.oldWorkers)
              && AllGreen(nodes, newIds)
              && AllUntouched(nodes, newIds)
              && Sized(nodes, newIds, CpusPerWorker(halfOcus), freq)
              && EventsOk(spinUps, nodes, newIds)
              && CompleteCount(nodes, newIds) == CompleteCount(old(nodes), newIds) + (if poolDone then 1 else 0)
              && (CompleteCount(nodes, newIds) == |newIds| <==> AllComplete(nodes, newIds))
      ensures CompleteCount(old(nodes), scale.value.newWorkers) < |scale.value.newWorkers|
      ensures |spinUps| == |old(spinUps)| - 1
      ensures Gains(old(nodes), nodes, w)
    {
      var sc := scale.value;
      SpinUpStep(nodes, nextId, sc.oldWorkers, sc.newWorkers, spinUps, w);
      GrownKeepsSize(nodes, sc.newWorkers, w, CpusPerWorker(halfOcus), freq);
      GrownGains(nodes, w);
      hide Gains, Sized, NodesOk, OnRegistered, AllBlue, AllGreen, AllUntouched, EventsOk, CompleteCount;
      spinUps := spinUps[w := spinUps[w] - 1];
      nodes := nodes[w := Grown(nodes[w])];
      poolDone := nodes[w].cpusDone == nodes[w].numCpus;
    }

    /** The outer gather: one more pool is done, and after the last one the ready event is scheduled. */
    method PoolDone(now: real)
      requires scale.Some?
      modifies `scale, `readyEvents, `readyDue
      ensures scale == Some(old(scale).value.(poolsDone := old(scale).value.poolsDone + 1))
      ensures scale.value.poolsDone == scale.value.newNumWorkers ==>
                readyEvents == old(readyEvents) + 1 && readyDue == Due(now, readyTime)
      ensures scale.value.poolsDone != scale.value.newNumWorkers ==> unchanged(`readyEvents, `readyDue)
    {
      scale := Some(scale.value.(poolsDone := scale.value.poolsDone + 1));
      if scale.value.poolsDone == scale.value.newNumWorkers {
        readyEvents := readyEvents + 1;
        readyDue := Due(now, readyTime);
      }
    }

    /** A CPU of the new fleet exists: cpu_spin_up_one_done. */
    method CpuSpinUpOneDone(w: WorkerId, now: real)
      requires Valid() && spinUps[w] > 0
      requires scale.Some? ==> now == Due(scale.value.startedAt, spinUpDelay)
      modifies `spinUps, `nodes, `scale, `readyEvents, `readyDue
      ensures Valid()
      ensures old(scale).Some? && scale.Some?
      ensures Outstanding() == old(Outstanding()) - 1
      ensures scale == Some(old(scale).value.(poolsDone := scale.value.poolsDone))
      ensures readyEvents > 0 <==> AllComplete(nodes, scale.value.newWorkers)
      ensures Gains(old(nodes), nodes, w)
    {
      hide NodesOk, OnRegistered, AllBlue, AllGreen, AllUntouched, EventsOk, CompleteCount, Sized, Gains;
      var poolDone := AddCpu(w);
      if poolDone {
        PoolDone(now);
      }
    }

    /** The scan for green workers in the registry. */
    method FindGreens() returns (found: seq<WorkerId>)
      requires Known(nodes, registry)
      ensures found == Greens(nodes, registry)
    {
      found := [];
      for i := 0 to |registry|
        invariant found == Greens(nodes, registry[..i])
      {
        assert registry[..i + 1] == registry[..i] + [registry[i]];
        GreensAppend(nodes, registry[..i], registry[i]);
        if nodes[registry[i]].status == Green {
          found := found + [registry[i]];
        }
      }
      assert registry[..|registry|] == registry;
    }

    /** Every index moves to the new workers. */
    method TransferAll(newWorkers: seq<WorkerId>)
      requires newWorkers != []
      modifies `indices
      ensures Moved(old(indices), indices, newWorkers)
    {
      for i := 0 to |indices|
        invariant |indices| == |old(indices)|
        invariant forall k | 0 <= k < i :: indices[k] == Indexing.Transfer(old(indices)[k], newWorkers)
        invariant forall k | i <= k < |indices| :: indices[k] == old(indices)[k]
      {
        indices := indices[i := Indexing.Transfer(indices[i], newWorkers)];
      }
    }

    method SetStatus(ids: seq<WorkerId>, status: Status)
      requires Known(nodes, ids)
      modifies `nodes
      ensures nodes.Keys == old(nodes).Keys
      ensures forall w | w in nodes ::
                nodes[w] == old(nodes)[w].(status := if w in ids then status else old(nodes)[w].status)
    {
      for i := 0 to |ids|
        invariant nodes.Keys == old(nodes).Keys
        invariant forall w | w in nodes ::
                    nodes[w] == old(nodes)[w].(status := if w in ids[..i] then status else old(nodes)[w].status)
      {
        assert ids[..i + 1] == ids[..i] + [ids[i]];
        nodes := nodes[ids[i] := nodes[ids[i]].(status := status)];
      }
      assert ids[..|ids|] == ids;
    }

    method SwapStatuses(newWorkers: seq<WorkerId>, oldWorkers: seq<WorkerId>)
      requires Known(nodes, newWorkers) && Known(nodes, oldWorkers)
      modifies `nodes
      ensures Swapped(old(nodes), nodes, oldWorkers, newWorkers)
    {
      SetStatus(newWorkers, Blue);
      SetStatus(oldWorkers, Obsolete);
    }

    /** worker_spin_down, as far as the registry goes; the worker must be obsolete. */
    method WorkerSpinDown(w: WorkerId)
      requires w in nodes && nodes[w].status == Obsolete
      requires Distinct(registry) && w in registry
      modifies `registry
      ensures Distinct(registry) && |registry| == |old(registry)| - 1
      ensures forall y :: y in registry <==> y in old(registry) && y != w
    {
      SwapRemoveDistinct(registry, w);
      registry := SwapRemove(registry, w);
    }

    /** The gather over the spin-downs: the last one makes the collection steady and answers the caller. */
    method SpinDownDone(now: real)
      requires scale.Some?
      modifies `scale, `numWorkers, `steady, `replies
      ensures var sc := old(scale).value;
              if sc.spinDownsDone + 1 == |sc.oldWorkers| then
                && scale == None && steady && numWorkers == sc.newNumWorkers
                && replies == old(replies) + [Reply(sc.caller, Ok, now)]
              else
                && scale == Some(sc.(spinDownsDone := sc.spinDownsDone + 1))
                && unchanged(`numWorkers, `steady, `replies)
    {
      var sc := scale.value.(spinDownsDone := scale.value.spinDownsDone + 1);
      scale := Some(sc);
      if sc.spinDownsDone == |sc.oldWorkers| {
        Finish(now);
      }
    }

    method Finish(now: real)
      requires scale.Some?
      modifies `scale, `numWorkers, `steady, `replies
      ensures scale == None && steady && numWorkers == old(scale).value.newNumWorkers
      ensures replies == old(replies) + [Reply(old(scale).value.caller, Ok, now)]
    {
      var sc := scale.value;
      numWorkers := sc.newNumWorkers;
      steady := true;
      scale := None;
      replies := replies + [Reply(sc.caller, Ok, now)];
    }

    /** The old fleet goes; without an old fleet the scaling is over at once. */
    method RetireOldWorkers(now: real)
      requires scale.Some? && scale.value.spinDownsDone == 0 && !steady
      requires registry == scale.value.oldWorkers + scale.value.newWorkers && Distinct(registry)
      requires AllObsolete(nodes, scale.value.oldWorkers)
      modifies `registry, `scale, `numWorkers, `steady, `replies
      ensures scale == None && steady
      ensures numWorkers == old(scale).value.newNumWorkers
      ensures replies == old(replies) + [Reply(old(scale).value.caller, Ok, now)]
      ensures Distinct(registry) && |registry| == |old(scale).value.newWorkers|
      ensures forall w :: w in registry <==> w in old(scale).value.newWorkers
    {
      var sc := scale.value;
      var oldWorkers := sc.oldWorkers;
      DistinctHead(oldWorkers, sc.newWorkers);
      if |oldWorkers| == 0 {
        Finish(now);
        return;
      }
      for i := 0 to |oldWorkers|
        invariant Distinct(registry) && |registry| == |oldWorkers| - i + |sc.newWorkers|
        invariant forall y :: y in registry <==> y in oldWorkers[i..] || y in sc.newWorkers
        invariant i < |oldWorkers| ==> scale == Some(sc.(spinDownsDone := i)) && replies == old(replies)
        invariant i == |oldWorkers| ==>
                    && scale == None && steady && numWorkers == sc.newNumWorkers
                    && replies == old(replies) + [Reply(sc.caller, Ok, now)]
      {
        assert oldWorkers[i..] == [oldWorkers[i]] + oldWorkers[i + 1..];
        WorkerSpinDown(oldWorkers[i]);
        SpinDownDone(now);
      }
    }

    /** The new fleet takes over: it gets all shards, turns blue, and the old one obsolete. */
    method TakeOver(oldWorkers: seq<WorkerId>, newWorkers: seq<WorkerId>)
      requires registry == oldWorkers + newWorkers && newWorkers != []
      requires NodesOk(nodes, registry, nextId) && AllUntouched(nodes, newWorkers) && AllComplete(nodes, newWorkers)
      requires Known(nodes, registry) && Known(nodes, oldWorkers) && Known(nodes, newWorkers)
      requires Greens(nodes, registry) == newWorkers
      requires Sized(nodes, newWorkers, CpusPerWorker(halfOcus), freq)
      modifies `indices, `nodes
      ensures Sized(nodes, newWorkers, CpusPerWorker(halfOcus), freq)
      ensures Moved(old(indices), indices, newWorkers)
      ensures NodesOk(nodes, registry, nextId)
      ensures AllBlue(nodes, newWorkers) && AllUntouched(nodes, newWorkers) && AllObsolete(nodes, oldWorkers)
    {
      hide *;
      var found := FindGreens();
      TransferAll(found);
      SwapStatuses(found, oldWorkers);
      SwappedFleets(old(nodes), nodes, oldWorkers, newWorkers, nextId);
      SwappedKeepsSize(old(nodes), nodes, oldWorkers, newWorkers, CpusPerWorker(halfOcus), freq);
    }

    method SwapFleets()
      requires scale.Some? && NodesOk(nodes, registry, nextId) && ScalingOk(scale.value) && readyEvents > 0
      modifies `indices, `nodes
      ensures Sized(nodes, scale.value.newWorkers, CpusPerWorker(halfOcus), freq)
      ensures Moved(old(indices), indices, scale.value.newWorkers)
      ensures NodesOk(nodes, registry, nextId)
      ensures AllBlue(nodes, scale.value.newWorkers) && AllUntouched(nodes, scale.value.newWorkers)
      ensures AllObsolete(nodes, scale.value.oldWorkers)
    {
      FleetFacts(nodes, scale.value.oldWorkers, scale.value.newWorkers, nextId);
      hide EventsOk, CompleteCount, Greens, AllBlue, AllGreen, AllUntouched, NodesOk, Moved, Known;
      hide AllComplete, AllObsolete, Sized;
      TakeOver(scale.value.oldWorkers, scale.value.newWorkers);
    }

    lemma NoSpinUpsLeft(sc: Scale)
      requires NodesOk(nodes, registry, nextId) && ScalingOk(sc) && readyEvents > 0
      ensures spinUps == multiset{}
    {
      CompleteCountFull(nodes, sc.newWorkers);
      assert forall w: WorkerId :: spinUps[w] == 0;
    }

    /** All new workers are ready: move the shards, swap the fleets, retire the old one. */
    method WorkersReady(now: real)
      requires Valid() && readyEvents > 0 && now == readyDue
      modifies this
      ensures Valid() && steady && Outstanding() == 0
      ensures numWorkers == |registry| == old(scale).value.newNumWorkers
      ensures forall w :: w in registry <==> w in old(scale).value.newWorkers
      ensures replies == old(replies) + [Reply(old(scale).value.caller, Ok, FinishTime(old(scale).value))]
      ensures halfOcus == old(halfOcus)
      ensures AllObsolete(nodes, old(scale).value.oldWorkers)
      ensures Moved(old(indices), indices, old(scale).value.newWorkers)
    {
      var sc := scale.value;
      NoSpinUpsLeft(sc);
      SwapFleets();
      hide NodesOk, OnRegistered, AllBlue, AllUntouched, EventsOk, CompleteCount, Sized;
      readyEvents := readyEvents - 1;
      assert Distinct(registry) by {
        DistinctRegistry(nodes, registry, nextId);
      }
      RetireOldWorkers(now);
      ShrunkKeepsSize(nodes, registry, sc.newWorkers, CpusPerWorker(halfOcus), freq);
      ShrunkRegistry(old(indices), indices, nodes, sc.oldWorkers + sc.newWorkers, registry, sc.newWorkers, nextId);
    }

    /** While a scaling is under way, some event of the protocol is pending. */
    lemma NoDeadlock(sc: Scale)
      requires NodesOk(nodes, registry, nextId) && ScalingOk(sc) && readyEvents == 0
      ensures exists w :: w in spinUps
    {
      CompleteCountFull(nodes, sc.newWorkers);
      var w :| w in sc.newWorkers && !nodes[w].Complete();
      assert spinUps[w] > 0;
    }

    /**
     Main result on scaling: whichever pending event of the protocol fires next, a scaling that has begun ends,
     at a time fixed when it began, with exactly the requested number of workers and one answer to its caller.
     */
    method FireUntilSteady()
      requires Valid() && scale.Some?
      modifies this
      ensures Valid() && steady
      ensures numWorkers == |registry| == old(scale).value.newNumWorkers
      ensures halfOcus == old(halfOcus)
      ensures Moved(old(indices), indices, old(scale).value.newWorkers)
      ensures replies == old(replies) + [Reply(old(scale).value.caller, Ok, FinishTime(old(scale).value))]
    {
      while readyEvents == 0
        invariant Valid() && scale.Some?
        invariant scale == Some(old(scale).value.(poolsDone := scale.value.poolsDone))
        invariant unchanged(`indices, `replies, `halfOcus)
        decreases Outstanding()
      {
        NoDeadlock(scale.value);
        var w :| w in spinUps;
        CpuSpinUpOneDone(w, Due(scale.value.startedAt, spinUpDelay));
      }
      WorkersReady(readyDue);
    }

    /** The scaling that was under way before is still under way, and only the number of its pools has changed. */
    twostate predicate StillScaling()
      reads this
    {
      && old(scale).Some? && scale.Some? && scale == Some(old(scale).value.(poolsDone := scale.value.poolsDone))
      && halfOcus == old(halfOcus)
    }

    /** One step during a scaling, except the last event of the protocol; true if it was an event of the protocol. */
    method TakeStep(step: Step) returns (fired: bool)
      requires Valid() && scale.Some? && !(step.ReadyFires? && readyEvents > 0)
      modifies this
      ensures Valid() && StillScaling()
      ensures Outstanding() == old(Outstanding()) - if fired then 1 else 0
      ensures replies == old(replies) + Refusals([step])
      ensures Extends(old(indices), indices)
    {
      hide NodesOk, OnRegistered, AllBlue, AllGreen, AllUntouched, EventsOk, CompleteCount, Sized, GatherOk;
      fired := false;
      match step
      case SpinUpFires(w) =>
        if spinUps[w] > 0 {
          CpuSpinUpOneDone(w, Due(scale.value.startedAt, spinUpDelay));
          fired := true;
        }
      case ReadyFires =>
      case ScaleCall(newNumWorkers, newHalfOcus, caller, now) =>
        ScaleTo(newNumWorkers, newHalfOcus, caller, now);
      case NewIndex => AddIndex();
      case NewShard(i, w) =>
        if i < |indices| && w in registry {
          CreateShard(i, w);
        }
    }

    /** The ready event is the only event left, and ends the scaling. */
    method LastEvent()
      requires Valid() && readyEvents > 0
      modifies this
      ensures old(scale).Some? && old(Outstanding()) == 1
      ensures Refusals([ReadyFires]) == []
      ensures Valid() && steady && halfOcus == old(halfOcus)
      ensures numWorkers == |registry| == old(scale).value.newNumWorkers
      ensures replies == old(replies) + [Reply(old(scale).value.caller, Ok, FinishTime(old(scale).value))]
      ensures Moved(old(indices), indices, old(scale).value.newWorkers)
    {
      NoSpinUpsLeft(scale.value);
      WorkersReady(readyDue);
    }

    /**
     Main result on scaling, with anything in between: whatever scale calls, new indices and new shards come between
     the events of the protocol, each scale call is refused at once, and the scaling ends exactly when all its events
     have fired, at a time fixed when it began, with the requested number of workers, all shards of all indices on
     them, and one answer to its caller. `before` are the indices as the last event finds them.
     */
    method FireAmid(steps: seq<Step>) returns (n: nat, fired: nat, before: seq<seq<seq<WorkerId>>>)
      requires Valid() && scale.Some?
      modifies this
      ensures Valid() && n <= |steps| && Extends(old(indices), before)
      ensures steady <==> fired == old(Outstanding())
      ensures !steady ==>
                && n == |steps| && StillScaling() && before == indices
                && (RoutingOk(indices, nodes, registry) <==> NoneOn(indices, scale.value.newWorkers))
                && Outstanding() == old(Outstanding()) - fired
                && replies == old(replies) + Refusals(steps)
      ensures steady ==>
                && numWorkers == |registry| == old(scale).value.newNumWorkers
                && halfOcus == old(halfOcus)
                && Moved(before, indices, old(scale).value.newWorkers)
                && RoutingOk(indices, nodes, registry)
                && replies == old(replies) + Refusals(steps[..n]) +
                              [Reply(old(scale).value.caller, Ok, FinishTime(old(scale).value))]
    {
      hide NodesOk, OnRegistered, AllBlue, AllGreen, AllUntouched, EventsOk, CompleteCount, Sized, GatherOk, Moved;
      hide Refusals, Extends, RoutingOk, NoneOn;
      n, fired, before := 0, 0, indices;
      NothingYet(indices);
      while n < |steps|
        invariant Valid() && n <= |steps| && scale.Some? && StillScaling()
        invariant before == indices && Extends(old(indices), indices)
        invariant Outstanding() == old(Outstanding()) - fired
        invariant replies == old(replies) + Refusals(steps[..n])
      {
        RefusalsOfOne(steps, n);
        if steps[n].ReadyFires? && readyEvents > 0 {
          LastEvent();
          SteadyRouting();
          n, fired := n + 1, fired + 1;
          return;
        }
        ghost var was := indices;
        var isEvent := TakeStep(steps[n]);
        ExtendsFurther(old(indices), was, indices);
        n, before := n + 1, indices;
        if isEvent {
          fired := fired + 1;
        }
      }
      assert steps[..|steps|] == steps;
      ScalingRouting();
    }
  }

  lemma NothingYet(indices: seq<seq<seq<WorkerId>>>)
    ensures Extends(indices, indices) && Refusals([]) == []
  {
  }

  lemma ExtendsFurther(a: seq<seq<seq<WorkerId>>>, b: seq<seq<seq<WorkerId>>>, c: seq<seq<seq<WorkerId>>>)
    requires Extends(a, b) && Extends(b, c)
    ensures Extends(a, c)
  {
  }

  lemma RefusalsOfOne(steps: seq<Step>, n: nat)
    requires n < |steps|
    ensures Refusals(steps[..n + 1]) == Refusals(steps[..n]) + Refusals([steps[n]])
  {
    assert steps[..n + 1][..n] == steps[..n];
    assert [steps[n]][..0] == [];
  }

  lemma DistinctRegistry(nodes: map<WorkerId, Node>, registry: seq<WorkerId>, nextId: nat)
    requires NodesOk(nodes, registry, nextId)
    ensures Distinct(registry)
  {
  }
}
