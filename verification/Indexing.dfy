/** Document routing by a modular hash, and the round-robin reassignment of shards in a blue-green deploy. */
module Indexing {
  import opened Basics
  import opened DynArrays
  import opened HashPrime
  import opened Primes

  // ----- The hash -----

  const INT64_MAX := 0x7fff_ffff_ffff_ffff

  type Int32 = x: int | -0x8000_0000 <= x < 0x8000_0000

  /** Remainder that truncates toward zero, the way the machine computes it. */
  function TruncMod(x: int, p: int): int
    requires p > 0
  {
    if x >= 0 then x % p else -((-x) % p)
  }

  function Hash(a: int, b: int, p: int, id: int): int
    requires p > 0
  {
    TruncMod(TruncMod(a * id + b, p) + p, p)
  }

  /** Every intermediate value of the hash fits a 64-bit integer. */
  lemma HashFitsInt64(a: int, b: int, id: Int32)
    requires 0 <= a < HASH_PRIME && 0 <= b < HASH_PRIME
    ensures -INT64_MAX <= a * id <= INT64_MAX
    ensures -INT64_MAX <= a * id + b <= INT64_MAX
    ensures -INT64_MAX <= TruncMod(a * id + b, HASH_PRIME) + HASH_PRIME <= INT64_MAX
  {
    MulBound(a, id);
  }

  lemma MulBound(a: int, id: Int32)
    requires 0 <= a < HASH_PRIME
    ensures -HASH_PRIME * 0x8000_0000 <= a * id <= HASH_PRIME * 0x8000_0000
  {
    if id >= 0 {
      MulMono(a, HASH_PRIME, id, 0x8000_0000);
    } else {
      var magnitude: int := id;
      magnitude := -magnitude;
      MulMono(a, HASH_PRIME, magnitude, 0x8000_0000);
      assert a * id == -(a * magnitude);
    }
  }

  lemma MulMono(a: nat, b: nat, x: nat, y: nat)
    requires a <= b && x <= y
    ensures 0 <= a * x <= b * y
  {
    assert a * x <= b * x;
    assert b * x <= b * y;
  }

  /** Truncation and the correction by p together are the Euclidean remainder, for every id of either sign. */
  lemma HashIsEuclidean(a: int, b: int, p: int, id: int)
    requires p > 0
    ensures Hash(a, b, p, id) == (a * id + b) % p
    ensures 0 <= Hash(a, b, p, id) < p
  {
    var x := a * id + b;
    var t := TruncMod(x, p);
    if x >= 0 {
      ModUnique(t + p, p, 1, x % p);
    } else {
      var m := (-x) % p;
      var d := (-x) / p;
      assert -x == d * p + m;
      if m == 0 {
        ModUnique(t + p, p, 1, 0);
        ModUnique(x, p, -d, 0);
      } else {
        ModUnique(t + p, p, 0, p - m);
        ModUnique(x, p, -d - 1, p - m);
      }
    }
  }

  /** With the coefficients an index draws, two ids collide exactly when they are congruent modulo the prime. */
  lemma CollisionIffCongruent(a: int, b: int, p: int, x: int, y: int)
    requires Prime(p) && 1 <= a < p
    ensures Hash(a, b, p, x) == Hash(a, b, p, y) <==> x % p == y % p
  {
    HashIsEuclidean(a, b, p, x);
    HashIsEuclidean(a, b, p, y);
    DividesDifference(p, a * x + b, a * y + b);
    DividesDifference(p, x, y);
    assert a * x + b - (a * y + b) == a * (x - y);
    if Divides(p, x - y) {
      DividesTimes(p, x - y, a);
    } else if Divides(p, a * (x - y)) {
      PrimeDividesFactor(p, a, x - y);
    }
  }

  /** The hash of an index, with its own modulus: ids collide exactly when they are congruent modulo it. */
  lemma IdsCollideIff(a: int, b: int, x: Int32, y: Int32)
    requires 1 <= a < HASH_PRIME && 0 <= b < HASH_PRIME
    ensures Hash(a, b, HASH_PRIME, x) == Hash(a, b, HASH_PRIME, y) <==> x % HASH_PRIME == y % HASH_PRIME
  {
    HashPrimeIsPrime();
    CollisionIffCongruent(a, b, HASH_PRIME, x, y);
  }

  /** The two differ by a multiple of n. */
  ghost predicate Congruent(x: int, y: int, n: int)
    requires n > 0
  {
    Divides(n, x - y)
  }

  /** What rng_int makes of a 64-bit draw. */
  function IntInRange(lo: int, hi: int, draw: nat): (r: int)
    requires lo <= hi
    ensures lo <= r <= hi
    ensures Congruent(r - lo, draw, hi - lo + 1)
  {
    RemainderCongruent(draw, hi - lo + 1);
    if lo >= hi then lo else lo + draw % (hi - lo + 1)
  }

  lemma RemainderCongruent(x: int, n: int)
    requires n > 0
    ensures Congruent(x % n, x, n) && Congruent(x, x % n, n)
  {
    ModUnique(x % n - x, n, -(x / n), 0);
    ModUnique(x - x % n, n, x / n, 0);
  }

  /** No value of the range is missed: some draw gives it. */
  lemma EveryValueIsDrawn(lo: int, hi: int, v: int)
    requires lo <= v <= hi
    ensures IntInRange(lo, hi, v - lo) == v
  {
  }

  /** index_get_shard_from_hash: the position of the shard a non-negative hash selects. */
  function ShardFromHash(hash: nat, n: nat): (shard: nat)
    requires n > 0
    ensures shard < n
    ensures Congruent(hash, shard, n)
  {
    RemainderCongruent(hash, n);
    hash % n
  }

  /** Two hashes select the same shard exactly when they are congruent modulo the number of shards. */
  lemma SameShardIffCongruent(x: nat, y: nat, n: nat)
    requires n > 0
    ensures ShardFromHash(x, n) == ShardFromHash(y, n) <==> Congruent(x, y, n)
  {
    DividesDifference(n, x, y);
  }

  /** A position is selected by exactly the hashes congruent to it. */
  lemma SelectedIff(hash: nat, shard: nat, n: nat)
    requires shard < n
    ensures Congruent(hash, shard, n) <==> shard == ShardFromHash(hash, n)
  {
    DividesDifference(n, hash, shard);
  }

  /**
   Which of `n` shards a document goes to: the hash, which is the residue of a * id + b, modulo n. A given hash
   that is not negative is hashed like an id; a negative one addresses a shard directly, -1 the first.
   */
  function ComputeShard(a: int, b: int, n: nat, id: Int32, given: Option<Int32>): (shard: nat)
    requires n > 0
    requires given.Some? ==> -0x8000_0000 < given.value
    ensures shard < n
    ensures given.None? ==> Congruent((a * id + b) % HASH_PRIME, shard, n)
    ensures given.Some? && given.value >= 0 ==> Congruent((a * given.value + b) % HASH_PRIME, shard, n)
    ensures given.Some? && given.value < 0 ==> Congruent(-1 - given.value as int, shard, n)
  {
    match given
    case Some(g) =>
      var hash: int := g;
      if hash < 0 then
        var direct: int := -1 - hash;
        ShardFromHash(direct, n)
      else
        HashIsEuclidean(a, b, HASH_PRIME, hash);
        ShardFromHash(Hash(a, b, HASH_PRIME, hash), n)
    case None =>
      HashIsEuclidean(a, b, HASH_PRIME, id);
      ShardFromHash(Hash(a, b, HASH_PRIME, id), n)
  }

  // ----- Blue-green transfer -----

  /** All replica slots of an index, shard after shard. */
  function Slots<W>(shards: seq<seq<W>>): seq<W> {
    if shards == [] then [] else Slots(shards[..|shards| - 1]) + shards[|shards| - 1]
  }

  /** Slot number k, counted over the whole index, goes to new worker k modulo n. */
  function Dealt<W>(workers: seq<W>, from: nat, count: nat): (r: seq<W>)
    requires workers != []
    ensures |r| == count
    ensures forall k | 0 <= k < count :: r[k] == workers[(from + k) % |workers|]
  {
    seq(count, k requires 0 <= k < count => workers[(from + k) % |workers|])
  }

  /** The index after the transfer: the same ragged shape, with every slot dealt anew. */
  function Transfer<W>(shards: seq<seq<W>>, workers: seq<W>): (r: seq<seq<W>>)
    requires workers != []
    ensures |r| == |shards|
  {
    if shards == [] then []
    else
      var n := |shards| - 1;
      Transfer(shards[..n], workers) + [Dealt(workers, |Slots(shards[..n])|, |shards[n]|)]
  }

  /** Over the whole index the slots are dealt in turn. */
  lemma {:induction false} TransferDeals<W>(shards: seq<seq<W>>, workers: seq<W>)
    requires workers != []
    ensures Slots(Transfer(shards, workers)) == Dealt(workers, 0, |Slots(shards)|)
  {
    if shards != [] {
      var n := |shards| - 1;
      TransferDeals(shards[..n], workers);
      var t := Transfer(shards, workers);
      assert t[..n] == Transfer(shards[..n], workers);
      assert Dealt(workers, 0, |Slots(shards)|)
          == Dealt(workers, 0, |Slots(shards[..n])|) + Dealt(workers, |Slots(shards[..n])|, |shards[n]|);
    }
  }

  function Count<W(==)>(s: seq<W>, w: W): nat {
    if s == [] then 0 else Count(s[..|s| - 1], w) + if s[|s| - 1] == w then 1 else 0
  }

  lemma LastDealt<W>(workers: seq<W>, count: nat)
    requires workers != [] && count > 0
    ensures Dealt(workers, 0, count) == Dealt(workers, 0, count - 1) + [workers[(count - 1) % |workers|]]
  {
  }

  lemma CountAppend<W>(s: seq<W>, x: W, w: W)
    ensures Count(s + [x], w) == Count(s, w) + if x == w then 1 else 0
  {
    assert (s + [x])[..|s|] == s;
  }

  lemma {:induction false} CountPositive<W>(s: seq<W>, i: nat)
    requires i < |s|
    ensures Count(s, s[i]) > 0
  {
    if i < |s| - 1 {
      CountPositive(s[..|s| - 1], i);
    }
  }

  lemma {:induction false} DealtCount<W(!new)>(workers: seq<W>, count: nat, j: nat)
    requires Distinct(workers) && j < |workers|
    ensures Count(Dealt(workers, 0, count), workers[j])
         == count / |workers| + if j < count % |workers| then 1 else 0
  {
    if count > 0 {
      DealtCount(workers, count - 1, j);
      NextQuotient(count - 1, |workers|);
      LastDealt(workers, count);
      hide Dealt, Count;
      CountAppend(Dealt(workers, 0, count - 1), workers[(count - 1) % |workers|], workers[j]);
    }
  }

  lemma NextQuotient(m: nat, n: nat)
    requires n > 0
    ensures m % n + 1 < n ==> (m + 1) / n == m / n && (m + 1) % n == m % n + 1
    ensures m % n + 1 == n ==> (m + 1) / n == m / n + 1 && (m + 1) % n == 0
  {
    var q, r := m / n, m % n;
    if r + 1 < n {
      ModUnique(m + 1, n, q, r + 1);
    } else {
      ModUnique(m + 1, n, q + 1, 0);
    }
  }

  /**
   The transfer is balanced for any ragged replica counts: with S slots and n distinct new workers, each gets
   floor(S/n) of them, and the first S mod n one more.
   */
  lemma TransferIsBalanced<W(!new)>(shards: seq<seq<W>>, workers: seq<W>, j: nat)
    requires Distinct(workers) && j < |workers|
    ensures Count(Slots(Transfer(shards, workers)), workers[j])
         == |Slots(shards)| / |workers| + if j < |Slots(shards)| % |workers| then 1 else 0
  {
    TransferDeals(shards, workers);
    DealtCount(workers, |Slots(shards)|, j);
  }

  lemma {:induction false} TransferShape<W>(shards: seq<seq<W>>, workers: seq<W>, i: nat)
    requires workers != [] && i < |shards|
    ensures |Transfer(shards, workers)[i]| == |shards[i]|
  {
    var n := |shards| - 1;
    if i < n {
      TransferShape(shards[..n], workers, i);
    }
  }

  /** No old worker keeps a slot. */
  lemma {:induction false} TransferUsesNewWorkers<W>(shards: seq<seq<W>>, workers: seq<W>, i: nat, j: nat)
    requires workers != [] && i < |shards| && j < |shards[i]|
    ensures j < |Transfer(shards, workers)[i]|
    ensures Transfer(shards, workers)[i][j] in workers
  {
    TransferShape(shards, workers, i);
    var n := |shards| - 1;
    if i < n {
      TransferUsesNewWorkers(shards[..n], workers, i, j);
    }
  }

  /** The most workers a shard has room for. */
  const MAX_WORKERS := 16

  /** A shard with its replica slots and the metrics kept for each slot. */
  class Shard<W(==)> {
    var workers: seq<W>
    var cpuCycles: seq<real>
    var numRequests: seq<real>
    var size: seq<real>

    ghost predicate Valid()
      reads this
    {
      |workers| == |cpuCycles| == |numRequests| == |size|
    }

    constructor ()
      ensures Valid() && workers == []
    {
      workers, cpuCycles, numRequests, size := [], [], [], [];
    }

    /** All metrics are zero. */
    ghost predicate Cleared()
      reads this
    {
      && (forall x | x in cpuCycles :: x == 0.0)
      && (forall x | x in numRequests :: x == 0.0)
      && (forall x | x in size :: x == 0.0)
    }

    method AssignWorker(w: W)
      requires Valid() && |workers| < MAX_WORKERS
      modifies this
      ensures Valid() && workers == old(workers) + [w]
      ensures cpuCycles == old(cpuCycles) + [0.0]
      ensures numRequests == old(numRequests) + [0.0]
      ensures size == old(size) + [0.0]
    {
      workers := workers + [w];
      cpuCycles, numRequests, size := cpuCycles + [0.0], numRequests + [0.0], size + [0.0];
    }

    /** The slot of a worker, or the number of slots. */
    method WorkerIndex(w: W) returns (j: nat)
      ensures j == FirstIndex(workers, w)
    {
      for i := 0 to |workers|
        invariant w !in workers[..i]
      {
        if workers[i] == w {
          FirstIndexUnique(workers, w, i);
          return i;
        }
      }
      j := |workers|;
    }

    /** shard_reassign: the first slot of the old worker goes to the new one. */
    method Reassign(oldWorker: W, newWorker: W)
      requires Valid() && oldWorker in workers
      modifies this
      ensures Valid() && workers == old(workers)[FirstIndex(old(workers), oldWorker) := newWorker]
      ensures cpuCycles == old(cpuCycles)[FirstIndex(old(workers), oldWorker) := 0.0]
      ensures numRequests == old(numRequests)[FirstIndex(old(workers), oldWorker) := 0.0]
      ensures size == old(size)[FirstIndex(old(workers), oldWorker) := 0.0]
    {
      var j := WorkerIndex(oldWorker);
      FirstIndexFinds(workers, oldWorker);
      SetSlot(j, newWorker);
    }

    /** Gives slot j to a worker and clears its metrics. */
    method SetSlot(j: nat, w: W)
      requires Valid() && j < |workers|
      modifies this
      ensures Valid() && workers == old(workers)[j := w]
      ensures cpuCycles == old(cpuCycles)[j := 0.0]
      ensures numRequests == old(numRequests)[j := 0.0]
      ensures size == old(size)[j := 0.0]
    {
      workers := workers[j := w];
      cpuCycles, numRequests, size := cpuCycles[j := 0.0], numRequests[j := 0.0], size[j := 0.0];
    }

    /** The inner loop of the transfer: every slot of this shard, with the running counter of the index. */
    method DealAll(newWorkers: seq<W>, from: nat) returns (next: nat)
      requires Valid() && newWorkers != []
      modifies this
      ensures Valid()
      ensures workers == Dealt(newWorkers, from, |old(workers)|)
      ensures next == from + |workers|
      ensures Cleared()
    {
      next := from;
      for j := 0 to |workers|
        invariant Valid() && |workers| == |old(workers)|
        invariant workers[..j] == Dealt(newWorkers, from, j)
        invariant next == from + j
        invariant forall k | 0 <= k < j :: cpuCycles[k] == numRequests[k] == size[k] == 0.0
      {
        SetSlot(j, newWorkers[next % |newWorkers|]);
        next := next + 1;
      }
    }
  }

  class Index<W(==)> {
    var shards: seq<Shard<W>>

    ghost predicate Valid()
      reads this, shards
    {
      && (forall s | s in shards :: s.Valid())
      && (forall i, j | 0 <= i < j < |shards| :: shards[i] != shards[j])
    }

    ghost function Layout(): (r: seq<seq<W>>)
      reads this, shards
      ensures |r| == |shards|
      ensures forall i | 0 <= i < |shards| :: r[i] == shards[i].workers
    {
      seq(|shards|, i requires 0 <= i < |shards| reads this, shards => shards[i].workers)
    }

    constructor ()
      ensures Valid() && Layout() == []
    {
      shards := [];
    }

    method CreateShard(w: W)
      requires Valid()
      modifies this
      ensures Valid() && Layout() == old(Layout()) + [[w]]
      ensures fresh(shards[|shards| - 1]) && shards[..|shards| - 1] == old(shards)
    {
      var s := new Shard<W>();
      s.AssignWorker(w);
      shards := shards + [s];
      assert forall i | 0 <= i < |old(shards)| :: shards[i] in old(shards);
      assert Layout()[..|old(shards)|] == old(Layout());
      assert Layout()[|old(shards)|] == [w];
    }

    method TransferShards(newWorkers: seq<W>)
      requires Valid()
      modifies shards
      ensures Valid()
      ensures Layout() == if newWorkers == [] then old(Layout()) else Transfer(old(Layout()), newWorkers)
      ensures newWorkers != [] ==> forall s | s in shards :: s.Cleared()
    {
      if |newWorkers| == 0 {
        return;
      }
      ghost var was := Layout();
      var next := 0;
      assert was[..0] == [];
      for i := 0 to |shards|
        invariant Valid()
        invariant next == |Slots(was[..i])|
        invariant Progress(was, newWorkers, i)
      {
        next := TransferShard(was, newWorkers, i, next);
      }
    }

    /** The first i shards have been dealt anew, the others have not. */
    ghost predicate Progress(was: seq<seq<W>>, newWorkers: seq<W>, i: nat)
      requires newWorkers != []
      reads this, shards
    {
      && |was| == |shards|
      && (forall k | 0 <= k < |shards| ::
            if k < i then shards[k].workers == Transfer(was, newWorkers)[k] && shards[k].Cleared()
            else shards[k].workers == was[k])
    }

    method TransferShard(ghost was: seq<seq<W>>, newWorkers: seq<W>, i: nat, from: nat) returns (next: nat)
      requires Valid() && i < |shards| && newWorkers != [] && Progress(was, newWorkers, i)
      requires from == |Slots(was[..i])|
      modifies shards[i]
      ensures Valid() && Progress(was, newWorkers, i + 1)
      ensures next == |Slots(was[..i + 1])|
    {
      TransferAt(was, newWorkers, i);
      SlotsNext(was, i);
      hide Slots, Transfer, Dealt, Shard.Cleared;
      next := shards[i].DealAll(newWorkers, from);
    }
  }

  lemma SlotsNext<W>(shards: seq<seq<W>>, i: nat)
    requires i < |shards|
    ensures |Slots(shards[..i + 1])| == |Slots(shards[..i])| + |shards[i]|
  {
    assert shards[..i + 1][..i] == shards[..i];
  }

  lemma {:induction false} TransferAt<W>(shards: seq<seq<W>>, workers: seq<W>, i: nat)
    requires workers != [] && i < |shards|
    ensures Transfer(shards, workers)[i] == Dealt(workers, |Slots(shards[..i])|, |shards[i]|)
  {
    var n := |shards| - 1;
    if i < n {
      TransferAt(shards[..n], workers, i);
      assert shards[..n][..i] == shards[..i];
    }
  }
}
