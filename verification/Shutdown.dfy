/** Shutting down a worker's CPU pool: the wait queue is finalized and its waiters fail, one by one. */
module Shutdown {
  import opened Basics
  import opened Scheduling

  lemma DoomedWaiter(s: State)
    requires Settled(s) && s.finalized && s.waiting != []
    ensures Doomed(Dequeue(s), s.waiting[0])
  {
    DequeueInv(s, {}, 0);
    assert {} + {s.waiting[0].caller.id} == {s.waiting[0].caller.id};
  }

  /** The shutdown loop. Each round fails one waiter, and no callback can make the queue grow again. */
  function Drain(s: State): (r: State)
    requires Settled(s) && s.finalized
    ensures Settled(r) && r.waiting == [] && SameWorker(s, r)
    decreases |s.waiting|
  {
    if s.waiting == [] then s
    else
      DoomedWaiter(s);
      Drain(GotCpu(Dequeue(s), s.waiting[0]))
  }

  lemma FinalizeInv(s: State)
    requires Settled(s)
    ensures Settled(Finalized(s))
  {
  }

  function SpinDown(s: State): (r: State)
    requires Settled(s)
    ensures Settled(r) && r.waiting == [] && SameWorker(s, r)
  {
    FinalizeInv(s);
    Drain(Finalized(s))
  }

  // ----- Shutting down answers every waiter -----

  /** The completions, in order, of the operations with ids below `bound`. */
  function Below(completed: seq<Completion>, bound: nat): seq<Completion> {
    if completed == [] then []
    else (if completed[0].id < bound then [completed[0]] else []) + Below(completed[1..], bound)
  }

  function Failures(waiting: seq<Waiter>): seq<Completion> {
    if waiting == [] then []
    else [Completion(waiting[0].caller.id, waiting[0].caller.outer, R5XX)] + Failures(waiting[1..])
  }

  lemma Associative<T>(a: seq<T>, b: seq<T>, c: seq<T>)
    ensures a + (b + c) == (a + b) + c
  {
  }

  lemma {:induction false} BelowAppend(a: seq<Completion>, b: seq<Completion>, bound: nat)
    ensures Below(a + b, bound) == Below(a, bound) + Below(b, bound)
  {
    if a == [] {
      assert a + b == b;
    } else {
      var first := if a[0].id < bound then [a[0]] else [];
      assert (a + b)[0] == a[0] && (a + b)[1..] == a[1..] + b;
      assert Below(a + b, bound) == first + Below(a[1..] + b, bound);
      assert Below(a, bound) == first + Below(a[1..], bound);
      hide Below;
      BelowAppend(a[1..], b, bound);
      Associative(first, Below(a[1..], bound), Below(b, bound));
    }
  }

  lemma {:induction false} BelowNone(a: seq<Completion>, bound: nat)
    requires forall c | c in a :: bound <= c.id
    ensures Below(a, bound) == []
  {
    if a != [] {
      BelowNone(a[1..], bound);
    }
  }

  lemma BelowOne(c: Completion, bound: nat)
    requires c.id < bound
    ensures Below([c], bound) == [c]
  {
  }

  lemma DrainAnswersFrom(s: State, bound: nat)
    requires Settled(s) && s.finalized && bound <= s.ram.nextId
    requires forall w | w in s.waiting :: w.caller.id < bound
    ensures s.completed <= Drain(s).completed
    ensures Below(Drain(s).completed[|s.completed|..], bound) == Failures(s.waiting)
    decreases |s.waiting|
  {
    hide PoolOk, EventsOk, QueueOk, LedgerOk, FifoOk, OwnersOk, OutcomesOk;
    var n := |s.completed|;
    if s.waiting == [] {
      assert s.completed[n..] == [];
    } else {
      DoomedWaiter(s);
      var w := s.waiting[0];
      var t := GotCpu(Dequeue(s), w);
      assert s.waiting == [w] + s.waiting[1..];
      DrainAnswersFrom(t, bound);
      RoundAnswers(s, t, Drain(t), bound);
    }
  }

  /** One round of the loop adds the failure of its waiter; everything its callbacks add is younger. */
  lemma RoundAnswers(s: State, t: State, r: State, bound: nat)
    requires s.waiting != [] && Later(Dequeue(s), t, {s.waiting[0].caller.id}) && bound <= s.ram.nextId
    requires |t.completed| > |s.completed| && s.waiting[0].caller.id < bound
    requires var w := s.waiting[0]; t.completed[|s.completed|] == Completion(w.caller.id, w.caller.outer, R5XX)
    requires forall i, j | 0 <= i < j < |t.completed| :: t.completed[i].id != t.completed[j].id
    requires t.completed <= r.completed
    ensures Below(r.completed[|s.completed|..], bound)
         == [t.completed[|s.completed|]] + Below(r.completed[|t.completed|..], bound)
  {
    hide Below, Inv;
    var n, m := |s.completed|, |t.completed|;
    var own, young, rest := [t.completed[n]], t.completed[n + 1..], r.completed[m..];
    forall c | c in young ensures bound <= c.id {
      var i :| 0 <= i < |young| && young[i] == c;
      assert t.completed[n + 1 + i] == c;
    }
    BelowOne(t.completed[n], bound);
    assert r.completed[n..] == own + (young + rest);
    hide Later;
    BelowNone(young, bound);
    BelowAppend(young, rest, bound);
    BelowAppend(own, young + rest, bound);
  }

  /**
   Main result on shutdown: every request that waited is answered exactly once, with an error, in the order of
   the queue, whatever its callback does; afterwards nobody waits.
   */
  lemma SpinDownAnswersEveryWaiter(s: State)
    requires Settled(s)
    ensures var r := SpinDown(s);
            && r.waiting == []
            && r.finalized
            && s.completed <= r.completed
            && Below(r.completed[|s.completed|..], s.ram.nextId) == Failures(s.waiting)
  {
    FinalizeInv(s);
    DrainAnswersFrom(Finalized(s), s.ram.nextId);
    DrainStaysFinalized(Finalized(s));
  }

  lemma DrainStaysFinalized(s: State)
    requires Settled(s) && s.finalized
    ensures Drain(s).finalized
    decreases |s.waiting|
  {
    if s.waiting != [] {
      DoomedWaiter(s);
      DrainStaysFinalized(GotCpu(Dequeue(s), s.waiting[0]));
    }
  }
}
