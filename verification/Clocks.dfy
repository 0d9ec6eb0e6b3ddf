/** The simulation clock: scheduling, and the event loop over the queue. */
module Clocks {
  import opened Basics
  import opened EventQueue

  /** What was asked of the clock: fire `k` at `target`; asked for at time `at`. */
  datatype Request<K> = Request(target: real, at: real, k: K)

  /** The clock with its history: all requests so far, the i-th under number i + 1, and all fired entries. */
  datatype ClockState<K(==)> = ClockState(
    time: real,
    counter: nat,
    pending: multiset<Entry<K>>,
    running: bool,
    requests: seq<Request<K>>,
    fired: seq<Entry<K>>)

  function Schedule<K(==)>(c: ClockState<K>, target: real, k: K): ClockState<K> {
    c.(counter := c.counter + 1,
       pending := c.pending + multiset{Entry(if target < c.time then c.time else target, c.counter + 1, k)},
       requests := c.requests + [Request(target, c.time, k)])
  }

  /** When an event scheduled at `now` with this delay fires. */
  function Due(now: real, delay: real): real {
    if delay <= 0.0 then now else now + delay
  }

  /** A non-positive delay fires at the current time, but still through the queue. */
  function ScheduleDelay<K(==)>(c: ClockState<K>, delay: real, k: K): ClockState<K> {
    Schedule(c, Due(c.time, delay), k)
  }

  function Fire<K(==)>(c: ClockState<K>, e: Entry<K>): ClockState<K> {
    c.(time := e.time, pending := c.pending - multiset{e}, fired := c.fired + [e])
  }

  ghost predicate First<K>(e: Entry<K>, pending: multiset<Entry<K>>) {
    e in pending && forall f | f in pending :: !Less(f, e)
  }

  // ----- The invariant -----

  /** The entry is the one made for request number `order`, at the later of its target and its request time. */
  ghost predicate Answers<K>(e: Entry<K>, requests: seq<Request<K>>) {
    && 1 <= e.order <= |requests|
    && e.k == requests[e.order - 1].k
    && e.time == Max(requests[e.order - 1].target, requests[e.order - 1].at)
  }

  ghost predicate PendingOk<K>(pending: multiset<Entry<K>>, requests: seq<Request<K>>, time: real) {
    && (forall e | e in pending :: Answers(e, requests) && time <= e.time && pending[e] == 1)
    && (forall e, f | e in pending && f in pending && e.order == f.order :: e == f)
  }

  ghost predicate FiredOk<K>(fired: seq<Entry<K>>, requests: seq<Request<K>>, time: real) {
    && (forall e | e in fired :: Answers(e, requests) && e.time <= time)
    && (forall i, j | 0 <= i < j < |fired| :: Less(fired[i], fired[j]))
  }

  ghost predicate FiredBefore<K>(fired: seq<Entry<K>>, pending: multiset<Entry<K>>) {
    forall e, f | e in fired && f in pending :: Less(e, f)
  }

  /** Nothing that was scheduled gets lost. */
  ghost predicate AllThere<K>(pending: multiset<Entry<K>>, fired: seq<Entry<K>>, count: nat) {
    forall n | 1 <= n <= count :: Waiting(pending, n) || Done(fired, n)
  }

  ghost predicate Waiting<K>(pending: multiset<Entry<K>>, n: nat) {
    exists e | e in pending :: e.order == n
  }

  ghost predicate Done<K>(fired: seq<Entry<K>>, n: nat) {
    exists e | e in fired :: e.order == n
  }

  ghost predicate Ordered<K>(c: ClockState<K>) {
    && c.counter == |c.requests|
    && PendingOk(c.pending, c.requests, c.time)
    && FiredOk(c.fired, c.requests, c.time)
    && FiredBefore(c.fired, c.pending)
    && AllThere(c.pending, c.fired, c.counter)
  }

  lemma ScheduleOrdered<K>(c: ClockState<K>, target: real, k: K)
    requires Ordered(c)
    ensures Ordered(Schedule(c, target, k))
  {
    var e := Entry(if target < c.time then c.time else target, c.counter + 1, k);
    var r := Schedule(c, target, k);
    PendingGrows(c, Request(target, c.time, k), e);
    FiredKept(c, Request(target, c.time, k), e);
    forall n | 1 <= n <= r.counter ensures Waiting(r.pending, n) || Done(r.fired, n) {
      if n == r.counter {
        assert e in r.pending;
      } else if Waiting(c.pending, n) {
        var f :| f in c.pending && f.order == n;
        assert f in r.pending;
      }
    }
    hide PendingOk, FiredOk, FiredBefore, Waiting, Done;
  }

  lemma PendingGrows<K>(c: ClockState<K>, q: Request<K>, e: Entry<K>)
    requires PendingOk(c.pending, c.requests, c.time)
    requires e.order == |c.requests| + 1 && c.time <= e.time && Answers(e, c.requests + [q])
    ensures PendingOk(c.pending + multiset{e}, c.requests + [q], c.time)
  {
    assert e !in c.pending;
  }

  lemma FiredKept<K>(c: ClockState<K>, q: Request<K>, e: Entry<K>)
    requires FiredOk(c.fired, c.requests, c.time) && FiredBefore(c.fired, c.pending)
    requires e.order == |c.requests| + 1 && c.time <= e.time
    ensures FiredOk(c.fired, c.requests + [q], c.time) && FiredBefore(c.fired, c.pending + multiset{e})
  {
  }

  lemma FireOrdered<K>(c: ClockState<K>, e: Entry<K>)
    requires Ordered(c) && First(e, c.pending)
    ensures Ordered(Fire(c, e))
    ensures c.time <= Fire(c, e).time
  {
    var r := Fire(c, e);
    PendingShrinks(c, e);
    FiredGrows(c, e);
    forall n | 1 <= n <= r.counter ensures Waiting(r.pending, n) || Done(r.fired, n) {
      if Waiting(c.pending, n) {
        var f :| f in c.pending && f.order == n;
        if f == e {
          assert r.fired[|c.fired|] == e;
        } else {
          assert f in r.pending;
        }
      } else {
        var f :| f in c.fired && f.order == n;
        assert f in r.fired;
      }
    }
    hide PendingOk, FiredOk, FiredBefore, Waiting, Done;
  }

  lemma PendingShrinks<K>(c: ClockState<K>, e: Entry<K>)
    requires PendingOk(c.pending, c.requests, c.time) && First(e, c.pending)
    ensures PendingOk(c.pending - multiset{e}, c.requests, e.time)
  {
  }

  lemma FiredGrows<K>(c: ClockState<K>, e: Entry<K>)
    requires PendingOk(c.pending, c.requests, c.time)
    requires FiredOk(c.fired, c.requests, c.time) && FiredBefore(c.fired, c.pending) && First(e, c.pending)
    ensures FiredOk(c.fired + [e], c.requests, e.time)
    ensures FiredBefore(c.fired + [e], c.pending - multiset{e})
  {
    assert forall i | 0 <= i < |c.fired| :: c.fired[i] in c.fired;
  }

  // ----- Whole runs -----

  /** What a callback asks for. */
  datatype Action<K> =
    | ScheduleAt(target: real, k: K)
    | ScheduleAfter(delay: real, k: K)
    | StopClock

  function PerformedOne<K(==)>(c: ClockState<K>, action: Action<K>): (r: ClockState<K>)
    ensures r.time == c.time && r.fired == c.fired
  {
    match action
    case ScheduleAt(target, k) => Schedule(c, target, k)
    case ScheduleAfter(delay, k) => ScheduleDelay(c, delay, k)
    case StopClock => c.(running := false)
  }

  /** Callbacks schedule and may stop the clock; between them the loop fires the first pending entry. */
  datatype Step<K> = Perform(action: Action<K>) | Dispatch(e: Entry<K>)

  function Apply<K(==)>(c: ClockState<K>, step: Step<K>): ClockState<K> {
    match step
    case Perform(action) => PerformedOne(c, action)
    case Dispatch(e) => Fire(c, e)
  }

  ghost predicate Legal<K>(c: ClockState<K>, steps: seq<Step<K>>)
    decreases |steps|
  {
    steps != [] ==>
      && (steps[0].Dispatch? ==> First(steps[0].e, c.pending))
      && Legal(Apply(c, steps[0]), steps[1..])
  }

  ghost function Execute<K>(c: ClockState<K>, steps: seq<Step<K>>): ClockState<K>
    decreases |steps|
  {
    if steps == [] then c else Execute(Apply(c, steps[0]), steps[1..])
  }

  lemma RunningIrrelevant<K>(c: ClockState<K>, running: bool)
    requires Ordered(c)
    ensures Ordered(c.(running := running))
  {
  }

  function NewClock<K(==)>(): ClockState<K> {
    ClockState(0.0, 0, multiset{}, false, [], [])
  }

  lemma {:induction false} RunsAreOrdered<K>(c: ClockState<K>, steps: seq<Step<K>>)
    requires Ordered(c) && Legal(c, steps)
    ensures Ordered(Execute(c, steps))
    ensures c.time <= Execute(c, steps).time
    decreases |steps|
  {
    hide Ordered;
    if steps != [] {
      match steps[0] {
        case Perform(ScheduleAt(target, k)) => ScheduleOrdered(c, target, k);
        case Perform(ScheduleAfter(delay, k)) => ScheduleOrdered(c, Due(c.time, delay), k);
        case Perform(StopClock) => RunningIrrelevant(c, false);
        case Dispatch(e) => FireOrdered(c, e);
      }
      RunsAreOrdered(Apply(c, steps[0]), steps[1..]);
    }
  }

  /**
   Main result: over every run from a new clock, entries fire in strictly increasing order of time and, at the
   same time, of scheduling; each at the later of its target and the time it was scheduled; and each request is
   either still pending or has fired, exactly once.
   */
  lemma EventsFireInOrder<K>(steps: seq<Step<K>>)
    requires Legal(NewClock(), steps)
    ensures var c := Execute(NewClock(), steps);
            && (forall i, j | 0 <= i < j < |c.fired| ::
                  c.fired[i].time < c.fired[j].time ||
                  (c.fired[i].time == c.fired[j].time && c.fired[i].order < c.fired[j].order))
            && (forall i, j | 0 <= i < j < |c.fired| :: c.fired[i].order != c.fired[j].order)
            && (forall e | e in c.fired || e in c.pending :: Answers(e, c.requests))
            && (forall n | 1 <= n <= |c.requests| :: Waiting(c.pending, n) != Done(c.fired, n))
  {
    assert Ordered(NewClock<K>());
    RunsAreOrdered(NewClock(), steps);
    var c := Execute(NewClock(), steps);
    forall n | 1 <= n <= |c.requests| ensures Waiting(c.pending, n) != Done(c.fired, n) {
      if Waiting(c.pending, n) && Done(c.fired, n) {
        NotBoth(c, n);
        assert false;
      }
    }
    forall i, j | 0 <= i < j < |c.fired| ensures c.fired[i].order != c.fired[j].order {
      SameOrderSameTime(c.fired[i], c.fired[j], c.requests);
      assert Less(c.fired[i], c.fired[j]);
    }
    hide PendingOk, FiredBefore, AllThere, Waiting, Done;
  }

  lemma {:induction false} RequestsGrow<K>(c: ClockState<K>, steps: seq<Step<K>>)
    ensures c.requests <= Execute(c, steps).requests
    decreases |steps|
  {
    if steps != [] {
      RequestsGrow(Apply(c, steps[0]), steps[1..]);
    }
  }

  /** In every run after an event was scheduled with a delay, it fires that much later, or at once if there is none. */
  lemma DelayedEventIsDue<K>(c: ClockState<K>, delay: real, k: K, steps: seq<Step<K>>, e: Entry<K>)
    requires Ordered(c) && Legal(ScheduleDelay(c, delay, k), steps)
    requires e in Execute(ScheduleDelay(c, delay, k), steps).fired && e.order == c.counter + 1
    ensures e.time == (if delay > 0.0 then c.time + delay else c.time) && e.k == k
  {
    var scheduled := ScheduleDelay(c, delay, k);
    ScheduleOrdered(c, Due(c.time, delay), k);
    RunsAreOrdered(scheduled, steps);
    RequestsGrow(scheduled, steps);
    assert scheduled.requests[c.counter] == Request(Due(c.time, delay), c.time, k);
    hide PendingOk, FiredBefore, AllThere;
  }

  lemma SameOrderSameTime<K>(e: Entry<K>, f: Entry<K>, requests: seq<Request<K>>)
    requires Answers(e, requests) && Answers(f, requests)
    ensures e.order == f.order ==> e.time == f.time
  {
  }

  lemma NotBoth<K>(c: ClockState<K>, n: nat)
    requires Ordered(c)
    ensures !(Waiting(c.pending, n) && Done(c.fired, n))
  {
    if Waiting(c.pending, n) && Done(c.fired, n) {
      var e :| e in c.pending && e.order == n;
      var f :| f in c.fired && f.order == n;
      SameOrderSameTime(e, f, c.requests);
      assert false;
    }
  }

  lemma FirstOfLayout<K>(layout: seq<Entry<K>>, e: Entry<K>)
    requires e in layout && forall f | f in layout :: !Less(f, e)
    ensures First(e, multiset(layout))
  {
  }

  // ----- The clock itself -----

  function Performed<K(==)>(c: ClockState<K>, actions: seq<Action<K>>): (r: ClockState<K>)
    ensures r.time == c.time && r.fired == c.fired
    decreases actions
  {
    if actions == [] then c else Performed(PerformedOne(c, actions[0]), actions[1..])
  }

  /** One turn of the loop: the entry fires, and its callback acts. */
  function Turned<K(==)>(c: ClockState<K>, e: Entry<K>, callback: (real, K) -> seq<Action<K>>): ClockState<K> {
    Performed(Fire(c, e), callback(e.time, e.k))
  }

  /** The turns for these entries, one after the other. */
  function Replayed<K(==)>(
    c: ClockState<K>, entries: seq<Entry<K>>, callback: (real, K) -> seq<Action<K>>): ClockState<K>
  {
    if entries == [] then c
    else Turned(Replayed(c, entries[..|entries| - 1], callback), entries[|entries| - 1], callback)
  }

  /** Each turn is taken by a running clock, for a first pending entry. */
  ghost predicate Faithful<K>(
    c: ClockState<K>, entries: seq<Entry<K>>, callback: (real, K) -> seq<Action<K>>)
  {
    entries != [] ==>
      var before := Replayed(c, entries[..|entries| - 1], callback);
      && Faithful(c, entries[..|entries| - 1], callback)
      && before.running
      && First(entries[|entries| - 1], before.pending)
  }

  lemma NoTurn<K>(c: ClockState<K>, callback: (real, K) -> seq<Action<K>>)
    ensures Replayed(c, [], callback) == c && Faithful(c, [], callback)
  {
  }

  lemma OneMoreTurn<K>(
    c: ClockState<K>, entries: seq<Entry<K>>, e: Entry<K>, callback: (real, K) -> seq<Action<K>>)
    requires Faithful(c, entries, callback)
    requires Replayed(c, entries, callback).running && First(e, Replayed(c, entries, callback).pending)
    ensures Faithful(c, entries + [e], callback)
    ensures Replayed(c, entries + [e], callback) == Turned(Replayed(c, entries, callback), e, callback)
  {
    assert (entries + [e])[..|entries|] == entries;
  }

  class Clock<K(==,0)> {
    const pq: PriorityQueue<K>
    var time: real
    var counter: nat
    var running: bool
    ghost var requests: seq<Request<K>>
    ghost var fired: seq<Entry<K>>

    ghost function Repr(): set<object>
      reads this, pq
    {
      {this, pq, pq.entries}
    }

    ghost function State(): ClockState<K>
      requires pq.Valid()
      reads this, pq, pq.entries
    {
      ClockState(time, counter, multiset(pq.Layout()), running, requests, fired)
    }

    ghost predicate Valid()
      reads this, pq, pq.entries
    {
      pq.Valid() && Ordered(State())
    }

    constructor ()
      ensures Valid() && fresh(Repr())
      ensures State() == NewClock()
    {
      time, counter, running := 0.0, 0, false;
      pq := new PriorityQueue(4096);
      requests, fired := [], [];
    }

    method ScheduleEvent(target: real, k: K)
      requires Valid()
      modifies Repr()
      ensures Valid() && fresh(Repr() - old(Repr()))
      ensures State() == Schedule(old(State()), target, k)
    {
      ScheduleOrdered(State(), target, k);
      hide Ordered;
      counter := counter + 1;
      requests := requests + [Request(target, time, k)];
      pq.Push(if target < time then time else target, counter, k);
    }

    method ScheduleEventDelay(delay: real, k: K)
      requires Valid()
      modifies Repr()
      ensures Valid() && fresh(Repr() - old(Repr()))
      ensures State() == ScheduleDelay(old(State()), delay, k)
    {
      hide Ordered, Schedule;
      if delay <= 0.0 {
        ScheduleEvent(time, k);
      } else {
        ScheduleEvent(time + delay, k);
      }
    }

    method SetRunning(on: bool)
      requires Valid()
      modifies this`running
      ensures Valid() && State() == old(State()).(running := on)
    {
      RunningIrrelevant(State(), on);
      hide Ordered;
      running := on;
    }

    /** clock_stop. */
    method Stop()
      requires Valid()
      modifies this`running
      ensures Valid() && State() == old(State()).(running := false)
    {
      SetRunning(false);
    }

    /** One turn of the loop, before the callback. */
    method FireNext() returns (e: Entry<K>)
      requires Valid() && pq.size > 0
      modifies Repr()
      ensures Valid() && Repr() == old(Repr())
      ensures First(e, old(State()).pending)
      ensures State() == Fire(old(State()), e)
      ensures old(time) <= time
    {
      hide Ordered, Heap;
      ghost var was := State();
      e := pq.Pop();
      FirstOfLayout(old(pq.Layout()), e);
      FireOrdered(was, e);
      time := e.time;
      fired := fired + [e];
    }

    /** What a callback does. */
    method Perform(actions: seq<Action<K>>)
      requires Valid()
      modifies Repr()
      ensures Valid() && fresh(Repr() - old(Repr()))
      ensures State() == Performed(old(State()), actions)
      decreases actions
    {
      hide Ordered, Heap, Schedule, ScheduleDelay;
      if actions != [] {
        PerformOne(actions[0]);
        Perform(actions[1..]);
      }
    }

    method PerformOne(action: Action<K>)
      requires Valid()
      modifies Repr()
      ensures Valid() && fresh(Repr() - old(Repr()))
      ensures State() == PerformedOne(old(State()), action)
    {
      hide Ordered, Heap, Schedule, ScheduleDelay;
      match action
      case ScheduleAt(target, k) => ScheduleEvent(target, k);
      case ScheduleAfter(delay, k) => ScheduleEventDelay(delay, k);
      case StopClock => Stop();
    }

    /** One turn of the loop. */
    method TakeTurn(callback: (real, K) -> seq<Action<K>>) returns (e: Entry<K>)
      requires Valid() && pq.size > 0
      modifies Repr()
      ensures Valid() && fresh(Repr() - old(Repr()))
      ensures First(e, old(State()).pending)
      ensures State() == Turned(old(State()), e, callback)
      ensures old(time) <= time && fired == old(fired) + [e]
    {
      hide Ordered, Heap, Performed, First;
      e := FireNext();
      Perform(callback(time, e.k));
    }

    /**
     The event loop, observed for at most `limit` events; `callback` says what firing k at a time does. It takes
     turns as the callbacks direct, and ends because one of them stopped the clock or because nothing is pending.
     */
    method Run(callback: (real, K) -> seq<Action<K>>, limit: nat) returns (over: bool)
      requires Valid()
      modifies Repr()
      ensures Valid() && fresh(Repr() - old(Repr()))
      ensures old(fired) <= fired && old(time) <= time
      ensures var start, turns := old(State()).(running := true), fired[|old(fired)|..];
              var last := Replayed(start, turns, callback);
              && Faithful(start, turns, callback)
              && (over ==> State() == last.(running := false) && (!last.running || last.pending == multiset{}))
              && (!over ==> State() == last && |turns| == limit)
    {
      hide Ordered, Heap, Turned, First, Faithful, Replayed;
      SetRunning(true);
      ghost var start, turns := State(), [];
      NoTurn(start, callback);
      assert fired == old(fired) + turns;
      var n := 0;
      while running && pq.size > 0
        invariant Valid() && fresh(Repr() - old(Repr()))
        invariant old(time) <= time
        invariant fired == old(fired) + turns && |turns| == n <= limit
        invariant State() == Replayed(start, turns, callback) && Faithful(start, turns, callback)
        decreases limit - n
      {
        if n == limit {
          return false;
        }
        var e := TakeTurn(callback);
        OneMoreTurn(start, turns, e, callback);
        turns, n := turns + [e], n + 1;
      }
      over := true;
      SetRunning(false);
    }
  }
}
