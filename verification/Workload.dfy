/** The dispatcher that plays a loaded request file into the clock, one request ahead of itself. */
module Workload {
  import opened Basics
  import opened EventQueue
  import opened Clocks

  /** A request of the file: its time, and whether its index is known to the collection. */
  datatype Descriptor = Descriptor(time: real, known: bool)

  /** The events of the simulation, from the generator's point of view. */
  datatype Event =
    | DispatchNext
    | Arrival(request: nat)
    | StopSimulation
    | Foreign

  datatype Arrived = Arrived(request: nat, time: real)

  /**
   The generator on its clock. `arrived` is the history of arrivals; `own` is the pending event of the
   dispatcher (its next turn, or the stop event), and `due` the pending arrival, if there are such.
   */
  datatype Playback = Playback(
    requests: seq<Descriptor>,
    current: nat,
    active: bool,
    clock: ClockState<Event>,
    arrived: seq<Arrived>,
    own: Option<Entry<Event>>,
    due: Option<Entry<Event>>)

  /** The entry that scheduling for `target` adds now. */
  function Added(c: ClockState<Event>, target: real, k: Event): Entry<Event> {
    Entry(if target < c.time then c.time else target, c.counter + 1, k)
  }

  function ScheduleOwn(s: Playback, target: real, k: Event): Playback {
    s.(clock := Schedule(s.clock, target, k), own := Some(Added(s.clock, target, k)))
  }

  function ScheduleArrival(s: Playback, target: real, k: Event): Playback {
    s.(clock := Schedule(s.clock, target, k), due := Some(Added(s.clock, target, k)))
  }

  /** workload_start */
  function Start(s: Playback): Playback {
    if |s.requests| == 0 then s else ScheduleOwn(s, s.requests[0].time, DispatchNext)
  }

  /** A request with an unknown index is skipped. */
  function DispatchRequest(s: Playback, k: nat): Playback
    requires k < |s.requests|
  {
    if s.requests[k].known then ScheduleArrival(s, s.requests[k].time, Arrival(k)) else s
  }

  /** workload_dispatch_next */
  function NextTurn(s: Playback): Playback {
    if !s.active || s.current >= |s.requests| then s
    else
      var t := DispatchRequest(s, s.current).(current := s.current + 1);
      if t.current < |t.requests| then
        ScheduleOwn(t, t.requests[t.current].time, DispatchNext)
      else
        ScheduleOwn(t.(active := false), t.clock.time + 1.0, StopSimulation)
  }

  /** The loop fires an entry and its callback runs. */
  function FireEvent(s: Playback, e: Entry<Event>): Playback {
    var there := s.(clock := Fire(s.clock, e),
                    own := if s.own == Some(e) then None else s.own,
                    due := if s.due == Some(e) then None else s.due);
    match e.k
    case DispatchNext => NextTurn(there)
    case Arrival(k) => there.(arrived := there.arrived + [Arrived(k, there.clock.time)])
    case StopSimulation => there.(clock := there.clock.(running := false))
    case Foreign => there
  }

  datatype Step =
    | FireStep(e: Entry<Event>)
    | ForeignEvent(target: real)
    | ForeignStop

  function Apply(s: Playback, step: Step): Playback {
    match step
    case FireStep(e) => FireEvent(s, e)
    case ForeignEvent(target) => s.(clock := Schedule(s.clock, target, Foreign))
    case ForeignStop => s.(clock := s.clock.(running := false))
  }

  /** The loop goes on while the clock runs, and fires the first pending entry. */
  ghost predicate Allows(s: Playback, step: Step) {
    step.FireStep? ==> s.clock.running && First(step.e, s.clock.pending)
  }

  // ----- What the file promises -----

  /** When request k is dispatched: the latest of the start time and the times of requests 0 to k. */
  function DispatchTime(requests: seq<Descriptor>, start: real, k: nat): real
    requires k < |requests|
  {
    Max(requests[k].time, if k == 0 then start else DispatchTime(requests, start, k - 1))
  }

  /** The arrivals of the first n requests, in file order. */
  function Expected(requests: seq<Descriptor>, start: real, n: nat): seq<Arrived>
    requires n <= |requests|
  {
    if n == 0 then []
    else
      Expected(requests, start, n - 1) +
      if requests[n - 1].known then [Arrived(n - 1, DispatchTime(requests, start, n - 1))] else []
  }

  /** The dispatcher's own pending event: its turn for the current request, or the stop 1 second after the last. */
  ghost predicate OwnOk(s: Playback, start: real) {
    if s.active then
      && s.current < |s.requests|
      && s.own.Some?
      && s.own.value in s.clock.pending
      && s.own.value.k == DispatchNext
      && s.own.value.time == DispatchTime(s.requests, start, s.current)
    else
      && s.current == |s.requests| > 0
      && match s.own
         case Some(e) =>
           && e in s.clock.pending
           && e.k == StopSimulation
           && e.time == DispatchTime(s.requests, start, |s.requests| - 1) + 1.0
         case None => s.due.None? && !s.clock.running
  }

  /** At most the latest dispatched request has still to arrive, and it comes before the dispatcher's next event. */
  ghost predicate DueOk(s: Playback, start: real) {
    && s.current <= |s.requests|
    && match s.due
       case None => s.arrived == Expected(s.requests, start, s.current)
       case Some(e) =>
         && 0 < s.current
         && s.requests[s.current - 1].known
         && e.k == Arrival(s.current - 1)
         && e.time == DispatchTime(s.requests, start, s.current - 1)
         && e in s.clock.pending
         && s.own.Some? && Less(e, s.own.value)
         && s.arrived == Expected(s.requests, start, s.current - 1)
  }

  /** No other pending event is the generator's. */
  ghost predicate NoStrays(s: Playback) {
    forall e | e in s.clock.pending && e.k != Foreign :: s.own == Some(e) || s.due == Some(e)
  }

  ghost predicate Inv(s: Playback, start: real) {
    Ordered(s.clock) && OwnOk(s, start) && DueOk(s, start) && NoStrays(s)
  }

  lemma AddedIsNew(c: ClockState<Event>, target: real, k: Event)
    requires Ordered(c)
    ensures Added(c, target, k) !in c.pending
    ensures Schedule(c, target, k).pending == c.pending + multiset{Added(c, target, k)}
    ensures forall e | e in c.pending && e.time <= Added(c, target, k).time :: Less(e, Added(c, target, k))
  {
  }

  lemma ForeignInv(s: Playback, start: real, target: real)
    requires Inv(s, start)
    ensures Inv(s.(clock := Schedule(s.clock, target, Foreign)), start)
  {
    ScheduleOrdered(s.clock, target, Foreign);
    hide Ordered;
  }

  /** Firing takes exactly one entry away, and nothing of the generator's unless it is the fired one. */
  lemma FiredEntry(s: Playback, start: real, e: Entry<Event>)
    requires Inv(s, start) && First(e, s.clock.pending)
    ensures Ordered(Fire(s.clock, e))
    ensures e !in Fire(s.clock, e).pending
    ensures forall f | f in s.clock.pending && f != e :: f in Fire(s.clock, e).pending
    ensures forall f | f in Fire(s.clock, e).pending :: f in s.clock.pending
    ensures s.own == Some(e) ==> s.due.None?
    ensures e.k != Foreign ==> s.own == Some(e) || s.due == Some(e)
  {
    FireOrdered(s.clock, e);
  }

  lemma ForeignKeepsOwn(s: Playback, r: Playback, start: real)
    requires OwnOk(s, start)
    requires r.requests == s.requests && r.current == s.current && r.active == s.active
    requires r.own == s.own && r.due == s.due && (r.clock.running <==> s.clock.running)
    requires s.own.Some? && s.own.value in s.clock.pending ==> s.own.value in r.clock.pending
    ensures OwnOk(r, start)
  {
    hide DispatchTime;
  }

  lemma ForeignKeepsDue(s: Playback, r: Playback, start: real)
    requires DueOk(s, start)
    requires r.requests == s.requests && r.current == s.current && r.arrived == s.arrived
    requires r.own == s.own && r.due == s.due
    requires s.due.Some? && s.due.value in s.clock.pending ==> s.due.value in r.clock.pending
    ensures DueOk(r, start)
  {
    hide DispatchTime, Expected, Less;
  }

  lemma FireForeignInv(s: Playback, start: real, e: Entry<Event>)
    requires Inv(s, start) && First(e, s.clock.pending) && e.k == Foreign
    ensures Inv(FireEvent(s, e), start)
  {
    FiredEntry(s, start, e);
    var r := FireEvent(s, e);
    hide Ordered, First, DispatchTime, Expected, Less;
    assert s.own != Some(e) && s.due != Some(e);
    ForeignKeepsOwn(s, r, start);
    ForeignKeepsDue(s, r, start);
  }

  lemma ArrivalKeepsOwn(s: Playback, r: Playback, start: real)
    requires OwnOk(s, start) && s.own.Some?
    requires r.requests == s.requests && r.current == s.current && r.active == s.active && r.own == s.own
    requires s.own.value in s.clock.pending ==> s.own.value in r.clock.pending
    ensures OwnOk(r, start)
  {
    hide DispatchTime;
  }

  lemma ArrivalIsNext(s: Playback, r: Playback, start: real, e: Entry<Event>)
    requires DueOk(s, start) && s.due == Some(e)
    requires r.requests == s.requests && r.current == s.current && r.due.None?
    requires e.k.Arrival? ==> r.arrived == s.arrived + [Arrived(e.k.request, e.time)]
    ensures r.arrived == Expected(s.requests, start, s.current)
    ensures DueOk(r, start)
  {
    hide DispatchTime;
  }

  lemma FireArrivalInv(s: Playback, start: real, e: Entry<Event>)
    requires Inv(s, start) && First(e, s.clock.pending) && s.due == Some(e)
    ensures Inv(FireEvent(s, e), start)
    ensures FireEvent(s, e).arrived == Expected(s.requests, start, s.current)
  {
    FiredEntry(s, start, e);
    hide Ordered, First, OwnOk, Expected, DispatchTime;
    var r := FireEvent(s, e);
    ArrivalKeepsOwn(s, r, start);
    ArrivalIsNext(s, r, start, e);
  }

  lemma FireStopInv(s: Playback, start: real, e: Entry<Event>)
    requires Inv(s, start) && First(e, s.clock.pending) && s.own == Some(e) && e.k == StopSimulation
    ensures Inv(FireEvent(s, e), start)
    ensures FireEvent(s, e).arrived == Expected(s.requests, start, |s.requests|)
  {
    FiredEntry(s, start, e);
    RunningIrrelevant(Fire(s.clock, e), false);
    hide Ordered, First;
  }

  /** The generator when its turn has just come: nothing of it is pending, and the time is the request's turn. */
  ghost predicate AtTurn(s: Playback, start: real) {
    && Ordered(s.clock)
    && s.active && s.current < |s.requests|
    && s.own.None? && s.due.None?
    && s.clock.time == DispatchTime(s.requests, start, s.current)
    && s.arrived == Expected(s.requests, start, s.current)
    && (forall e | e in s.clock.pending :: e.k == Foreign)
  }

  /** After the request itself has been dispatched: its arrival, if any, is the only thing pending, and due now. */
  ghost predicate RequestSent(t: Playback, start: real) {
    && Ordered(t.clock)
    && 0 < t.current <= |t.requests|
    && t.clock.time == DispatchTime(t.requests, start, t.current - 1)
    && t.own.None?
    && NoStrays(t)
    && match t.due
       case None => t.arrived == Expected(t.requests, start, t.current)
       case Some(e) =>
         && t.requests[t.current - 1].known
         && e == Entry(t.clock.time, t.clock.counter, Arrival(t.current - 1))
         && e in t.clock.pending
         && t.arrived == Expected(t.requests, start, t.current - 1)
  }

  lemma DispatchRequestInv(s: Playback, start: real)
    requires AtTurn(s, start)
    ensures RequestSent(DispatchRequest(s, s.current).(current := s.current + 1), start)
  {
    if s.requests[s.current].known {
      ScheduleOrdered(s.clock, s.requests[s.current].time, Arrival(s.current));
      AddedIsNew(s.clock, s.requests[s.current].time, Arrival(s.current));
    }
    hide Ordered;
  }

  /** The dispatcher's next event: it is pending, behind the arrival, and nothing else has changed. */
  lemma OwnScheduled(t: Playback, start: real, target: real, k: Event)
    requires RequestSent(t, start)
    ensures var r := ScheduleOwn(t, target, k);
            && Ordered(r.clock)
            && NoStrays(r)
            && r.own.Some?
            && r.own.value in r.clock.pending
            && r.own.value.k == k
            && r.own.value.time == Max(target, t.clock.time)
            && r.requests == t.requests && r.current == t.current && r.active == t.active
            && DueOk(r, start)
  {
    ScheduleOrdered(t.clock, target, k);
    AddedIsNew(t.clock, target, k);
    hide Ordered;
  }

  lemma LastRequestSent(t: Playback, start: real)
    requires RequestSent(t, start)
    ensures RequestSent(t.(active := false), start)
  {
  }

  /** The generator with its next event scheduled, before the flag for the last request. */
  lemma OwnOkAfter(t: Playback, start: real)
    requires t.own.Some? && t.own.value in t.clock.pending && 0 < t.current <= |t.requests|
    requires t.active <==> t.current < |t.requests|
    requires var sent := DispatchTime(t.requests, start, t.current - 1);
             if t.active then
               t.own.value.k == DispatchNext && t.own.value.time == Max(t.requests[t.current].time, sent)
             else
               t.own.value.k == StopSimulation && t.own.value.time == sent + 1.0
    ensures OwnOk(t, start)
  {
  }

  /** A turn is the request itself, and then one event for whatever comes next. */
  lemma DispatchUnfolds(s: Playback)
    requires s.active && s.current < |s.requests|
    ensures var t := DispatchRequest(s, s.current).(current := s.current + 1);
            && t.requests == s.requests && t.current == s.current + 1 && t.active
            && NextTurn(s) == if t.current < |t.requests| then ScheduleOwn(t, t.requests[t.current].time, DispatchNext)
                              else ScheduleOwn(t.(active := false), t.clock.time + 1.0, StopSimulation)
  {
  }

  lemma SentAt(t: Playback, start: real)
    requires RequestSent(t, start)
    ensures 0 < t.current <= |t.requests|
    ensures t.clock.time == DispatchTime(t.requests, start, t.current - 1)
  {
  }

  lemma DispatchInv(s: Playback, start: real)
    requires AtTurn(s, start) && s.active && s.current < |s.requests|
    ensures Inv(NextTurn(s), start)
    ensures NextTurn(s).current == s.current + 1
  {
    hide *;
    DispatchRequestInv(s, start);
    DispatchUnfolds(s);
    var t := DispatchRequest(s, s.current).(current := s.current + 1);
    SentAt(t, start);
    if t.current < |t.requests| {
      OwnScheduled(t, start, t.requests[t.current].time, DispatchNext);
    } else {
      LastRequestSent(t, start);
      OwnScheduled(t.(active := false), start, t.clock.time + 1.0, StopSimulation);
      LaterThan(t.clock.time);
    }
    OwnOkAfter(NextTurn(s), start);
    InvFromParts(NextTurn(s), start);
  }

  lemma LaterThan(time: real)
    ensures Max(time + 1.0, time) == time + 1.0
  {
  }

  lemma InvFromParts(s: Playback, start: real)
    requires Ordered(s.clock) && OwnOk(s, start) && DueOk(s, start) && NoStrays(s)
    ensures Inv(s, start)
  {
  }

  lemma FireDispatchInv(s: Playback, start: real, e: Entry<Event>)
    requires Inv(s, start) && First(e, s.clock.pending) && s.own == Some(e) && e.k == DispatchNext
    ensures Inv(FireEvent(s, e), start)
  {
    FiredEntry(s, start, e);
    var there := s.(clock := Fire(s.clock, e), own := None);
    assert AtTurn(there, start) && FireEvent(s, e) == NextTurn(there) by {
      hide Ordered, First, DispatchTime, Expected, NextTurn;
    }
    hide *;
    DispatchInv(there, start);
  }

  lemma StepInv(s: Playback, start: real, step: Step)
    requires Inv(s, start) && Allows(s, step)
    ensures Inv(Apply(s, step), start)
  {
    match step {
      case FireStep(e) =>
        FiredEntry(s, start, e);
        match e.k {
          case DispatchNext => FireDispatchInv(s, start, e);
          case Arrival(k) => FireArrivalInv(s, start, e);
          case StopSimulation => FireStopInv(s, start, e);
          case Foreign => FireForeignInv(s, start, e);
        }
      case ForeignEvent(target) => ForeignInv(s, start, target);
      case ForeignStop => RunningIrrelevant(s.clock, false);
    }
    hide Ordered, First;
  }

  // ----- Whole runs -----

  ghost predicate Legal(s: Playback, steps: seq<Step>)
    decreases |steps|
  {
    steps != [] ==> Allows(s, steps[0]) && Legal(Apply(s, steps[0]), steps[1..])
  }

  ghost function Execute(s: Playback, steps: seq<Step>): Playback
    decreases |steps|
  {
    if steps == [] then s else Execute(Apply(s, steps[0]), steps[1..])
  }

  /** A loaded generator on a clock that has no events of it yet. */
  ghost predicate Loaded(s: Playback) {
    && Ordered(s.clock)
    && s.active && s.current == 0 && s.arrived == []
    && s.own.None? && s.due.None?
    && (forall e | e in s.clock.pending :: e.k == Foreign)
  }

  lemma StartInv(s: Playback)
    requires Loaded(s) && s.requests != []
    ensures Inv(Start(s), s.clock.time)
  {
    ScheduleOrdered(s.clock, s.requests[0].time, DispatchNext);
    AddedIsNew(s.clock, s.requests[0].time, DispatchNext);
    hide Ordered;
  }

  lemma ApplyKeepsRequests(s: Playback, step: Step)
    ensures Apply(s, step).requests == s.requests
  {
  }

  lemma {:induction false} RunInv(s: Playback, start: real, steps: seq<Step>)
    requires Inv(s, start) && Legal(s, steps)
    ensures Inv(Execute(s, steps), start)
    ensures Execute(s, steps).requests == s.requests
    decreases |steps|
  {
    hide Inv;
    if steps != [] {
      StepInv(s, start, steps[0]);
      ApplyKeepsRequests(s, steps[0]);
      RunInv(Apply(s, steps[0]), start, steps[1..]);
    }
  }

  lemma {:induction false} ExpectedPrefix(requests: seq<Descriptor>, start: real, m: nat, n: nat)
    requires m <= n <= |requests|
    ensures Expected(requests, start, m) <= Expected(requests, start, n)
  {
    if m < n {
      ExpectedPrefix(requests, start, m, n - 1);
    }
  }

  /** The turn of request k is the latest of the start time and the times of all requests up to it. */
  lemma {:induction false} DispatchTimeIsLatest(requests: seq<Descriptor>, start: real, k: nat)
    requires k < |requests|
    ensures start <= DispatchTime(requests, start, k)
    ensures forall j | 0 <= j <= k :: requests[j].time <= DispatchTime(requests, start, k)
    ensures DispatchTime(requests, start, k) == start ||
            exists j :: 0 <= j <= k && DispatchTime(requests, start, k) == requests[j].time
  {
    if k > 0 {
      DispatchTimeIsLatest(requests, start, k - 1);
    }
  }

  /**
   Main result: whatever other events come between, and whether or not the file is sorted, the requests with
   known indices arrive in file order, each at the latest of the start time and the times up to its own; the stop
   event comes exactly one second after the last dispatch, when all of them have arrived.
   */
  lemma RequestsArriveInFileOrder(s: Playback, steps: seq<Step>)
    requires Loaded(s) && s.requests != [] && Legal(Start(s), steps)
    ensures var r, start := Execute(Start(s), steps), s.clock.time;
            && r.arrived <= Expected(s.requests, start, |s.requests|)
            && (r.active || r.own.Some? || r.arrived == Expected(s.requests, start, |s.requests|))
            && (forall e | First(e, r.clock.pending) && e.k == StopSimulation ::
                  && e.time == DispatchTime(s.requests, start, |s.requests| - 1) + 1.0
                  && r.arrived == Expected(s.requests, start, |s.requests|))
  {
    hide *;
    StartInv(s);
    StartKeepsRequests(s);
    RunInv(Start(s), s.clock.time, steps);
    AllArrived(Execute(Start(s), steps), s.clock.time);
  }

  lemma StartKeepsRequests(s: Playback)
    ensures Start(s).requests == s.requests
  {
  }

  lemma AllArrived(r: Playback, start: real)
    requires Inv(r, start)
    ensures r.arrived <= Expected(r.requests, start, |r.requests|)
    ensures r.active || r.own.Some? || r.arrived == Expected(r.requests, start, |r.requests|)
    ensures forall e | First(e, r.clock.pending) && e.k == StopSimulation ::
              && r.requests != []
              && e.time == DispatchTime(r.requests, start, |r.requests| - 1) + 1.0
              && r.arrived == Expected(r.requests, start, |r.requests|)
  {
    ExpectedPrefix(r.requests, start, if r.due.None? then r.current else r.current - 1, |r.requests|);
    forall e | First(e, r.clock.pending) && e.k == StopSimulation
      ensures r.own == Some(e) && r.due.None?
    {
      FiredEntry(r, start, e);
    }
    hide Ordered, First, Expected, DispatchTime;
  }

  // ----- The generator itself -----

  class LoadedGenerator {
    const requests: seq<Descriptor>
    const clock: Clock<Event>
    var current: nat
    var active: bool
    ghost var arrived: seq<Arrived>
    ghost var own: Option<Entry<Event>>
    ghost var due: Option<Entry<Event>>

    ghost predicate Valid()
      reads this, clock, clock.pq, clock.pq.entries
    {
      clock.Valid() && current <= |requests|
    }

    ghost function State(): Playback
      requires Valid()
      reads this, clock, clock.pq, clock.pq.entries
    {
      Playback(requests, current, active, clock.State(), arrived, own, due)
    }

    constructor (requests: seq<Descriptor>, clock: Clock<Event>)
      requires clock.Valid()
      ensures Valid() && this.clock == clock
      ensures State() == Playback(requests, 0, true, clock.State(), [], None, None)
    {
      this.requests, this.clock := requests, clock;
      current, active, arrived, own, due := 0, true, [], None, None;
    }

    /** Schedules the dispatcher's own next event. */
    method ScheduleNext(target: real, k: Event)
      requires Valid()
      modifies this`own, clock.Repr()
      ensures Valid() && fresh(clock.Repr() - old(clock.Repr()))
      ensures State() == ScheduleOwn(old(State()), target, k)
    {
      hide Ordered, Heap, Schedule, Added;
      own := Some(Added(clock.State(), target, k));
      clock.ScheduleEvent(target, k);
    }

    /** workload_start */
    method StartPlaying()
      requires Valid()
      modifies this, clock.Repr()
      ensures Valid() && State() == Start(old(State()))
    {
      if |requests| > 0 {
        ScheduleNext(requests[0].time, DispatchNext);
      }
    }

    /** dispatch_request, down to the arrival event of the request. */
    method Send(k: nat)
      requires Valid() && k < |requests|
      modifies this`due, clock.Repr()
      ensures Valid() && fresh(clock.Repr() - old(clock.Repr()))
      ensures State() == DispatchRequest(old(State()), k)
    {
      hide Ordered, Heap;
      if requests[k].known {
        due := Some(Added(clock.State(), requests[k].time, Arrival(k)));
        clock.ScheduleEvent(requests[k].time, Arrival(k));
      }
    }

    method SendCurrent()
      requires Valid() && current < |requests|
      modifies this`due, this`current, clock.Repr()
      ensures Valid() && fresh(clock.Repr() - old(clock.Repr()))
      ensures State() == DispatchRequest(old(State()), old(current)).(current := old(current) + 1)
    {
      hide Ordered, Heap, DispatchRequest;
      Send(current);
      current := current + 1;
    }

    method ScheduleStop()
      requires Valid()
      modifies this`own, clock.Repr()
      ensures Valid() && fresh(clock.Repr() - old(clock.Repr()))
      ensures State() == ScheduleOwn(old(State()), old(clock.time) + 1.0, StopSimulation)
    {
      hide Ordered, Heap, Schedule, Added, Fire;
      own := Some(Added(clock.State(), clock.time + 1.0, StopSimulation));
      clock.ScheduleEventDelay(1.0, StopSimulation);
    }

    method LastTurn()
      requires Valid()
      modifies this`own, this`active, clock.Repr()
      ensures Valid() && fresh(clock.Repr() - old(clock.Repr()))
      ensures State() == ScheduleOwn(old(State()).(active := false), old(clock.time) + 1.0, StopSimulation)
    {
      hide Ordered, Heap, ScheduleOwn;
      active := false;
      ScheduleStop();
    }

    /** workload_dispatch_next */
    method TakeTurn()
      requires Valid()
      modifies this, clock.Repr()
      ensures Valid() && State() == NextTurn(old(State()))
    {
      hide Ordered, Heap, Schedule, ScheduleOwn, DispatchRequest;
      if !active || current >= |requests| {
        return;
      }
      SendCurrent();
      if current < |requests| {
        ScheduleNext(requests[current].time, DispatchNext);
      } else {
        LastTurn();
      }
    }

    /** workload_stop_clock */
    method StopPlaying()
      requires Valid()
      modifies clock
      ensures Valid() && State() == old(State()).(clock := old(clock.State()).(running := false))
    {
      clock.Stop();
    }
  }
}
