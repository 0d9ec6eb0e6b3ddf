/**
 The RAM ledger of a worker: live reservations, and the utilization integral the profiler reports.
 Times, byte counts and their products are reals.
 */
module RamLedger {
  import opened Basics
  import opened DynArrays

  datatype Reservation = Reservation(id: nat, start: real, bytes: real) {
    /** Byte-seconds held between `from` (or the start, if later) and `to`. */
    function Area(from: real, to: real): real {
      bytes * (to - Max(from, start))
    }
  }

  datatype Report = Report(average: real, ratio: real)

  datatype RamState = RamState(
    capacity: real,
    utilized: real,
    integrated: real,
    ongoing: seq<Reservation>,
    nextId: nat,
    lastProfiled: real)
  {
    function Available(): real {
      capacity - utilized
    }

    /** Takes `bytes` and opens a reservation under the next id. */
    function Reserve(now: real, bytes: real): RamState {
      this.(utilized := utilized + bytes,
            ongoing := ongoing + [Reservation(nextId, now, bytes)],
            nextId := nextId + 1)
    }

    /** Closes the reservation with this id: integrates it, frees its bytes, swaps the last one in. */
    function Release(now: real, id: nat): RamState {
      var i := IndexOfId(ongoing, id);
      if i < |ongoing| then
        this.(integrated := integrated + ongoing[i].Area(lastProfiled, now),
              utilized := utilized - ongoing[i].bytes,
              ongoing := SwapRemoveAt(ongoing, i))
      else
        this
    }

    /** The byte-seconds that a profiler pass at `now` attributes to the window it closes. */
    function WindowTotal(now: real): real {
      integrated + SumArea(ongoing, lastProfiled, now)
    }

    /** What a profiler pass at `now` reports; nothing for an empty window. */
    function ProfileReport(now: real): Option<Report>
      requires capacity > 0.0
    {
      var window := now - lastProfiled;
      if window <= 0.0 then None
      else
        var average := WindowTotal(now) / window;
        Some(Report(average, average / capacity))
    }

    /** The ledger after a profiler pass at `now`. */
    function Profiled(now: real): RamState {
      this.(integrated := if now - lastProfiled <= 0.0 then integrated else 0.0,
            lastProfiled := now)
    }

    /** The books balance: bytes in use are exactly the bytes of the live reservations, within capacity. */
    ghost predicate Sound(now: real) {
      && 0.0 < capacity
      && 0.0 <= utilized <= capacity
      && utilized == SumBytes(ongoing)
      && lastProfiled <= now
      && (forall r | r in ongoing :: 0.0 <= r.bytes && r.start <= now && r.id < nextId)
      && DistinctIds(ongoing)
    }
  }

  ghost predicate DistinctIds(s: seq<Reservation>) {
    forall i, j | 0 <= i < j < |s| :: s[i].id != s[j].id
  }

  ghost function Ids(s: seq<Reservation>): set<nat> {
    set r | r in s :: r.id
  }

  function IndexOfId(s: seq<Reservation>, id: nat): (i: nat)
    ensures i <= |s|
    ensures i < |s| ==> s[i].id == id
    ensures forall j | 0 <= j < i :: s[j].id != id
  {
    if s == [] || s[0].id == id then 0 else 1 + IndexOfId(s[1..], id)
  }

  function SumBytes(s: seq<Reservation>): real {
    if s == [] then 0.0 else SumBytes(s[..|s| - 1]) + s[|s| - 1].bytes
  }

  function SumArea(s: seq<Reservation>, from: real, to: real): real {
    if s == [] then 0.0 else SumArea(s[..|s| - 1], from, to) + s[|s| - 1].Area(from, to)
  }

  lemma {:induction false} SumsOfUpdate(s: seq<Reservation>, i: nat, r: Reservation, from: real, to: real)
    requires i < |s|
    ensures SumBytes(s[i := r]) == SumBytes(s) - s[i].bytes + r.bytes
    ensures SumArea(s[i := r], from, to) == SumArea(s, from, to) - s[i].Area(from, to) + r.Area(from, to)
  {
    var n := |s| - 1;
    if i == n {
      assert s[i := r][..n] == s[..n];
    } else {
      assert s[i := r][..n] == s[..n][i := r];
      SumsOfUpdate(s[..n], i, r, from, to);
    }
  }

  /** Swap-removal takes exactly the removed reservation out of both sums. */
  lemma SumsOfSwapRemove(s: seq<Reservation>, i: nat, from: real, to: real)
    requires i < |s|
    ensures SumBytes(SwapRemoveAt(s, i)) == SumBytes(s) - s[i].bytes
    ensures SumArea(SwapRemoveAt(s, i), from, to) == SumArea(s, from, to) - s[i].Area(from, to)
  {
    SumsOfUpdate(s, i, s[|s| - 1], from, to);
  }

  lemma Distribute(a: real, b: real, d: real)
    ensures (a + b) * d == a * d + b * d
  {
  }

  lemma AreaAdvances(r: Reservation, from: real, now: real, later: real)
    ensures r.Area(from, later) == r.Area(from, now) + r.bytes * (later - now)
  {
  }

  lemma {:induction false} SumAreaAdvances(s: seq<Reservation>, from: real, now: real, later: real)
    ensures SumArea(s, from, later) == SumArea(s, from, now) + SumBytes(s) * (later - now)
  {
    if s != [] {
      var last := s[|s| - 1];
      SumAreaAdvances(s[..|s| - 1], from, now, later);
      AreaAdvances(last, from, now, later);
      Distribute(SumBytes(s[..|s| - 1]), last.bytes, later - now);
    }
  }

  lemma {:induction false} SumAreaOfEmptyWindow(s: seq<Reservation>, now: real)
    requires forall r | r in s :: r.start <= now
    ensures SumArea(s, now, now) == 0.0
  {
    if s != [] {
      SumAreaOfEmptyWindow(s[..|s| - 1], now);
    }
  }

  /** No single reservation is larger than their sum. */
  lemma {:induction false} SumBytesNonNegative(s: seq<Reservation>)
    requires forall r | r in s :: 0.0 <= r.bytes
    ensures 0.0 <= SumBytes(s)
    ensures forall r | r in s :: r.bytes <= SumBytes(s)
  {
    if s != [] {
      var n := |s| - 1;
      SumBytesNonNegative(s[..n]);
      assert s == s[..n] + [s[n]];
    }
  }

  lemma ReserveSound(r: RamState, now: real, bytes: real)
    requires r.Sound(now) && 0.0 <= bytes <= r.Available()
    ensures r.Reserve(now, bytes).Sound(now)
    ensures r.Reserve(now, bytes).utilized == r.utilized + bytes
    ensures r.Reserve(now, bytes).ongoing == r.ongoing + [Reservation(r.nextId, now, bytes)]
    ensures Ids(r.Reserve(now, bytes).ongoing) == Ids(r.ongoing) + {r.nextId}
  {
    var s := r.Reserve(now, bytes).ongoing;
    assert s[..|r.ongoing|] == r.ongoing;
    assert s[|r.ongoing|] == Reservation(r.nextId, now, bytes);
  }

  lemma SwapRemoveIds(s: seq<Reservation>, i: nat)
    requires i < |s| && DistinctIds(s)
    ensures DistinctIds(SwapRemoveAt(s, i))
    ensures Ids(SwapRemoveAt(s, i)) == Ids(s) - {s[i].id}
  {
    SwapRemoveTakesOut(s, i);
  }

  lemma IdFound(s: seq<Reservation>, x: Reservation)
    requires DistinctIds(s) && x in s
    ensures IndexOfId(s, x.id) < |s| && s[IndexOfId(s, x.id)] == x
  {
    var j :| 0 <= j < |s| && s[j] == x;
  }

  /** The reservation leaves with its bytes; the others stay as they are. */
  lemma ReleaseTakesOut(r: RamState, now: real, id: nat)
    requires DistinctIds(r.ongoing)
    ensures forall x | x in r.ongoing :: x.id == id ==> r.Release(now, id).utilized == r.utilized - x.bytes
    ensures forall x :: x in r.Release(now, id).ongoing <==> x in r.ongoing && x.id != id
  {
    var i := IndexOfId(r.ongoing, id);
    forall x | x in r.ongoing ensures x.id == id ==> r.Release(now, id).utilized == r.utilized - x.bytes {
      IdFound(r.ongoing, x);
    }
    if i < |r.ongoing| {
      SwapRemoveTakesOut(r.ongoing, i);
    }
  }

  lemma SwapRemoveTakesOut(s: seq<Reservation>, i: nat)
    requires i < |s| && DistinctIds(s)
    ensures forall x :: x in SwapRemoveAt(s, i) <==> x in s && x.id != s[i].id
  {
    var t := SwapRemoveAt(s, i);
    forall x ensures x in t <==> x in s && x.id != s[i].id {
      if x in s && x.id != s[i].id {
        var j :| 0 <= j < |s| && s[j] == x;
        assert t[if j == |s| - 1 then i else j] == x;
      }
    }
  }

  lemma ReleaseSound(r: RamState, now: real, id: nat)
    requires r.Sound(now)
    ensures r.Release(now, id).Sound(now)
    ensures Ids(r.Release(now, id).ongoing) == Ids(r.ongoing) - {id}
  {
    var i := IndexOfId(r.ongoing, id);
    if i < |r.ongoing| {
      SumsOfSwapRemove(r.ongoing, i, r.lastProfiled, now);
      SwapRemoveIds(r.ongoing, i);
      SumBytesNonNegative(SwapRemoveAt(r.ongoing, i));
      assert r.ongoing[i] in r.ongoing;
    }
  }

  // ----- Accounting over whole runs -----

  /** Bytes times held time of the live reservation with this id. */
  function HeldBy(ram: RamState, now: real, id: nat): real {
    var i := IndexOfId(ram.ongoing, id);
    if i < |ram.ongoing| then ram.ongoing[i].bytes * (now - ram.ongoing[i].start) else 0.0
  }

  datatype Op = ReserveBytes(bytes: real) | ReleaseId(id: nat) | ProfilerPass

  datatype Timed = At(time: real, op: Op)

  /** A window that a profiler pass closed: its length, the integral of the bytes in use over it, and the report. */
  datatype Window = Window(length: real, used: real, report: Report)

  /**
   A ledger with its history: `integral` is the time integral of the bytes in use since the start, and `before` what
   it was when the current window began; `held` the byte-seconds (bytes times held time) of the reservations closed
   so far; `windows` the windows that profiler passes have reported on.
   */
  datatype Run = Run(
    ram: RamState,
    now: real,
    integral: real,
    before: real,
    held: real,
    windows: seq<Window>)
  {
    function Advance(t: real): Run {
      this.(now := t, integral := integral + ram.utilized * (t - now))
    }

    function Apply(op: Op): Run
      requires ram.capacity > 0.0
    {
      match op
      case ReserveBytes(bytes) =>
        if ram.Available() < bytes then this else this.(ram := ram.Reserve(now, bytes))
      case ReleaseId(id) =>
        this.(ram := ram.Release(now, id), held := held + HeldBy(ram, now, id))
      case ProfilerPass =>
        this.(ram := ram.Profiled(now),
              before := integral,
              windows := match ram.ProfileReport(now)
                         case None => windows
                         case Some(r) => windows + [Window(now - ram.lastProfiled, integral - before, r)])
    }

    /** Every byte-second is counted exactly once, in each of three independent ways of counting. */
    ghost predicate Accounted() {
      && ram.Sound(now)
      && (forall r | r in ram.ongoing :: 0.0 <= r.start)
      && integral - before == ram.WindowTotal(now)
      && integral == held + SumArea(ram.ongoing, 0.0, now)
      && WithinCapacity(ram, now)
      && Reported(windows, ram.capacity, ram.lastProfiled, before)
    }
  }

  /** The average over the window is what was in use over it, and the ratio is the average over the capacity. */
  ghost predicate Averages(report: Report, length: real, used: real, capacity: real) {
    && report.average * length == used
    && report.ratio * capacity == report.average
    && 0.0 <= report.ratio <= 1.0
  }

  function SumLength(windows: seq<Window>): real {
    if windows == [] then 0.0 else SumLength(windows[..|windows| - 1]) + windows[|windows| - 1].length
  }

  /** Average times length, summed over the reports. */
  function SumReported(windows: seq<Window>): real {
    if windows == [] then 0.0
    else
      var last := windows[|windows| - 1];
      SumReported(windows[..|windows| - 1]) + last.report.average * last.length
  }

  /** Each report is the average of its window, and the windows cover all the time and all the use until `last`. */
  ghost predicate Reported(windows: seq<Window>, capacity: real, last: real, before: real) {
    && (forall w | w in windows :: 0.0 < w.length && Averages(w.report, w.length, w.used, capacity))
    && SumLength(windows) == last
    && SumReported(windows) == before
  }

  ghost predicate WithinCapacity(ram: RamState, now: real) {
    0.0 <= ram.WindowTotal(now) <= ram.capacity * (now - ram.lastProfiled)
  }

  /** A fresh ledger; the actor's last profile time starts at 0 whenever the ledger is created. */
  function NewRam(capacity: real): RamState {
    RamState(capacity, 0.0, 0.0, [], 0, 0.0)
  }

  function Begin(capacity: real, now: real): Run {
    Run(NewRam(capacity), now, 0.0, 0.0, 0.0, [])
  }

  ghost predicate Chronological(now: real, steps: seq<Timed>)
    decreases |steps|
  {
    steps != [] ==>
      && now <= steps[0].time
      && (steps[0].op.ReserveBytes? ==> 0.0 <= steps[0].op.bytes)
      && Chronological(steps[0].time, steps[1..])
  }

  function Execute(run: Run, steps: seq<Timed>): Run
    requires run.ram.capacity > 0.0
    decreases |steps|
  {
    if steps == [] then run
    else Execute(run.Advance(steps[0].time).Apply(steps[0].op), steps[1..])
  }

  lemma Scale(x: real, y: real, d: real)
    requires 0.0 <= x <= y && 0.0 <= d
    ensures 0.0 <= x * d <= y * d
  {
  }

  /** A window total that grows by `use` over `dt` stays below capacity times the length of the window. */
  lemma BoundAdvances(total: real, use: real, capacity: real, window: real, dt: real)
    requires 0.0 <= total <= capacity * window && 0.0 <= use <= capacity && 0.0 <= dt
    ensures 0.0 <= total + use * dt <= capacity * (window + dt)
  {
    Scale(use, capacity, dt);
    assert capacity * (window + dt) == capacity * window + capacity * dt;
  }

  lemma SoundLater(ram: RamState, now: real, later: real)
    requires ram.Sound(now) && now <= later
    ensures ram.Sound(later)
  {
  }

  lemma WindowTotalAdvances(ram: RamState, now: real, later: real)
    requires ram.Sound(now) && now <= later
    requires WithinCapacity(ram, now)
    ensures ram.WindowTotal(later) == ram.WindowTotal(now) + ram.utilized * (later - now)
    ensures WithinCapacity(ram, later)
  {
    hide SumArea, SumBytes;
    SumAreaAdvances(ram.ongoing, ram.lastProfiled, now, later);
    BoundAdvances(ram.WindowTotal(now), ram.utilized, ram.capacity, now - ram.lastProfiled, later - now);
  }

  lemma AdvanceAccounted(run: Run, t: real)
    requires run.Accounted() && run.now <= t
    ensures run.Advance(t).Accounted()
  {
    hide SumArea, SumBytes, WithinCapacity, RamState.WindowTotal;
    SoundLater(run.ram, run.now, t);
    WindowTotalAdvances(run.ram, run.now, t);
    SumAreaAdvances(run.ram.ongoing, 0.0, run.now, t);
  }

  lemma ReserveAccounted(run: Run, bytes: real)
    requires run.Accounted() && 0.0 <= run.now && 0.0 <= bytes <= run.ram.Available()
    ensures run.Apply(ReserveBytes(bytes)).Accounted()
  {
    ReserveSound(run.ram, run.now, bytes);
    var s := run.ram.Reserve(run.now, bytes).ongoing;
    assert s[..|run.ram.ongoing|] == run.ram.ongoing;
    assert s[|s| - 1].Area(run.ram.lastProfiled, run.now) == 0.0;
    assert s[|s| - 1].Area(0.0, run.now) == 0.0;
  }

  /** Releasing moves the reservation's area from the live partials into the integrated part. */
  lemma ReleaseTotals(ram: RamState, now: real, id: nat)
    requires forall r | r in ram.ongoing :: 0.0 <= r.start
    ensures ram.Release(now, id).WindowTotal(now) == ram.WindowTotal(now)
    ensures SumArea(ram.ongoing, 0.0, now) == SumArea(ram.Release(now, id).ongoing, 0.0, now) + HeldBy(ram, now, id)
  {
    hide SumArea, SumBytes;
    var i := IndexOfId(ram.ongoing, id);
    if i < |ram.ongoing| {
      assert ram.ongoing[i] in ram.ongoing;
      SumsOfSwapRemove(ram.ongoing, i, ram.lastProfiled, now);
      SumsOfSwapRemove(ram.ongoing, i, 0.0, now);
    }
  }

  lemma ReleaseShrinks(ram: RamState, now: real, id: nat)
    ensures forall r | r in ram.Release(now, id).ongoing :: r in ram.ongoing
  {
    hide RamState.WindowTotal, SumBytes, SumArea;
    var i, s := IndexOfId(ram.ongoing, id), ram.Release(now, id).ongoing;
    forall r | r in s ensures r in ram.ongoing {
      var j :| 0 <= j < |s| && s[j] == r;
      assert r == ram.ongoing[j] || r == ram.ongoing[|ram.ongoing| - 1];
    }
  }

  lemma ReleaseKeepsLimits(ram: RamState, now: real, id: nat)
    ensures ram.Release(now, id).capacity == ram.capacity
    ensures ram.Release(now, id).lastProfiled == ram.lastProfiled
  {
  }

  lemma ReleaseWithinCapacity(ram: RamState, now: real, id: nat)
    requires forall r | r in ram.ongoing :: 0.0 <= r.start
    requires WithinCapacity(ram, now)
    ensures WithinCapacity(ram.Release(now, id), now)
  {
    hide RamState.WindowTotal, RamState.Release, SumBytes, SumArea, HeldBy;
    ReleaseTotals(ram, now, id);
    ReleaseKeepsLimits(ram, now, id);
  }

  lemma ReleaseAccounted(run: Run, id: nat)
    requires run.Accounted()
    ensures run.Apply(ReleaseId(id)).Accounted()
  {
    assert 0.0 < run.ram.capacity;
    hide SumArea, SumBytes, RamState.Release, RamState.WindowTotal, HeldBy, WithinCapacity;
    ReleaseSound(run.ram, run.now, id);
    ReleaseTotals(run.ram, run.now, id);
    ReleaseShrinks(run.ram, run.now, id);
    ReleaseWithinCapacity(run.ram, run.now, id);
  }

  lemma RatioInRange(total: real, window: real, capacity: real)
    requires 0.0 < window && 0.0 < capacity && 0.0 <= total <= capacity * window
    ensures Averages(Report(total / window, total / window / capacity), window, total, capacity)
  {
    var average := total / window;
    assert average * window == total;
    assert 0.0 <= average <= capacity;
  }

  /**
   There is a report exactly if time has passed since the last pass. Its average times the length of the window is
   the time integral of the bytes in use over the window, and its ratio is that average over the capacity.
   */
  lemma ReportIsAverage(run: Run)
    requires run.Accounted()
    ensures run.ram.ProfileReport(run.now).Some? <==> run.ram.lastProfiled < run.now
    ensures match run.ram.ProfileReport(run.now)
            case None => run.integral == run.before
            case Some(report) =>
              Averages(report, run.now - run.ram.lastProfiled, run.integral - run.before, run.ram.capacity)
  {
    hide RamState.WindowTotal, SumArea, SumBytes, Averages;
    var window := run.now - run.ram.lastProfiled;
    if window > 0.0 {
      RatioInRange(run.ram.WindowTotal(run.now), window, run.ram.capacity);
    }
  }

  lemma ReportedGrows(windows: seq<Window>, w: Window, capacity: real, last: real, before: real)
    requires Reported(windows, capacity, last, before)
    requires 0.0 < w.length && Averages(w.report, w.length, w.used, capacity)
    ensures Reported(windows + [w], capacity, last + w.length, before + w.used)
  {
    assert (windows + [w])[..|windows|] == windows;
  }

  lemma ProfileAccounted(run: Run)
    requires run.Accounted()
    ensures run.Apply(ProfilerPass).Accounted()
    ensures run.Apply(ProfilerPass).ram.WindowTotal(run.now) == 0.0
  {
    SumAreaOfEmptyWindow(run.ram.ongoing, run.now);
    ReportIsAverage(run);
    var window := run.now - run.ram.lastProfiled;
    hide Averages, Reported;
    if window > 0.0 {
      var report := run.ram.ProfileReport(run.now).value;
      ReportedGrows(run.windows, Window(window, run.integral - run.before, report),
                    run.ram.capacity, run.ram.lastProfiled, run.before);
    }
  }

  /**
   Main result: over any run of reservations, releases and profiler passes from a fresh ledger, each report is the
   average of the bytes in use over its window and the windows cover all time up to the last pass; averages times
   lengths, summed over the reports, are the time integral of the bytes in use less that of the open window, which
   is what the ledger has integrated and the live partials; and the whole integral is also the bytes times held
   time of all reservations.
   */
  lemma {:induction false} AccountingIsExact(run: Run, steps: seq<Timed>)
    requires run.Accounted() && 0.0 <= run.now && Chronological(run.now, steps)
    ensures Execute(run, steps).Accounted()
    decreases |steps|
  {
    if steps != [] {
      AdvanceAccounted(run, steps[0].time);
      var there := run.Advance(steps[0].time);
      match steps[0].op {
        case ReserveBytes(bytes) =>
          if bytes <= there.ram.Available() {
            ReserveAccounted(there, bytes);
          }
        case ReleaseId(id) => ReleaseAccounted(there, id);
        case ProfilerPass => ProfileAccounted(there);
      }
      AccountingIsExact(there.Apply(steps[0].op), steps[1..]);
    }
  }

  lemma FreshLedgerAccounted(capacity: real, now: real)
    requires 0.0 < capacity && 0.0 <= now
    ensures Begin(capacity, now).Accounted()
  {
    Scale(0.0, capacity, now);
  }

  /** The RAM component itself. */
  class Ram {
    const capacity: real
    var utilized: real
    var integrated: real
    var ongoing: seq<Reservation>
    var nextReservationId: nat
    var lastProfiled: real

    ghost function State(): RamState
      reads this
    {
      RamState(capacity, utilized, integrated, ongoing, nextReservationId, lastProfiled)
    }

    constructor (capacity: real)
      ensures State() == NewRam(capacity)
    {
      this.capacity := capacity;
      utilized, integrated, ongoing, nextReservationId, lastProfiled := 0.0, 0.0, [], 0, 0.0;
    }

    function Available(): (bytes: real)
      reads this
      ensures bytes == State().Available()
    {
      capacity - utilized
    }

    method AddReservation(now: real, bytes: real) returns (id: nat)
      modifies this
      ensures State() == old(State()).Reserve(now, bytes)
      ensures id == old(State()).nextId
    {
      utilized := utilized + bytes;
      id := nextReservationId;
      nextReservationId := nextReservationId + 1;
      ongoing := ongoing + [Reservation(id, now, bytes)];
    }

    method RemoveReservationById(now: real, id: nat)
      modifies this
      ensures State() == old(State()).Release(now, id)
    {
      for i := 0 to |ongoing|
        invariant State() == old(State())
        invariant i <= IndexOfId(ongoing, id)
      {
        if ongoing[i].id == id {
          ghost var was := ongoing;
          var start := Max(lastProfiled, ongoing[i].start);
          integrated := integrated + ongoing[i].bytes * (now - start);
          utilized := utilized - ongoing[i].bytes;
          var last := |ongoing| - 1;
          ongoing := if i < last then ongoing[i := ongoing[last]][..last] else ongoing[..last];
          assert i == IndexOfId(was, id) && ongoing == SwapRemoveAt(was, i);
          return;
        }
      }
    }

    /** The profiler's pass over this actor, after which it sets the actor's last profile time. */
    method RunProfiler(now: real) returns (report: Option<Report>)
      requires capacity > 0.0
      modifies this
      ensures report == old(State()).ProfileReport(now)
      ensures report.Some? <==> old(lastProfiled) < now
      ensures report.Some? ==>
                && report.value.average * (now - old(lastProfiled)) == old(State()).WindowTotal(now)
                && report.value.ratio * capacity == report.value.average
      ensures State() == old(State()).Profiled(now)
    {
      var total_time := now - lastProfiled;
      if total_time <= 0.0 {
        lastProfiled := now;
        return None;
      }
      var partial := 0.0;
      for i := 0 to |ongoing|
        invariant State() == old(State())
        invariant partial == SumArea(ongoing[..i], lastProfiled, now)
      {
        var start := Max(lastProfiled, ongoing[i].start);
        assert ongoing[..i + 1][..i] == ongoing[..i];
        partial := partial + (now - start) * ongoing[i].bytes;
      }
      assert ongoing[..|ongoing|] == ongoing;
      var total := integrated + partial;
      var average := total / total_time;
      integrated := 0.0;
      lastProfiled := now;
      report := Some(Report(average, average / capacity));
    }
  }
}
