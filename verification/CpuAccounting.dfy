/**
 One CPU: its reservations, the blue-green slow-down, and the utilization the profiler reports.
 A CPU is busy exactly when its last reserved time is not negative.
 */
module CpuAccounting {
  import opened Basics

  /** The share of a window that `time` seconds at a partial rate make up. */
  function Share(rate: real, time: real, window: real): real
    requires window > 0.0
  {
    rate * time / window
  }

  datatype CpuFields = CpuFields(
    freq: real,
    lastReserved: real,
    busyTime: real,
    enabled: bool,
    blueGreen: bool,
    blueGreenStart: real,
    baseline: real,
    emptyProfiles: nat,
    lastProfiled: real)
  {
    predicate Busy() {
      lastReserved >= 0.0
    }

    function Reserved(now: real): CpuFields {
      this.(lastReserved := now)
    }

    /** The reservation that was made for `duration` completes at `now`. */
    function Completed(now: real, duration: real): CpuFields {
      this.(busyTime := busyTime + Min(duration, now - lastReserved) * (1.0 - baseline),
            lastReserved := -1.0)
    }

    function BlueGreenStarted(now: real, util: real): CpuFields {
      this.(blueGreen := true,
            blueGreenStart := now,
            freq := freq * (1.0 - util),
            baseline := util)
    }

    predicate Idle() {
      busyTime == 0.0 && !Busy()
    }

    /** From its third empty pass on, an idle CPU is not reported any more. */
    predicate Silent() {
      Idle() && emptyProfiles >= 2
    }

    /** What a reservation under way contributes up to `now`. */
    function PartialBusy(now: real): real {
      if Busy() then (now - lastReserved) * (1.0 - baseline) else 0.0
    }

    /** Since when, in this window, the blue-green baseline is carried. */
    function FloorSince(now: real): real {
      Max(lastProfiled, if blueGreen then blueGreenStart else now)
    }

    /** What the blue-green baseline contributes up to `now`. */
    function FloorBusy(now: real): real {
      baseline * (now - FloorSince(now))
    }

    /** The busy time, in full-CPU seconds, that a pass at `now` attributes to its window. */
    function WindowBusy(now: real): real {
      busyTime + PartialBusy(now) + FloorBusy(now)
    }

    function ProfileReport(now: real): Option<real> {
      if Silent() || now - lastProfiled <= 0.0 then None
      else
        var window := now - lastProfiled;
        Some(Share(baseline, now - FloorSince(now), window) + Share(1.0, busyTime + PartialBusy(now), window))
    }

    function Profiled(now: real): CpuFields {
      var counted := this.(emptyProfiles := if Idle() then emptyProfiles + 1 else emptyProfiles);
      var closed :=
        if Silent() || now - lastProfiled <= 0.0 then counted
        else counted.(busyTime := 0.0, lastReserved := if Busy() then now else lastReserved);
      closed.(lastProfiled := now)
    }
  }

  type CpuState = c: CpuFields | 0.0 < c.freq
    witness CpuFields(1.0, -1.0, 0.0, true, false, 0.0, 0.0, 0, 0.0)

  function NewCpu(freq: real): CpuState
    requires 0.0 < freq
  {
    CpuFields(freq, -1.0, 0.0, true, false, 0.0, 0.0, 0, 0.0)
  }

  lemma Positive(a: real, b: real)
    requires 0.0 < a && 0.0 < b
    ensures 0.0 < a * b
  {
  }

  lemma SlowedStillPositive(cpu: CpuState, now: real, util: real)
    requires 0.0 <= util < 1.0
    ensures 0.0 < cpu.BlueGreenStarted(now, util).freq
  {
    Positive(cpu.freq, 1.0 - util);
  }

  // ----- Accounting over whole runs -----

  datatype Op =
    | StartReservation(cycles: real)
    | FinishReservation
    | ProfilerPass
    | StartBlueGreen(util: real)

  datatype Timed = At(time: real, op: Op)

  /**
   A CPU with its history. `started` and `duration` belong to the reservation under way. For the window since
   the last profile, `load` is the time integral of what the CPU really carries (1 while it works, otherwise
   the blue-green baseline), and `overlap` how long it had already worked, in this window and reservation,
   when blue-green began; `worked` is how long it has worked. `fractions` are the reported utilizations, and
   `idlePasses` the number of passes that found that it had not worked at all.
   */
  datatype Run = Run(
    cpu: CpuFields,
    now: real,
    started: real,
    duration: real,
    load: real,
    overlap: real,
    worked: real,
    fractions: seq<real>,
    idlePasses: nat)
  {
    function Weight(): real {
      if cpu.Busy() then 1.0 else cpu.baseline
    }

    /** It has not worked in this window. */
    predicate Unused() {
      !cpu.Busy() && worked == 0.0
    }

    function Advance(t: real): Run {
      this.(now := t, load := load + Weight() * (t - now), worked := if cpu.Busy() then worked + t - now else worked)
    }

    /**
     What the simulator can do next: a reservation fires exactly when it is due. Blue-green may take a CPU
     completely; what was reserved before then still runs, but nothing can be reserved on it any more.
     */
    predicate Allows(t: real, op: Op) {
      && now <= t
      && (cpu.Busy() ==> t <= started + duration)
      && match op
         case StartReservation(cycles) => !cpu.Busy() && 0.0 <= cycles && 0.0 < cpu.freq
         case FinishReservation => cpu.Busy() && t == started + duration
         case ProfilerPass => true
         case StartBlueGreen(util) => !cpu.blueGreen && 0.0 <= util <= 1.0
    }

    function Apply(op: Op): Run
      requires Allows(now, op)
    {
      match op
      case StartReservation(cycles) =>
        this.(cpu := cpu.Reserved(now), started := now, duration := cycles / cpu.freq)
      case FinishReservation =>
        this.(cpu := cpu.Completed(now, duration))
      case ProfilerPass =>
        this.(cpu := cpu.Profiled(now), load := 0.0, overlap := 0.0, worked := 0.0,
              idlePasses := if Unused() then idlePasses + 1 else idlePasses,
              fractions := match cpu.ProfileReport(now) case None => fractions case Some(f) => fractions + [f])
      case StartBlueGreen(util) =>
        this.(cpu := cpu.BlueGreenStarted(now, util), overlap := if cpu.Busy() then now - cpu.lastReserved else 0.0)
    }

    /** The counted busy time is the real load, short only of what blue-green re-scaled in retrospect. */
    ghost predicate Accounted() {
      && 0.0 <= cpu.lastProfiled <= now
      && 0.0 <= cpu.baseline <= 1.0
      && (!cpu.blueGreen ==> cpu.baseline == 0.0 && overlap == 0.0)
      && cpu.blueGreenStart <= now
      && 0.0 <= cpu.busyTime
      && 0.0 <= overlap
      && (cpu.Busy() ==> Max(started, cpu.lastProfiled) <= cpu.lastReserved <= now <= started + duration)
      && cpu.WindowBusy(now) == load - cpu.baseline * overlap
      && 0.0 <= load <= now - cpu.lastProfiled
      && (forall f | f in fractions :: 0.0 <= f <= 1.0)
    }
  }

  /** How long completed reservations have worked in this window. */
  function WorkedBefore(run: Run): real {
    run.worked - if run.cpu.Busy() then run.now - run.cpu.lastReserved else 0.0
  }

  /** Unless blue-green has taken all of the CPU, it counts some time exactly when it has worked. */
  ghost predicate Noted(run: Run) {
    && 0.0 <= WorkedBefore(run) && run.worked <= run.now - run.cpu.lastProfiled
    && (run.cpu.baseline < 1.0 ==>
          && (run.cpu.busyTime == 0.0 <==> WorkedBefore(run) == 0.0)
          && run.cpu.emptyProfiles == run.idlePasses)
  }

  lemma Portion(weight: real, time: real)
    requires 0.0 <= weight <= 1.0 && 0.0 <= time
    ensures 0.0 <= weight * time <= time
  {
  }

  lemma Fraction(part: real, whole: real)
    requires 0.0 <= part <= whole && 0.0 < whole
    ensures 0.0 <= part / whole <= 1.0
  {
  }

  lemma LoadAdvances(run: Run, t: real)
    requires 0.0 <= run.cpu.baseline <= 1.0 && run.now <= t
    requires 0.0 <= run.load <= run.now - run.cpu.lastProfiled
    ensures 0.0 <= run.Advance(t).load <= t - run.cpu.lastProfiled
  {
    assert 0.0 <= run.Weight() <= 1.0;
    Portion(run.Weight(), t - run.now);
    hide Run.Weight;
  }

  lemma AdvanceAccounted(run: Run, t: real)
    requires run.Accounted() && run.now <= t && (run.cpu.Busy() ==> t <= run.started + run.duration)
    ensures run.Advance(t).Accounted()
  {
    LoadAdvances(run, t);
  }

  lemma StartAccounted(run: Run, cycles: real)
    requires run.Accounted() && run.Allows(run.now, StartReservation(cycles))
    ensures run.Apply(StartReservation(cycles)).Accounted()
  {
  }

  lemma FinishAccounted(run: Run)
    requires run.Accounted() && run.Allows(run.now, FinishReservation)
    ensures run.Apply(FinishReservation).Accounted()
  {
    Portion(1.0 - run.cpu.baseline, run.now - run.cpu.lastReserved);
  }

  lemma BlueGreenAccounted(run: Run, util: real)
    requires run.Accounted() && run.Allows(run.now, StartBlueGreen(util))
    ensures run.Apply(StartBlueGreen(util)).Accounted()
  {
  }

  /** The counted time is not negative, and at most the load, so at most the window. */
  lemma WindowBusyInRange(run: Run)
    requires run.Accounted()
    ensures 0.0 <= run.cpu.WindowBusy(run.now) <= run.load
  {
    var cpu := run.cpu;
    Portion(cpu.baseline, run.overlap);
    WindowBusyNonNegative(cpu, run.now);
  }

  lemma WindowBusyNonNegative(cpu: CpuFields, now: real)
    requires 0.0 <= cpu.busyTime && 0.0 <= cpu.baseline <= 1.0
    requires cpu.lastProfiled <= now && cpu.blueGreenStart <= now && cpu.lastReserved <= now
    ensures 0.0 <= cpu.WindowBusy(now)
  {
    assert 0.0 <= cpu.FloorBusy(now) by {
      Portion(cpu.baseline, now - cpu.FloorSince(now));
    }
    assert 0.0 <= cpu.PartialBusy(now) by {
      if cpu.Busy() {
        Portion(1.0 - cpu.baseline, now - cpu.lastReserved);
      }
    }
    hide CpuFields.FloorBusy, CpuFields.PartialBusy;
    assert cpu.WindowBusy(now) == cpu.busyTime + cpu.PartialBusy(now) + cpu.FloorBusy(now);
  }

  lemma AddQuotients(a: real, b: real, c: real)
    requires c != 0.0
    ensures a / c + b / c == (a + b) / c
  {
  }

  lemma ReportIsWindowBusy(cpu: CpuFields, now: real)
    requires cpu.ProfileReport(now).Some?
    ensures cpu.ProfileReport(now).value == cpu.WindowBusy(now) / (now - cpu.lastProfiled)
  {
    var window := now - cpu.lastProfiled;
    assert Share(cpu.baseline, now - cpu.FloorSince(now), window) == cpu.FloorBusy(now) / window;
    assert Share(1.0, cpu.busyTime + cpu.PartialBusy(now), window) == (cpu.busyTime + cpu.PartialBusy(now)) / window;
    hide CpuFields.FloorBusy, CpuFields.PartialBusy, Share;
    AddQuotients(cpu.FloorBusy(now), cpu.busyTime + cpu.PartialBusy(now), window);
  }

  /**
   What a profiler pass reports, exactly: the load really carried in the window, less the part of a running
   reservation that lies before the start of blue-green in the same window, scaled by the baseline.
   */
  lemma ReportIsExact(run: Run)
    requires run.Accounted() && run.cpu.ProfileReport(run.now).Some?
    ensures run.cpu.ProfileReport(run.now).value
         == (run.load - run.cpu.baseline * run.overlap) / (run.now - run.cpu.lastProfiled)
    ensures 0.0 <= run.cpu.ProfileReport(run.now).value <= 1.0
  {
    ReportIsWindowBusy(run.cpu, run.now);
    WindowBusyInRange(run);
    Fraction(run.cpu.WindowBusy(run.now), run.now - run.cpu.lastProfiled);
  }

  lemma NothingLeftInEmptyWindow(run: Run)
    requires run.Accounted()
    ensures run.cpu.Profiled(run.now).WindowBusy(run.now) == 0.0
  {
    WindowBusyInRange(run);
  }

  lemma ProfileAccounted(run: Run)
    requires run.Accounted()
    ensures run.Apply(ProfilerPass).Accounted()
  {
    hide CpuFields.WindowBusy;
    WindowBusyInRange(run);
    NothingLeftInEmptyWindow(run);
    if run.cpu.ProfileReport(run.now).Some? {
      ReportIsExact(run);
    }
  }

  function Then(run: Run, t: Timed): Run
    requires run.Allows(t.time, t.op)
  {
    run.Advance(t.time).Apply(t.op)
  }

  ghost predicate Legal(run: Run, steps: seq<Timed>)
    decreases |steps|
  {
    steps != [] ==>
      && run.Allows(steps[0].time, steps[0].op)
      && Legal(Then(run, steps[0]), steps[1..])
  }

  ghost function Execute(run: Run, steps: seq<Timed>): Run
    requires Legal(run, steps)
    decreases |steps|
  {
    if steps == [] then run
    else Execute(Then(run, steps[0]), steps[1..])
  }

  /** A CPU as it is created at `now`; the actor's last profile time is 0 then. */
  function Begin(freq: real, now: real): Run
    requires 0.0 < freq
  {
    Run(NewCpu(freq), now, 0.0, 0.0, 0.0, 0.0, 0.0, [], 0)
  }

  lemma NewCpuAccounted(freq: real, now: real)
    requires 0.0 < freq && 0.0 <= now
    ensures Begin(freq, now).Accounted()
  {
  }

  /**
   Main result: in any interleaving of reservations, completions, profiler passes and a blue-green start at any
   moment, the counted time is the load carried, short only of the re-scaled overlap, and every reported
   utilization is a fraction.
   */
  lemma {:induction false} UtilizationIsExact(run: Run, steps: seq<Timed>)
    requires run.Accounted() && Legal(run, steps)
    ensures Execute(run, steps).Accounted()
    decreases |steps|
  {
    if steps != [] {
      AdvanceAccounted(run, steps[0].time);
      var there := run.Advance(steps[0].time);
      match steps[0].op {
        case StartReservation(cycles) => StartAccounted(there, cycles);
        case FinishReservation => FinishAccounted(there);
        case ProfilerPass => ProfileAccounted(there);
        case StartBlueGreen(util) => BlueGreenAccounted(there, util);
      }
      UtilizationIsExact(there.Apply(steps[0].op), steps[1..]);
    }
  }

  lemma AdvanceNoted(run: Run, t: real)
    requires run.Accounted() && Noted(run) && run.now <= t && (run.cpu.Busy() ==> t <= run.started + run.duration)
    ensures Noted(run.Advance(t))
  {
  }

  lemma FinishNoted(run: Run)
    requires run.Accounted() && Noted(run) && run.Allows(run.now, FinishReservation)
    ensures Noted(run.Apply(FinishReservation))
  {
    var rate, time := 1.0 - run.cpu.baseline, run.now - run.cpu.lastReserved;
    assert Min(run.duration, time) == time;
    if rate > 0.0 {
      ProductZeroIff(rate, time);
      Portion(rate, time);
    }
    hide Run.Accounted;
  }

  lemma ProfileNoted(run: Run)
    requires run.Accounted() && Noted(run)
    ensures Noted(run.Apply(ProfilerPass))
  {
    hide CpuFields.ProfileReport, CpuFields.WindowBusy;
    NothingInEmptyWindow(run);
  }

  lemma NothingInEmptyWindow(run: Run)
    requires run.Accounted()
    ensures run.now == run.cpu.lastProfiled ==> run.cpu.busyTime == 0.0
  {
    WindowBusyInRange(run);
    if run.cpu.Busy() {
      Portion(1.0 - run.cpu.baseline, run.now - run.cpu.lastReserved);
    }
    Portion(run.cpu.baseline, run.now - run.cpu.FloorSince(run.now));
  }

  lemma {:induction false} RunsAreNoted(run: Run, steps: seq<Timed>)
    requires run.Accounted() && Noted(run) && Legal(run, steps)
    ensures Noted(Execute(run, steps))
    decreases |steps|
  {
    if steps != [] {
      var there := run.Advance(steps[0].time);
      AdvanceAccounted(run, steps[0].time);
      AdvanceNoted(run, steps[0].time);
      match steps[0].op {
        case StartReservation(cycles) => StartAccounted(there, cycles);
        case FinishReservation => FinishAccounted(there); FinishNoted(there);
        case ProfilerPass => ProfileAccounted(there); ProfileNoted(there);
        case StartBlueGreen(util) => BlueGreenAccounted(there, util);
      }
      RunsAreNoted(there.Apply(steps[0].op), steps[1..]);
    }
  }

  /** A pass reports if time has passed, but not on a CPU that has not worked, from the third such pass on. */
  lemma ReportedUnlessUnused(run: Run)
    requires Noted(run) && run.cpu.baseline < 1.0
    ensures run.cpu.ProfileReport(run.now).Some? <==>
              run.cpu.lastProfiled < run.now && !(run.Unused() && run.idlePasses >= 2)
  {
  }

  /**
   The report is the true load if and only if blue-green did not begin at a moment when the running reservation had
   already used part of this window.
   */
  lemma ReportIsTrueLoadIff(run: Run)
    requires run.Accounted() && run.cpu.ProfileReport(run.now).Some?
    ensures run.cpu.ProfileReport(run.now).value == run.load / (run.now - run.cpu.lastProfiled)
       <==> run.cpu.baseline == 0.0 || run.overlap == 0.0
  {
    ReportIsExact(run);
    var window := run.now - run.cpu.lastProfiled;
    SameQuotientIff(run.load, run.cpu.baseline * run.overlap, window);
    ProductZeroIff(run.cpu.baseline, run.overlap);
  }

  lemma SameQuotientIff(a: real, b: real, c: real)
    requires 0.0 < c
    ensures (a - b) / c == a / c <==> b == 0.0
  {
    assert (a - b) / c == a / c - b / c;
    assert b / c * c == b;
  }

  lemma ProductZeroIff(a: real, b: real)
    ensures a * b == 0.0 <==> a == 0.0 || b == 0.0
  {
  }

  /** What a pass reports is the true load of its window. */
  predicate TrueReport(run: Run)
    requires run.cpu.ProfileReport(run.now).Some?
  {
    run.cpu.ProfileReport(run.now).value == run.load / (run.now - run.cpu.lastProfiled)
  }

  /**
   Every run of a new CPU: all utilizations reported so far are fractions; so is what a pass at its end reports, and
   this is the true load exactly under the condition above. Unless blue-green has taken all of the CPU, the pass reports
   if time has passed, but not on a CPU that has not worked, from the third such pass on.
   */
  lemma EveryReport(freq: real, now: real, steps: seq<Timed>)
    requires 0.0 < freq && 0.0 <= now && Legal(Begin(freq, now), steps)
    ensures var r := Execute(Begin(freq, now), steps);
            && (forall f | f in r.fractions :: 0.0 <= f <= 1.0)
            && (r.cpu.ProfileReport(r.now).Some? ==>
                  && 0.0 <= r.cpu.ProfileReport(r.now).value <= 1.0
                  && (TrueReport(r) <==> r.cpu.baseline == 0.0 || r.overlap == 0.0))
            && (r.cpu.baseline < 1.0 ==>
                  (r.cpu.ProfileReport(r.now).Some? <==>
                     r.cpu.lastProfiled < r.now && !(r.Unused() && r.idlePasses >= 2)))
  {
    NewCpuAccounted(freq, now);
    RunsAreNoted(Begin(freq, now), steps);
    UtilizationIsExact(Begin(freq, now), steps);
    var r := Execute(Begin(freq, now), steps);
    if r.cpu.ProfileReport(r.now).Some? {
      ReportIsExact(r);
      ReportIsTrueLoadIff(r);
    }
    if r.cpu.baseline < 1.0 {
      ReportedUnlessUnused(r);
    }
  }

  /** A reservation of ten seconds begins; blue-green takes its share after five of them. */
  function SlowedHalfway(util: real): Run {
    Run(CpuFields(1.0 - util, 0.0, 0.0, true, true, 5.0, util, 0, 0.0), 5.0, 0.0, 10.0, 5.0, 5.0, 5.0, [], 0)
  }

  /** The same CPU when its reservation has just begun. */
  function Reserving(): Run {
    Run(CpuFields(1.0, 0.0, 0.0, true, false, 0.0, 0.0, 0, 0.0), 0.0, 0.0, 10.0, 0.0, 0.0, 0.0, [], 0)
  }

  lemma ReservingIsReached()
    ensures Begin(1.0, 0.0).Allows(0.0, StartReservation(10.0))
    ensures Then(Begin(1.0, 0.0), At(0.0, StartReservation(10.0))) == Reserving()
  {
  }

  lemma ReservingIsSlowed(util: real)
    requires 0.0 < util <= 1.0
    ensures Reserving().Allows(5.0, StartBlueGreen(util))
    ensures Then(Reserving(), At(5.0, StartBlueGreen(util))) == SlowedHalfway(util)
  {
  }

  lemma SlowedHalfwayIsReached(util: real)
    requires 0.0 < util <= 1.0
    ensures var steps := [At(0.0, StartReservation(10.0)), At(5.0, StartBlueGreen(util))];
            Legal(Begin(1.0, 0.0), steps) && Execute(Begin(1.0, 0.0), steps) == SlowedHalfway(util)
  {
    hide *;
    ReservingIsReached();
    ReservingIsSlowed(util);
    TwoSteps(Begin(1.0, 0.0), At(0.0, StartReservation(10.0)), At(5.0, StartBlueGreen(util)));
  }

  lemma TwoSteps(run: Run, a: Timed, b: Timed)
    requires run.Allows(a.time, a.op) && Then(run, a).Allows(b.time, b.op)
    ensures Legal(run, [a, b]) && Execute(run, [a, b]) == Then(Then(run, a), b)
  {
    hide Run.Allows, Then;
    assert [a, b][1..] == [b] && [b][1..] == [];
    var next := Then(run, a);
    assert Legal(next, [b]);
    assert Execute(next, [b]) == Execute(Then(next, b), []);
  }

  /** In the ten seconds it always works, but half of the blue-green share is missing from the report. */
  lemma SlowedHalfwayMisreports(util: real)
    requires 0.0 < util <= 1.0
    ensures var r := SlowedHalfway(util).Advance(10.0);
            && SlowedHalfway(util).Allows(10.0, ProfilerPass)
            && r.load / (r.now - r.cpu.lastProfiled) == 1.0
            && r.Apply(ProfilerPass).fractions == [1.0 - util / 2.0]
  {
    var r := SlowedHalfway(util).Advance(10.0);
    var cpu := r.cpu;
    assert cpu.FloorSince(10.0) == 5.0 && cpu.PartialBusy(10.0) == 10.0 * (1.0 - util);
    assert Share(util, 5.0, 10.0) == util / 2.0;
    assert Share(1.0, cpu.busyTime + cpu.PartialBusy(10.0), 10.0) == 1.0 - util;
  }

  /** The CPU component itself. */
  class Cpu {
    var freq: real
    var lastReserved: real
    var busyTime: real
    var enabled: bool
    var blueGreen: bool
    var blueGreenStart: real
    var baseline: real
    var emptyProfiles: nat
    var lastProfiled: real

    ghost function State(): CpuFields
      reads this
    {
      CpuFields(freq, lastReserved, busyTime, enabled, blueGreen, blueGreenStart, baseline, emptyProfiles, lastProfiled)
    }

    constructor (freq: real)
      requires 0.0 < freq
      ensures State() == NewCpu(freq)
    {
      this.freq := freq;
      lastReserved, busyTime, enabled := -1.0, 0.0, true;
      blueGreen, blueGreenStart, baseline := false, 0.0, 0.0;
      emptyProfiles, lastProfiled := 0, 0.0;
    }

    /** Occupies this idle CPU and says for how long. */
    method StartReservation(now: real, cycles: real) returns (duration: real)
      requires 0.0 < freq && !State().Busy()
      modifies this
      ensures duration == cycles / old(freq)
      ensures State() == old(State()).Reserved(now)
    {
      duration := cycles / freq;
      lastReserved := now;
    }

    method CompleteReservation(now: real, duration: real)
      modifies this
      ensures State() == old(State()).Completed(now, duration)
    {
      var actual := Min(duration, now - lastReserved);
      busyTime := busyTime + actual * (1.0 - baseline);
      lastReserved := -1.0;
    }

    method StartBlueGreen(now: real, util: real)
      requires !blueGreen
      modifies this
      ensures State() == old(State()).BlueGreenStarted(now, util)
    {
      blueGreen := true;
      blueGreenStart := now;
      freq := freq * (1.0 - util);
      baseline := util;
    }

    /** The profiler's pass over this actor, after which it sets the actor's last profile time. */
    method RunProfiler(now: real) returns (report: Option<real>)
      modifies this
      ensures report == old(State()).ProfileReport(now)
      ensures State() == old(State()).Profiled(now)
    {
      hide Share;
      var busy := lastReserved >= 0.0;
      var since := lastProfiled;
      lastProfiled := now;
      if busyTime == 0.0 && !busy {
        emptyProfiles := emptyProfiles + 1;
        if emptyProfiles >= 3 {
          return None;
        }
      }
      var total := now - since;
      if total <= 0.0 {
        return None;
      }
      var completed := busyTime;
      busyTime := 0.0;
      var partial := 0.0;
      if busy {
        partial := (now - lastReserved) * (1.0 - baseline);
        lastReserved := now;
      }
      assert completed + partial == old(State()).busyTime + old(State()).PartialBusy(now);
      var fraction := Share(1.0, completed + partial, total);
      var start := if blueGreen then blueGreenStart else now;
      assert now - Max(since, start) == now - old(State()).FloorSince(now);
      var floor := Share(baseline, now - Max(since, start), total);
      report := Some(floor + fraction);
    }
  }
}
