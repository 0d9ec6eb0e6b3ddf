# Verification of the DSE simulator

The repository is a discrete-event simulator of a search service. Continuations wait in a binary heap ordered by time
and sequence number; each one that fires changes CPU pools, RAM ledgers, requests that fan out over shards, or a
blue-green scaling of the whole fleet. Most of what the program relies on is an invariant that one file keeps for
another. This project states those invariants, proves them over all runs, and proves that the imperative form of the
program computes what the statements are about.

## How it is built

Each component is a module. It has, where the program changes state,

* a value of the state and functions that say what one operation or one event makes of it, in the program's order of
  calls, with synchronous callbacks inside the call that makes them;
* lemmas about these functions, ending in one or two main results over every run;
* a class with the program's fields, whose methods, with the program's loops and in-place updates, are proved to do to
  its state exactly what the functions say.

Times, byte counts and cycles are real numbers. A continuation is a value that tells which callbacks run when an
operation ends. What a caller does in its own callback is a finite tree of further calls, so a statement about all
trees covers callers that call back into the component in the middle of one of its operations. Random choices and
answers from elsewhere are arbitrary inputs.

| module | component |
|---|---|
| Basics, DynArrays, BoundedQueues, Gathers | result codes, swap-remove array, ring buffer, counting and worst-of gathers |
| RamLedger, CpuAccounting | windowed accounting of a RAM and of a CPU |
| Scheduling, Admission, Shutdown, WorkerRuns, Workers | one worker: admission, RAM wrapper, CPU pool, wait queue, shutdown; on values, and as objects |
| EventQueue, Clocks | array heap and event loop |
| Workload | dispatcher of a loaded request file |
| Search, SearchResults, Put, PutResults, PutShards | the two requests that fan out |
| Primes, HashPrime, Indexing | the primality of the hash modulus; hashing, shards, transfer |
| Scaling | the blue-green scaling of a collection |
| JsonScan, Rng | JSON scanner against a printer; xoshiro256** with SplitMix64 seeding |

## Main results

* A worker, over every run (`WorkerRuns.EveryRun`): the request counter is the busy CPUs plus the waiters, RAM in use
  is the sum of the live reservations, one for each operation in flight and each with the bytes that its call asked
  for, nobody waits while a CPU is free, computes start in the order of their reservations, every reservation is
  either held or answered once to its owner, and the refusal branch inside the RAM wrapper is never taken. What an
  admitted call takes and launches, where a freed CPU goes, and which calls a caller makes when it hears, is stated
  field by field in Admission. Shutting down answers every waiter once with an error, in queue order, although the
  failing callers may call the worker again (`Shutdown.SpinDownAnswersEveryWaiter`).
* Accounting: each RAM report is the average of the bytes held over its window, the windows cover all time, and
  averages times lengths add up to the time integral of the bytes held (`RamLedger.AccountingIsExact`); every fraction
  that a new CPU ever reports lies in [0, 1], and is the true load of its window if and only if there is no baseline,
  or blue-green did not begin in that window at a moment when the running reservation had already used part of it
  (`CpuAccounting.EveryReport`).
* Event loop: events fire in strictly increasing order of time and number, each exactly once and at the later of its
  target and the time it was scheduled (`Clocks.EventsFireInOrder`); the heap refines the set of pending events.
* Scaling: whatever order the events of a scaling fire in, and whatever scale calls, new indices and new shards come
  between them, it ends exactly when its last event has fired, with the requested number of workers, full pools, one
  answer to the caller, and all shards on serving workers of the new fleet (`Scaling.Collection.FireAmid`). In
  between, shards are on serving workers exactly if none was created on the new fleet. A scaling cannot get stuck
  (`Scaling.Collection.FireUntilSteady`), and the assertion in `cpu_start_blue_green` never fails.
* SEARCH logs exactly one result in every run, with the right latency: 4XX if and only if no step and no collation was
  refused and no answer was an error (`SearchResults.SearchIsLoggedOnce`). So does a PUT on a shard without a replica
  on the primary's worker, unless a blue-green transfer moves the shard while the primary's write is on its way; then
  it never logs (`PutResults.PutIsLoggedOnce`, `PutResults.LoggedWellIffNotOvertaken`). Puts that are not overtaken
  log well exactly on such shards (`PutShards.PutsLogWellIffPrimaryIsUnique`), and after a transfer exactly those
  shards are of this kind that have no more replicas than there are new workers
  (`PutShards.TransferKeepsPutsWellIff`).
* The hash of an index is the Euclidean one, and two ids collide exactly when they are congruent modulo 1610612741
  (`Indexing.IdsCollideIff`); that this is a prime is proved with a certificate (`HashPrime.HashPrimeIsPrime`).
* The JSON scanner visits exactly the members of a printed object if and only if no key contains a quote
  (`JsonScan.ScanVisitsMembersIff`).
* Dispatch order, routing and balance, and the bijections of the generator: see the table.

## Findings about the code

* `put.c` takes a write for the primary's by comparing its worker with the shard's first one at the end of the write.
  With a replica on the same worker, a put whose copies all succeed never ends: each copy on that worker starts all
  replicas again (`PutShards.SharedPrimaryNeverEnds`). When the queue of that worker is full as the last such copy
  begins, the copy's compute is refused and its disk write then ends as if it were the primary's: the put logs before
  all its writes are done, or with a wrong latency (`PutShards.SharedPrimaryMislogs`). Such shards arise from a
  transfer to fewer workers than a shard has replicas (`PutShards.DealtIsUniqueIff`).
* By the same comparison, a put whose shard is moved to new workers while the primary's write is on its way ends as a
  replica of a gather that was never begun, and never logs, although all its steps succeed
  (`PutShards.OvertakenPutIsLost`).
* `index_create_shards_distributed` deals shards over all registered workers; during a scaling these include green
  ones that have no CPUs yet, and the shards are on serving workers again only after the scaling has ended
  (`Scaling.RoutingIffNoneOn`).
* `json_scan_object` does not unescape keys and stops a key at an escaped quote (`JsonScan.KeyIsCut`); keys with a
  backslash are reported escaped (`JsonScan.EscapeChanges`). `skip_value` runs past the end of the text exactly for a
  string that ends in the middle of an escape, and for brackets with a string that is not closed
  (`JsonScan.PassValue`); never for a printed value (`JsonScan.SkipsOneValue`).
* When blue-green begins in the middle of a reservation, `cpu_run_profiler` and `cpu_reserve_done` scale down what the
  reservation had used of the window before, too, although the baseline counts only from then on. The reported
  fraction is below the true load exactly in these windows (`CpuAccounting.ReportIsTrueLoadIff`,
  `CpuAccounting.SlowedHalfwayMisreports`).
* Three loops re-read their bound from a context that a synchronous callback may have released: the spin-down loop on
  every scaling that has old workers (`src/collection/collection.c:223`), the launch loops when every replica refuses
  both its steps at once (`src/requests/http/put.c:107`), and when every shard refuses all three
  (`src/requests/http/search.c:77`). The model keeps the bound in a local.

## Model

| member | source | states |
|---|---|---|
| DynArrays.SwapRemoveDistinct | include/util/dynarray.h:44-52 | removing by swap takes out exactly the item and keeps the others distinct |
| DynArrays.SwapRemoveAtMultiset | include/util/dynarray.h:47 | a swap-remove loses exactly one occurrence of one element |
| DynArrays.DynArray.Push | include/util/dynarray.h:27-33 | appends, also when the array has to grow |
| DynArrays.DynArray.Remove | include/util/dynarray.h:44-52 | finds the item if and only if it is there, and swap-removes its first occurrence |
| DynArrays.DynArray.Contains | include/util/dynarray.h:65-70 | membership |
| BoundedQueues.WindowPush | include/util/bounded_queue.h:39-45 | a write at the tail slot appends to the sequence that the ring stands for |
| BoundedQueues.WindowPop | include/util/bounded_queue.h:48-54 | moving the head on removes the first element of that sequence |
| BoundedQueues.BoundedQueue.Push | include/util/bounded_queue.h:39-45 | accepts if and only if not finalized and not full, and then appends |
| BoundedQueues.BoundedQueue.Pop | include/util/bounded_queue.h:48-54 | takes the oldest item; nothing from an empty queue |
| BoundedQueues.BoundedQueue.Finalize | include/util/bounded_queue.h:57-59 | no more pushes; what is queued stays |
| RamLedger.AccountingIsExact | src/components/physical/ram.c:30-92 | over every run of reservations, releases and profiler passes: each report is the average of the bytes held over its window and that over the capacity; the windows cover all time up to the last pass; averages times lengths add up to the integral of the bytes held less that of the open window, which is the integrated total and the running partials; use stays within capacity |
| RamLedger.ReportIsAverage | src/components/physical/ram.c:35-57 | a pass reports if and only if time has passed; the average times the length of the window is the integral of the bytes held over the window, and the ratio is the average over the capacity, in [0, 1] |
| RamLedger.ReleaseTotals | src/components/physical/ram.c:73-92 | a release moves exactly what its reservation held in the window from the partials to the integrated total |
| RamLedger.ProfileAccounted | src/components/physical/ram.c:30-59 | a profiler pass hands its window over, with a report that is its average, and starts the next one from nothing |
| RamLedger.ReserveSound | src/components/physical/ram.c:61-71 | a reservation that fits takes exactly its bytes, from now on, under a new id, and keeps use equal to the sum of distinct live reservations |
| RamLedger.ReleaseSound | src/components/physical/ram.c:73-92 | a release takes out exactly its own id; an unknown id changes nothing |
| RamLedger.ReleaseTakesOut | src/components/physical/ram.c:73-92 | a release frees exactly the bytes of its reservation, and keeps every other as it is |
| RamLedger.FreshLedgerAccounted | src/components/physical/ram.c:9-19 | a new RAM meets the accounting invariant |
| RamLedger.Ram.AddReservation | src/components/physical/ram.c:61-71 | the fields change as the ledger says, and the id is new |
| RamLedger.Ram.RemoveReservationById | src/components/physical/ram.c:73-92 | search loop and swap-remove do what the ledger says |
| RamLedger.Ram.RunProfiler | src/components/physical/ram.c:30-59 | the summing loop reports an average that times the length of the window is the window total of the ledger, and the ratio of that average to the capacity; no report in an empty window |
| RamLedger.Ram.Available | src/components/physical/ram.c:26-28 | capacity minus use |
| CpuAccounting.EveryReport | src/components/physical/cpu.c:12-121 | over every run of a new CPU, with blue-green starting at any moment: all reported fractions lie in [0, 1], and a report is the true load if and only if there is no baseline, or blue-green did not begin in its window at a moment when the running reservation had already used part of it; unless blue-green has taken all of the CPU, a pass reports if and only if time has passed and it is not the third or a later one that finds a CPU that has not worked |
| CpuAccounting.RunsAreNoted | src/components/physical/cpu.c:25-37 | over every run, a CPU that is not fully taken counts some busy time if and only if reservations have worked in the window, and counts the passes that found it unused |
| CpuAccounting.NewCpuAccounted | src/components/physical/cpu.c:12-23 | a new CPU meets the accounting invariant |
| CpuAccounting.UtilizationIsExact | src/components/physical/cpu.c:25-121 | every step of a run keeps it: busy time, reservation start and window are related to the true load as the report needs |
| CpuAccounting.SlowedHalfwayIsReached | src/components/physical/cpu.c:65-73 | a run of a new CPU that is slowed down in the middle of a reservation |
| CpuAccounting.SlowedHalfwayMisreports | src/components/physical/cpu.c:43-53 | such a CPU, busy for the whole window, reports less by half of the blue-green utilization |
| CpuAccounting.ReportIsExact | src/components/physical/cpu.c:25-63 | the reported fraction is the load of the window, minus the baseline times what the reservation running when blue-green began had used of the window by then, over the window; it lies in [0, 1] |
| CpuAccounting.ReportIsTrueLoadIff | src/components/physical/cpu.c:25-63 | the report is the true load if and only if there is no baseline, or blue-green did not begin in this window at a moment when the running reservation had already used part of it |
| CpuAccounting.WindowBusyInRange | src/components/physical/cpu.c:25-63 | busy time accounted to a window is never negative and never more than the load |
| CpuAccounting.ProfileAccounted | src/components/physical/cpu.c:25-63 | a profiler pass in the middle of a reservation leaves the rest of it to the next window |
| CpuAccounting.SlowedStillPositive | src/components/physical/cpu.c:65-73 | blue-green leaves the frequency positive |
| CpuAccounting.Cpu.StartReservation | src/components/physical/cpu.c:101-121 | marks the start, and lasts cycles over frequency; the CPU must be idle |
| CpuAccounting.Cpu.CompleteReservation | src/components/physical/cpu.c:76-98 | books the part of the reservation that lies in the window |
| CpuAccounting.Cpu.StartBlueGreen | src/components/physical/cpu.c:65-73 | slows the CPU down and notes when; not twice |
| CpuAccounting.Cpu.RunProfiler | src/components/physical/cpu.c:25-63 | reports and starts the next window as the account says |
| WorkerRuns.EveryRun | src/components/logical/worker.c:87-178 | over every run from a new worker: counter, ledger, the size that was asked for in each reservation, waiter and disk operation, work conservation, order of starts, one answer per reservation to its owner, no failure before shutdown, no refusal by the RAM wrapper |
| WorkerRuns.RunsStaySettled | src/components/physical/cpu.c:76-121 | every arrival, completion, shutdown, profiler pass and blue-green start keeps the invariant between events |
| Shutdown.SpinDownAnswersEveryWaiter | src/components/physical/cpu.c:276-292 | shutdown ends with an empty queue, and of what was reserved before it answers exactly the waiters, each once, with an error, in queue order |
| Shutdown.Drain | src/components/physical/cpu.c:281-288 | the drain loop ends, because a finalized queue cannot grow, and keeps the invariant |
| WorkerRuns.QueueLengthIsExact | src/components/logical/worker.c:94-134 | the counter is busy CPUs plus waiters and within the limit; a CPU is busy if and only if an event will free it; waiters imply all CPUs busy |
| WorkerRuns.QueueNeverFull | src/components/physical/cpu.c:223-226 | when an admitted compute finds no CPU, the wait queue has room |
| WorkerRuns.RamIsExact | src/components/physical/ram.c:61-126 | use is the sum of live reservations, within capacity, one for each event and each waiter |
| WorkerRuns.HistoryIsExact | src/components/physical/ram.c:95-103 | every reservation is held or answered, never both, once, to its owner; no failure before shutdown |
| Scheduling.ReserveCompute | src/components/logical/worker.c:107-134 | admitted if and only if the counter is below the limit and the bytes fit; otherwise refused at once; the invariant holds whatever the callback does |
| Scheduling.ReserveDisk | src/components/logical/worker.c:159-178 | admitted if and only if the bytes fit, whatever the queue |
| Scheduling.ReservePending | src/components/physical/ram.c:106-126 | reserves the bytes asked for before launching the operation asked for, and keeps the invariant on both branches |
| Admission.DiskIsAdmitted | src/components/logical/worker.c:159-178 | a disk operation that fits takes exactly its bytes from now on, and is the next event, whatever waits |
| Admission.ComputeIsStarted | src/components/logical/worker.c:107-134 | a compute that is admitted and finds a free CPU takes exactly its bytes and one place in the counter, and occupies the first free CPU for its cycles over the frequency |
| Admission.ComputeIsQueued | src/components/physical/cpu.c:214-237 | without a free CPU it takes the same, and waits with its cycles at the end of the queue |
| Admission.ComputeFails | src/components/physical/cpu.c:223-226 | in a finalized pool without a free CPU it is answered at once, with an error |
| Admission.CpuGoesBack | src/components/physical/cpu.c:76-95 | when nobody waits, a freed CPU is available again, with its work booked; the memory and the counter are not touched yet |
| Admission.CpuIsHandedOn | src/components/physical/cpu.c:240-273 | otherwise it starts at once on the first waiter, for the cycles of that waiter |
| Admission.CallerHears | src/components/physical/ram.c:95-103 | at the end of an operation its bytes and its place in the counter are given back, and then exactly the calls that the caller makes for this response follow, each decided by what those before it have left |
| Admission.RefusedComputeHears | src/components/logical/worker.c:109-116 | after a refusal at the door, the caller's calls for an error follow at once, and nothing is taken |
| Admission.RefusedDiskHears | src/components/logical/worker.c:159-163 | likewise |
| Admission.CallIsMade | src/components/logical/worker.c:107-178 | each call of a callback is admitted to its owner or refused, by the counter and the bytes at its turn |
| Scheduling.RunCont | src/components/physical/ram.c:95-103 | an operation is recorded as answered, 4XX for a success and 5XX for an error, before its caller's callback runs |
| Scheduling.PoolReserve | src/components/physical/cpu.c:214-237 | takes the first available CPU, or waits; keeps the invariant |
| Scheduling.Released | src/components/physical/cpu.c:76-95 | the CPU is free again, or with the next waiter, while the operation that had it still holds its RAM and its place in the counter |
| Scheduling.CpuReserveDone | src/components/physical/cpu.c:76-98 | hands the CPU to the next waiter before the caller hears of its success |
| Scheduling.DiskReserveDone | src/components/physical/disk.c:62-77 | the caller of a disk operation hears of its success |
| Scheduling.HandOverInv | src/components/physical/cpu.c:240-273 | the waiter that a freed CPU goes to finds it, idle, and is the next to start |
| Scheduling.StartCpuInv | src/components/physical/cpu.c:101-121 | starting a CPU keeps every CPU either available or at work |
| Scheduling.FreeCpuInv | src/components/physical/cpu.c:76-95 | freeing a CPU keeps every CPU either available or at work |
| Shutdown.DoomedWaiter | src/components/physical/cpu.c:240-248 | during shutdown no drained waiter finds a CPU |
| WorkerRuns.NewWorkerSettled | src/components/logical/worker.c:11-32 | a new worker meets the invariant, with idle CPUs at the given frequency and free memory of the given size |
| WorkerRuns.PassKeepsWork | src/components/physical/cpu.c:25-63 | a profiler pass closes the windows of the RAM and of every CPU, and touches no work and no reservation |
| WorkerRuns.BlueGreenKeepsWork | src/components/physical/cpu.c:65-73 | blue-green reduces the frequency of every CPU by its share, which the CPU carries from then on, and touches no work |
| Workers.Worker.constructor | src/components/logical/worker.c:11-32 | builds the worker that the runs start from, CPU by CPU |
| Workers.Worker.ReserveCompute | src/components/logical/worker.c:107-134 | the object does what the function of the same name in Scheduling does |
| Workers.Worker.ReserveDisk | src/components/logical/worker.c:159-178 | likewise |
| Workers.Worker.ReservePending | src/components/physical/ram.c:106-126 | likewise |
| Workers.Worker.RunCont | src/components/physical/ram.c:95-103 | likewise |
| Workers.Worker.PoolReserve | src/components/physical/cpu.c:214-237 | likewise, on the ring buffer |
| Workers.Worker.CpuReserve | src/components/physical/cpu.c:101-121 | likewise |
| Workers.Worker.GotCpu | src/components/physical/cpu.c:240-258 | likewise |
| Workers.Worker.PoolRelease | src/components/physical/cpu.c:261-273 | likewise |
| Workers.Worker.CpuReserveDone | src/components/physical/cpu.c:76-98 | likewise |
| Workers.Worker.DiskReserveDone | src/components/physical/disk.c:62-77 | likewise |
| Workers.Worker.SpinDown | src/components/physical/cpu.c:276-292 | the loop that fails the waiters one by one, while callers may call again, ends and does what SpinDown in Shutdown says |
| EventQueue.SiftUpHeap | src/event/pq.c:29-39 | sifting up restores the heap |
| EventQueue.SiftDownHeap | src/event/pq.c:41-60 | sifting down restores the heap |
| EventQueue.SiftUpMultiset | src/event/pq.c:29-39 | sifting up loses and invents nothing |
| EventQueue.SiftDownMultiset | src/event/pq.c:41-60 | sifting down loses and invents nothing |
| EventQueue.RootIsFirst | src/event/pq.c:72-86 | nothing in a heap comes before its root |
| EventQueue.PriorityQueue.SiftUpLoop | src/event/pq.c:29-39 | the loop over the array sifts up |
| EventQueue.PriorityQueue.SiftDownLoop | src/event/pq.c:41-60 | the loop over the array sifts down |
| EventQueue.PriorityQueue.Push | src/event/pq.c:62-70 | adds exactly the entry, also when the array has to grow, and keeps the heap |
| EventQueue.PriorityQueue.Pop | src/event/pq.c:72-81 | takes out an entry that none other comes before, exactly that one |
| Clocks.EventsFireInOrder | src/event/clock.c:14-42 | over every run: entries fire in strictly increasing order of time and number, at the later of target and scheduling time, and each request is pending or has fired, exactly one of the two, once |
| Clocks.RunsAreOrdered | src/event/clock.c:14-46 | every run keeps the invariant, and the time never goes back |
| Clocks.ScheduleOrdered | src/event/clock.c:14-19 | scheduling, into the past too, keeps the order of what has fired and what is pending |
| Clocks.FireOrdered | src/event/clock.c:30-42 | firing a first entry keeps it, and the time does not go back |
| Clocks.Clock.ScheduleEvent | src/event/clock.c:14-19 | the heap gets the entry that Schedule adds |
| Clocks.Clock.ScheduleEventDelay | src/event/clock.c:21-28 | a non-positive delay goes through the queue at the current time |
| Clocks.Clock.FireNext | src/event/clock.c:34-40 | fires a first entry of the pending ones |
| Clocks.DelayedEventIsDue | src/event/clock.c:21-28 | an event scheduled with a positive delay fires, in every run, that much later, and one without at the time it was scheduled |
| Clocks.Clock.Perform | src/event/clock.c:14-28 | a callback's actions, one after the other |
| Clocks.Clock.Run | src/event/clock.c:30-42 | the state after the loop is that of its turns, one for each entry that fired: each turn is taken by a running clock for a first pending entry, whose callback then acts; the loop ends only when stopped or out of events |
| Workload.RequestsArriveInFileOrder | src/generator/workload.c:190-220 | for any file and any other events in between: known requests arrive in file order, each at the latest time of the file so far; the stop event is set for one second after the last dispatch, and all have arrived before it |
| Workload.DispatchTimeIsLatest | src/generator/workload.c:200-203 | the time of a dispatch is the start or the largest time among the requests up to it |
| Workload.RunInv | src/generator/workload.c:190-220 | at any time the dispatcher has exactly one event of its own, until its last |
| Workload.LoadedGenerator.StartPlaying | src/generator/workload.c:213-220 | schedules the first turn; nothing for an empty file |
| Workload.LoadedGenerator.TakeTurn | src/generator/workload.c:190-211 | sends the current request and schedules the next turn or the stop |
| Workload.LoadedGenerator.Send | src/generator/workload.c:129-183 | the arrival of a request with a known index is scheduled at its time; an unknown one is dropped |
| Workload.LoadedGenerator.StopPlaying | src/generator/workload.c:185-188 | stops the clock |
| Search.TargetsAreSelected | src/requests/http/search.c:40-54 | the targets are without duplicates, and exactly the positions congruent to a given hash modulo the number of shards |
| Search.ResolveTargets | src/requests/http/search.c:32-54 | the nested loops compute those targets; all shards without given hashes |
| Search.BestIsMaximal | src/requests/http/search.c:152-168 | whatever the coins, no worker covers more of the chosen shards than the one that collates |
| Search.CoinsDecide | src/requests/http/search.c:160-165 | of the shards with the maximal count it is the last one on which the coin falls, not counting the first; the first if there is none |
| Search.PickCollator | src/requests/http/search.c:152-168 | the counting loops pick that worker |
| SearchResults.SearchIsLoggedOnce | src/requests/http/search.c:76-188 | over every order of answers and every set of refusals: nothing is logged while something is pending; then all three steps of every shard were taken and exactly one result is logged, 4XX if and only if no step and no collation is refused and no answer taken is an error, with the time of the last answer taken |
| SearchResults.CollationComesLast | src/requests/http/search.c:133-173 | no collation before all three steps were taken on every shard, none if one of them is refused or answered with an error, and it goes to a worker of maximal cover |
| SearchResults.RunTold | src/requests/http/search.c:97-188 | over every run, steps have failed exactly as far as they were refused or answered with an error, and so has the collation; the time is that of the last answer taken |
| SearchResults.StepDoneTally | src/requests/http/search.c:97-130 | an answer to a step, with the steps refused at once after it, adds a failure exactly if it is an error or one of them is refused |
| Search.StepDoneInv | src/requests/http/search.c:97-130 | the answer to a step, with all that follows from it at once, keeps the invariant of the request |
| Search.LaunchInv | src/requests/http/search.c:76-93 | the launch loop keeps it, although shards may finish inside the loop |
| Search.ShardFinishedInv | src/requests/http/search.c:133-173 | the gather ends the request exactly when the last shard has reported |
| Search.SearchRequest.PhaseArrived | src/requests/http/search.c:62-94 | the launch loop does what Arrive says |
| Search.SearchRequest.ShardStepDone | src/requests/http/search.c:97-130 | the three callbacks of a shard do what StepDone says |
| Search.SearchRequest.FinishShard | src/requests/http/search.c:133-173 | the gather does what ShardFinished says |
| Search.SearchRequest.FinishCollation | src/requests/http/search.c:176-188 | the last callback logs the collation's result |
| Gathers.CountedAll | src/requests/http/search.c:136-138 | the counter of a gather reaches the number of parts if and only if all have reported |
| Gathers.WorstUpdate | src/requests/http/put.c:119 | the worst result of a gather is 5XX if and only if some part has failed |
| Gathers.TallyRecords | src/requests/http/search.c:99 | one more step keeps the account of failures by their reasons |
| PutResults.PutIsLoggedOnce | src/requests/http/put.c:38-127 | with no replica on the primary's worker, over every order of answers and transfers and every set of refusals: if no transfer comes while the primary's write is on its way, exactly one log, once nothing is pending, 4XX if and only if no step on the primary or a replica is refused and no answer taken is an error, with the time of the last answer to the primary's write; otherwise no log ever |
| PutResults.LoggedWellIffNotOvertaken | src/requests/http/put.c:77-83 | once nothing is pending, such a put has logged well if and only if no transfer came while the primary's write was on its way |
| PutResults.OvertakenIff | src/requests/http/put.c:77 | what overtaking means for the events of a run |
| PutShards.OvertakenPutIsLost | src/requests/http/put.c:77-127 | a transfer between the two steps of the primary's write: everything succeeds, and nothing is logged |
| PutResults.ReplicasFollowPrimary | src/requests/http/put.c:88-114 | no replica is written if a step on the primary is refused or answered with an error, or before its write has ended; otherwise each exactly once |
| PutResults.WriteMovesOn | src/requests/http/put.c:54-85 | what an answer makes of its write: the disk step follows a failed compute too, and a refused disk step ends the write at once with a 5XX |
| PutResults.RunTold | src/requests/http/put.c:54-127 | over every run, on any shard, steps have failed exactly as far as they were refused or answered with an error, and the primary's write ended with the last answer to it |
| PutResults.StepDoneTold | src/requests/http/put.c:54-114 | an answer to a step, with all that follows at once, the launch of replicas included, adds failures for these reasons only |
| PutShards.PutsLogWellIffPrimaryIsUnique | src/requests/http/put.c:77 | all puts on a shard that are not overtaken log well, whatever can happen around them, if and only if no replica lives on the primary's worker |
| PutShards.SharedPrimaryMislogs | src/requests/http/put.c:77-98 | for every shard with such a replica, the run in which the last of them is refused at the door, and ends as if it were the primary, logs too early or with a wrong latency |
| Scheduling.NextStepIsAdmitted | src/components/physical/ram.c:95-103 | in the callback of an operation, a disk step of no more bytes than the operation asked for is not refused; so a write's disk step is refused only if its compute step was |
| PutShards.SharedPrimaryNeverEnds | src/requests/http/put.c:77-113 | on such a shard, with nothing failing, a put is pending for ever, whatever order the answers come in |
| PutShards.DealtIsUniqueIff | src/collection/index.c:98-102 | dealing distinct workers to a shard gives the primary a worker of its own if and only if there are at least as many workers as replicas |
| PutShards.TransferKeepsPutsWellIff | src/collection/index.c:93-109 | after a transfer, all later puts on a shard that are not overtaken log well if and only if it has no more replicas than there are new workers |
| PutShards.TransferIsFresh | src/collection/index.c:98-102 | to a put in flight, the transfer of an index to new workers is a transfer of its shard to as many, all of them new |
| Put.LostInv | src/requests/http/put.c:77-127 | an overtaken write goes on to its end without a log |
| Put.PrimaryInv | src/requests/http/put.c:54-114 | an answer to the primary's write keeps the invariant, through the launch of the replicas |
| Put.ReplicaInv | src/requests/http/put.c:54-127 | an answer to a replica's write keeps it |
| Put.LaunchInv | src/requests/http/put.c:107-113 | the launch loop starts every replica once, although replicas may finish inside it |
| Put.PutRequest.PhaseArrived | src/requests/http/put.c:38-51 | starts the primary's write |
| Put.PutRequest.WriteStepDone | src/requests/http/put.c:54-85 | the two callbacks of a write do what StepDone says; the disk step follows a failed compute too |
| Put.PutRequest.EndPrimary | src/requests/http/put.c:88-114 | ends the request or starts the replicas |
| Put.PutRequest.LaunchReplicas | src/requests/http/put.c:107-113 | the launch loop does what Launch says |
| Put.PutRequest.EndReplica | src/requests/http/put.c:117-127 | counts, keeps the worst, and logs after the last |
| Indexing.HashFitsInt64 | src/collection/index.c:37-43 | no step of the hash leaves 64 bits, for every 32-bit id |
| Indexing.HashIsEuclidean | src/collection/index.c:37-43 | the truncating remainder with its correction is the Euclidean one, in [0, p) |
| Indexing.CollisionIffCongruent | src/collection/index.c:37-43 | for a prime modulus, two ids collide if and only if they are congruent modulo it |
| Indexing.IdsCollideIff | src/collection/index.c:37-43 | with the coefficients and the modulus of the code, two ids collide if and only if they are congruent modulo it |
| HashPrime.HashPrimeIsPrime | include/collection/index.h:9 | the modulus is prime |
| Primes.CertifiedIsPrime | include/collection/index.h:9 | what the certificate has to show: an element whose order is above the square root |
| Indexing.IntInRange | src/util/rng.c:44-48 | the value lies in its range, and is the draw above the lower end modulo the size of the range |
| Indexing.EveryValueIsDrawn | src/util/rng.c:44-48 | every value of the range comes from some draw |
| Indexing.ShardFromHash | src/collection/index.c:51-54 | a valid position, congruent to the hash modulo the number of shards |
| Indexing.SameShardIffCongruent | src/collection/index.c:51-54 | two hashes select the same shard if and only if they are congruent modulo the number of shards |
| Indexing.ComputeShard | src/collection/index.c:45-67 | a valid position for every id and every given hash but -2^31, whose negation overflows in the code: the residue of a * id + b modulo the prime, modulo the number of shards; for a negative given hash its distance below -1, modulo the number of shards |
| Indexing.TransferIsBalanced | src/collection/index.c:93-109 | with S slots and n distinct new workers, worker j gets S / n slots, and one more if j < S mod n |
| Indexing.TransferDeals | src/collection/index.c:93-109 | the slots, in order, get the new workers in turn, whatever the replica counts |
| Indexing.TransferShape | src/collection/index.c:93-109 | no shard gains or loses a replica |
| Indexing.TransferUsesNewWorkers | src/collection/index.c:93-109 | every slot gets a new worker |
| Indexing.Shard.Reassign | src/components/logical/shard.c:34-41 | finds the old worker, which must be there, and gives its first slot to the new one, with the metrics of that slot cleared and no other |
| Indexing.Shard.AssignWorker | src/components/logical/shard.c:18-25 | appends a replica with zero metrics, while there is room for it |
| Indexing.Shard.WorkerIndex | src/components/logical/shard.c:27-32 | the first slot of a worker, if it has one |
| Indexing.Index.CreateShard | src/collection/index.c:69-75 | appends a shard with one replica |
| Indexing.Index.TransferShards | src/collection/index.c:93-109 | the nested loops deal as Transfer says, and clear all metrics; nothing happens without new workers |
| Scaling.Collection.constructor | src/collection/collection.c:13-49 | a steady collection of blue workers with full pools |
| Scaling.Collection.CreateShard | src/collection/index.c:69-75 | a new shard on any registered worker, also on one that is still spinning up |
| Scaling.Collection.CreateShardsDistributed | src/collection/index.c:83-91 | one shard on each registered worker in turn; nothing without workers |
| Scaling.Collection.ScaleTo | src/collection/collection.c:249-272 | each refusal for its reason, at once and without a change; in all other cases a scaling to the requested size begins, with the old fleet slowed and the new one fresh |
| Scaling.Collection.StartScaling | src/collection/collection.c:133-178 | every CPU of the old fleet has its frequency reduced by the blue-green share, carries that share as its baseline from now on, and its pool has half the frequency; the new workers are new, green and without CPUs, and the configuration counts both; cpu_start_blue_green meets only CPUs that are not yet slowed |
| Scaling.Collection.SlowOldWorkers | src/collection/collection.c:157-165 | every pool of the given workers has half its frequency, and every CPU of them the reduced frequency, the flag, the start time and the baseline of blue-green; nothing else of them has changed, and no other worker |
| Scaling.Collection.CreateWorkers | src/components/logical/worker.c:199-219 | registers new green workers without CPUs |
| Scaling.Collection.CpuSpinUpOneDone | src/components/physical/cpu.c:156-171 | exactly this pool gains one new idle CPU at its frequency, and the ready event is scheduled if and only if all pools of the new fleet are full |
| Scaling.Collection.PoolDone | src/components/logical/worker.c:239-247 | the outer gather counts pools and schedules the ready event after the last |
| Scaling.Collection.FindGreens | src/collection/collection.c:185-194 | the scan of the registry collects its green workers in order |
| Scaling.Collection.WorkersReady | src/collection/collection.c:181-226 | one event moves all shards, swaps the statuses, retires the old fleet, which stays obsolete, makes the collection steady with the requested number of workers and answers the caller once |
| Scaling.Collection.RetireOldWorkers | src/collection/collection.c:210-226 | the registry keeps exactly the new fleet, and the caller is answered once, with or without an old fleet |
| Scaling.Collection.SpinDownDone | src/collection/collection.c:229-247 | only the last spin-down ends the scaling |
| Scaling.Collection.WorkerSpinDown | src/components/logical/worker.c:257-262 | an obsolete worker, as the assertion demands, leaves the registry |
| Scaling.Collection.FireAmid | src/collection/collection.c:133-272 | over any sequence of events of the scaling, scale calls, new indices and new shards: each scale call is refused once, and the scaling ends exactly when its last event has fired, at a time fixed when it began, with the requested number of workers, all shards on serving workers, and one answer; until then shards are on serving workers if and only if none is on the new fleet |
| Scaling.Collection.FireUntilSteady | src/collection/collection.c:133-247 | whatever event of the protocol fires next, there is always one until the scaling ends |
| Scaling.SpinUpStep | src/components/physical/cpu.c:156-171 | one spin-up event keeps both gathers exact and both fleets as they are |
| Scaling.RoutingIffNoneOn | src/collection/collection.c:133-178 | during a scaling the routing goes to serving workers only if and only if no shard is on the new fleet |
| Scaling.BlueRouting | src/collection/collection.c:203-208 | on a blue fleet it always does |
| Scaling.NewFleetIsEmpty | src/components/logical/worker.c:199-219 | no shard is on the new fleet when a scaling begins |
| Scaling.GreensAreNew | src/collection/collection.c:189-194 | the green workers of the registry are exactly the new fleet, in order |
| Scaling.TransferRouting | src/collection/collection.c:197-200 | after the transfer every slot holds a registered blue worker with a full pool |
| Scaling.SwappedFleets | src/collection/collection.c:203-208 | after the swap the new fleet is blue and complete and the old one obsolete |
| Scaling.CompleteOne | src/components/logical/worker.c:241-242 | the gather over the pools counts each pool once |
| Scaling.CpusPerWorker | include/config.h:49-52 | half of the half-OCUs, rounded down, but at least one CPU |
| JsonScan.ScanVisitsMembersIff | src/util/json_scan.c:41-71 | the scan of a line with a printed object visits exactly its members, in order, each with its printed key and the text from its value on, if and only if no key contains a quote |
| JsonScan.PrintedValues | src/util/json_scan.c:65-66 | the k-th callback gets the k-th key, escaped, and a text that starts with the printed k-th value |
| JsonScan.SkipsOneValue | src/util/json_scan.c:7-39 | exactly one printed value is skipped, however deeply it nests, and the pointer stays within the text |
| JsonScan.NestedValue | src/util/json_scan.c:16-33 | a value inside brackets is passed without a change of depth |
| JsonScan.StringEndsAtQuote | src/util/json_scan.c:11-14 | escaped quotes and backslashes do not end a string |
| JsonScan.KeyIsCut | src/util/json_scan.c:57-59 | a key with a quote is cut short |
| JsonScan.EscapeChanges | src/util/json_scan.c:57-59 | a key is reported unchanged if and only if it has neither quote nor backslash |
| JsonScan.ParseUndoesPrint | src/util/json_scan.c:77-87 | reading a printed string gives it back, cut to what fits |
| JsonScan.PassValue | src/util/json_scan.c:7-39 | the pointer version skips what SkipValue skips, on every text, and stays within the text if and only if it is not one that ends in the middle of an escape, nor one of brackets with a string that is not closed |
| JsonScan.PassNested | src/util/json_scan.c:16-33 | the depth-counting loop does what SkipNested says |
| JsonScan.PassString | src/util/json_scan.c:10-14 | the loop over a string does what StringEnd says |
| JsonScan.Scan | src/util/json_scan.c:41-71 | the loop over the line makes the calls of ScanObject, on every line |
| JsonScan.ParseString | src/util/json_scan.c:77-87 | the buffer gets the unescaped text and a NUL, and nothing behind it changes; nothing at all without an opening quote |
| Rng.MixIsBijective | src/util/rng.c:5-10 | the output mixing of SplitMix64 has an explicit inverse |
| Rng.PreviousUndoesNext | src/util/rng.c:27-38 | the step of the state can be undone |
| Rng.NextUndoesPrevious | src/util/rng.c:27-38 | every state is the step of some state |
| Rng.NextIsLinear | src/util/rng.c:27-38 | the step of the state is linear over exclusive or |
| Rng.FirstDraws | src/util/rng.c:22-38 | from the state 1, 2, 3, 4 the draws are the published ones of xoshiro256** |
| Rng.NeverZero | src/util/rng.c:12-38 | from no seed does any number of draws reach the all-zero state |
| Rng.SeedWordsDiffer | src/util/rng.c:12-20 | the four words of a seeded state are pairwise different |
| Rng.SeedsNeverMeet | src/util/rng.c:12-38 | two generators agree after equally many draws if and only if their seeds agree |
| Rng.RunsStayApart | src/util/rng.c:27-38 | runs of equal length end in the same state if and only if they start in the same |
| Rng.FirstStateRepeatsFirst | src/util/rng.c:27-38 | a run that repeats a state repeats its first |
| Rng.DrawsAgreeIff | src/util/rng.c:27-30 | two states give the same draw if and only if they agree in their second word |
| Rng.RNG.constructor | src/util/rng.c:12-20 | the words are those of a seeded state |
| Rng.RNG.SplitMix | src/util/rng.c:5-10 | moves the counter on and mixes it |
| Rng.RNG.Draw | src/util/rng.c:27-38 | the in-place updates make the step of the state, and the draw is that of the state before |
| Rng.RNG.Double | src/util/rng.c:40-42 | one draw as a fraction of 2^64, cut to a multiple of 2^-53, in [0, 1) |
| Rng.RNG.Int | src/util/rng.c:44-48 | a value in the range, from one draw; an empty range draws nothing |

## Left out

- IEEE-754 rounding and NaN: times, cycles, bytes and fractions are real numbers; sizes are not negative, frequencies and capacities are positive, and the blue-green utilization lies in [0, 1]; where reservations can begin after blue-green it is below 1, as a full one leaves a frequency of 0 to divide by.
- malloc, free, the context pools and use after release: retired workers and finished contexts count as live.
- The utilization of disks: one start time is shared by overlapping operations, so no exact integral exists; a disk is a timed completion.
- Profiler output, CSV files, actor names, command line and the reading of files: input and output. Of the profiler the run-then-start-a-new-window step is kept.
- Agents, GET and plain counters: they would only add simpler copies of what SEARCH and PUT show.
- The Poisson generator, gaussian and exponential draws: transcendental functions. Other random choices are arbitrary values in range.
- strtod, strtol, Unicode escapes and what malformed JSON yields beyond the end of the text: a pointer past the terminating NUL reads NUL.
- Negative hashes given to SEARCH, and hash lookups in an index without shards: excluded, as the code indexes out of bounds there.
- collection_scale_up, _down, _out and _in: they pass adjusted numbers to collection_scale_to. The ignore_steady option is off.
- Scheduling.DiskReserveDone: the byte totals and start stamps of the disk are not modelled, only that the operation ends and its caller is answered.
- Workers.Worker.DiskReserveDone: likewise.
- Indexing.ComputeShard: a given hash of -2^31 is excluded, because its negation overflows a 32-bit integer.
- Scaling.Collection.WorkerSpinDown: only the check of the status and the registry; the shutdown of the pool is in Shutdown.
- Scaling.Collection: workers are values in a map, not separate objects; requests that the workers serve while a scaling runs, and the failing of the old fleet's waiters (proved in Shutdown), are not interleaved with it.
- Workers.Worker: the available CPUs and the pending events are fields that hold a sequence and a map; profiler passes and blue-green starts are in WorkerRuns only.
- Search.SearchRequest and Put.PutRequest: the contexts of shards and writes are values in a field of the request; a refused reservation is an input, its reasons are in Scheduling.
- Clocks.Clock.Run: takes a bound on the number of events, because the program's loop need not end; after them it reports that it is not over.
- Callers of a worker are finite trees of calls: an infinite chain of synchronous calls, which would not return in the program either, is not modelled.
- Put: a transfer is to workers that the shard and the put have not had before, as scaling makes them; on a shard with a replica on the primary's worker, transfers in flight are not considered.
