# Operating-systems simulators: MLFQ scheduling and memory partitioning

This project models two simulators from an operating-systems course repository in Dafny and proves properties about them.

**The multi-level feedback queue (MLFQ) scheduler of `MLFQ2.cpp`.** A batch of processes is sorted by arrival time and run over a ladder of round-robin queues:
- Arrived processes are admitted to level 0, both before every scan and after every slice.
- Levels are scanned from 0 down. The head of a queue runs for `min(remaining, quantum)`.
- A finished process gets its completion, turnaround and waiting times. An unfinished one is demoted one level, never below the last, and re-enqueued.
- A lower level stops being drained as soon as level 0 has work again.
- A scan that dispatched nothing advances the clock by one tick.
- The report sorts the completed processes by label and sums their four metrics.

Modules:
- `MlfqProcess` holds the process, level queue and scheduler entities and the per-dispatch updates.
- `MlfqEngine` holds the engine, written as the source's nested loops:
  - `Simulate` is the `while`, and `Round` is one iteration of it.
  - `ScanLevels` is the `for` over levels.
  - `DrainLevel` is the inner `while`, and `Dispatch` is one slice.
- `MlfqReport` holds the report.
- `Sorting` holds the two `std::sort` calls and the string order.

Every loop is proved against an engine invariant over ghost states. The invariant says:
- every admitted process is exactly once completed, queued or running;
- queued and running processes are live;
- completed ones satisfy the metric identities;
- the slices run so far plus the work left equal the total burst.

From this, `Mlfq` is proved to terminate and to complete every input exactly once, with correct metrics. It also returns the ladder empty, with its shape intact.

**The memory manager of `Parcial2/Parcial2.cpp`.** This is a class holding:
- a list of blocks, for dynamic partitioning;
- a vector of partitions, for fixed partitioning;
- a map of recorded process sizes;
- a block-id counter.

Its operations:
- Allocation chooses a block by First, Best or Worst Fit. Under dynamic partitioning, a larger block is split.
- Releasing frees a process's blocks. Under dynamic partitioning, free neighbours are merged afterwards.
- The fragmentation report gives internal and external fragmentation.
- A session configures the manager and then runs commands until `M`.

Modules:
- `MemoryBlocks` has the value-level specifications: which block each rule selects, placement, release, coalescing and the sums.
- `MemoryManagement` has the class. Its methods update the fields in place, and each method's contract ties the new state to those specifications.

The model follows the code as written in these places:
- **Response time** is the absolute clock at the first dispatch (MLFQ2.cpp:151-154).
- **Preemption** only leaves the level being drained (MLFQ2.cpp:183-185). The scan then goes on with the next lower level and returns to level 0 on the next round.
- **Sorting** uses `std::sort`, which is not stable. Only "sorted and a permutation" is promised.
- **Malformed records**: zero bursts and negative arrivals are accepted, as the code accepts them. Negative bursts are excluded (see `MlfqEngine.Mlfq` under "## Left out").

## Model

| member | source | states |
|---|---|---|
| MlfqProcess.NewProc | MLFQ2.cpp:26-29 | a new process has all metrics 0, its whole burst remaining, level 0 and the first-dispatch flag set, with the given inputs |
| MlfqProcess.Scheduler.constructor | MLFQ2.cpp:60 | a new scheduler has no queues |
| MlfqProcess.Scheduler.AddQueue | MLFQ2.cpp:63-65 | appends exactly one empty queue with the given level, policy and quantum; earlier queues are untouched |
| MlfqProcess.RecordResponse | MLFQ2.cpp:151-154 | the first dispatch sets the response time to the clock and clears the flag; a later dispatch keeps the response time; no other field changes |
| MlfqProcess.ResponseRecordedOnce | MLFQ2.cpp:151-154 | the response time is written only once: a second dispatch at any clock leaves the process as the first left it |
| MlfqProcess.SliceLength | MLFQ2.cpp:157 | the slice is at most the remaining time and at most the quantum, and equals one of them |
| MlfqProcess.Demote | MLFQ2.cpp:176-178 | the level rises by at most one; it stays the same exactly when the process is already on the last level; it never passes the last level; nothing else changes |
| MlfqProcess.Complete | MLFQ2.cpp:168-171 | completion sets the completion time to the clock, turnaround = completion − arrival and waiting = turnaround − burst; no other field changes |
| MlfqProcess.CompleteIsFinished | MLFQ2.cpp:168-171 | completing a live process with no time left gives turnaround = completion − arrival, waiting = turnaround − burst ≥ 0, and completion ≥ arrival + burst |
| MlfqProcess.SliceKeepsLive | MLFQ2.cpp:151-159 | a slice is not negative; it is zero exactly when nothing remains; after it, the process is still live at the advanced clock |
| MlfqProcess.SumOfPermutation | MLFQ2.cpp:82-87 | a sum over processes does not depend on their order |
| MlfqProcess.BagPermutation | MLFQ2.cpp:73-76 | permuting processes keeps the multiset of their identities |
| Sorting.InsertionSort | MLFQ2.cpp:127-130 | sorts the array in place: afterwards it is ordered by the comparator and is a permutation of the input |
| Sorting.Insert | MLFQ2.cpp:73-76 | inserting one element into a sorted prefix leaves a sorted prefix one longer, and the array keeps its elements |
| Sorting.LexLessAsymmetric | MLFQ2.cpp:75 | string `<` is asymmetric |
| Sorting.LexLessTotal | MLFQ2.cpp:75 | of two different strings, one is less than the other |
| Sorting.LexNotLessTransitive | MLFQ2.cpp:75 | "not less than" is transitive on strings, so the label comparator is a strict weak order |
| MlfqReport.TagLessIsStrictWeakOrder | MLFQ2.cpp:73-76 | the label comparator satisfies what `std::sort` requires of a comparator |
| MlfqReport.MetricTotalsPermutation | MLFQ2.cpp:82-87 | the four metric totals do not depend on the order in which processes completed |
| MlfqReport.TotalsIdentities | MLFQ2.cpp:82-87 | over completed processes: total turnaround = total completion − total arrival; total waiting = total turnaround − total burst, and it is not negative; total response + total burst ≤ total completion |
| MlfqReport.PrintResults | MLFQ2.cpp:69-87 | the rows end sorted by label and are a permutation of the input; the totals are the sums of the four metrics |
| MlfqEngine.ArrivalLessIsStrictWeakOrder | MLFQ2.cpp:127-130 | the arrival-time comparator satisfies what `std::sort` requires of a comparator |
| MlfqEngine.AdmitArrivals | MLFQ2.cpp:137-140 | admits exactly the next inputs that have arrived by the clock, in order, to the tail of level 0; the next input left behind has not arrived |
| MlfqEngine.AdmitOne | MLFQ2.cpp:137-140 | admitting one arrived input keeps the engine invariant |
| MlfqEngine.AdmitMany | MLFQ2.cpp:162-165 | admitting a batch of arrived inputs keeps the engine invariant |
| MlfqEngine.AdmittedShape | MLFQ2.cpp:138 | admission appends the batch to level 0 and changes no other level and no quantum |
| MlfqEngine.LadderPush | MLFQ2.cpp:179 | appending a process to any queue adds its identity, one to the count, and its remaining time to the work left |
| MlfqEngine.LadderPop | MLFQ2.cpp:147-148 | removing a queue's head removes its identity, one from the count, and its remaining time from the work left |
| MlfqEngine.EmptyLadder | MLFQ2.cpp:146 | every queue is empty exactly when no process is queued; then no identity and no work is queued |
| MlfqEngine.PopHead | MLFQ2.cpp:147-148 | the dequeued head is waiting on its level; taking it for dispatch keeps the invariant |
| MlfqEngine.RunSlice | MLFQ2.cpp:150-159 | the slice is between 0 and the quantum, and zero exactly when nothing remains; running it keeps the invariant |
| MlfqEngine.FinishFlight | MLFQ2.cpp:168-173 | completing the dispatched process once nothing remains keeps the invariant |
| MlfqEngine.RequeueFlight | MLFQ2.cpp:174-180 | demoting an unfinished process and re-enqueuing it on its new level keeps the invariant |
| MlfqEngine.Tick | MLFQ2.cpp:192 | the idle tick keeps the invariant |
| MlfqEngine.DispatchKeeps | MLFQ2.cpp:147-180 | a whole dispatch keeps the invariant and strictly lowers the termination measure (work left plus processes not yet completed) |
| MlfqEngine.ArrivalsUnique | MLFQ2.cpp:137-140 | admission stops at exactly one place: the first input, in arrival order, that has not arrived by the clock |
| MlfqEngine.Arrivals | MLFQ2.cpp:137-140 | where an admission loop stops: at or after its start, past only inputs that have arrived by the clock, and at the end of the input or at one that has not arrived (the same loop at MLFQ2.cpp:162-165) |
| MlfqEngine.DrainedProgress | MLFQ2.cpp:146-188 | the drain of a level stops only when the level is empty or, below level 0, when level 0 has work; it does not move the clock back; it changes nothing when the level is empty, and otherwise consumes work |
| MlfqEngine.ScannedProgress | MLFQ2.cpp:142-189 | the scan does not move the clock back; it changes nothing when every level is empty, and otherwise consumes work |
| MlfqEngine.TurnProgress | MLFQ2.cpp:142-192 | the scan or tick does not move the clock back; when every level is empty only the clock advances, by one; otherwise work is consumed |
| MlfqEngine.IdleRound | MLFQ2.cpp:135-192 | a round that finds every level empty after admission admitted nothing, and the next input has not arrived yet |
| MlfqEngine.RoundProgress | MLFQ2.cpp:135-193 | a round before the end either consumes work or only ticks the clock towards the next arrival, so the loop terminates |
| MlfqEngine.RunCompletes | MLFQ2.cpp:132-193 | the engine loop ends with every input admitted and completed exactly once with consistent metrics, every queue empty and the whole burst run |
| MlfqEngine.AllDone | MLFQ2.cpp:135 | once every input has completed: all were admitted, every queue is empty, the completed processes are exactly the inputs, and the slices add up to the total burst |
| MlfqEngine.StartEngine | MLFQ2.cpp:122-132 | the starting state (nothing admitted, clock 0, nothing run) satisfies the invariant |
| MlfqEngine.Dispatch | MLFQ2.cpp:146-180 | one slice from a non-empty level: dequeue, record the response, run `min(remaining, quantum)`, admit the arrivals, then complete or demote and re-enqueue. The new state is the specified dispatch; the returned flag says whether the process completed |
| MlfqEngine.DrainStep | MLFQ2.cpp:147-182 | one turn of the drain loop is exactly the specified dispatch of the level's head (`Served`, i.e. `Dispatched`); it keeps the invariant, leaves the next input still to arrive, does not move the clock back and strictly lowers the measure |
| MlfqEngine.DrainLevel | MLFQ2.cpp:146-188 | the new state is the drain of the level (`Drained`, whose properties `DrainedProgress` states). On exit the level is empty or, below level 0, level 0 has work. The clock never moves back. Something ran exactly when the level was not empty on entry |
| MlfqEngine.ScanLevels | MLFQ2.cpp:142-189 | the new state is the scan of every level in priority order, each drained in turn (`Scanned`). The clock never moves back. Either the measure fell, or nothing ran, every level was empty and the state is unchanged |
| MlfqEngine.AdmitStage | MLFQ2.cpp:136-140 | admission at the start of a round keeps the invariant; afterwards the next unadmitted input has not arrived |
| MlfqEngine.ScanOrTick | MLFQ2.cpp:142-192 | the new state is the scan or, when every level was empty, the same state with the clock one tick later (`Turn`, whose properties `TurnProgress` states). The clock never moves back |
| MlfqEngine.Round | MLFQ2.cpp:135-193 | one iteration of the engine loop: the new state is admission followed by the scan or the tick (`Rounded`). It keeps the invariant and the ladder's shape, and the clock never moves back. Either the measure falls, or only the clock ticks while the next input has not arrived |
| MlfqEngine.Simulate | MLFQ2.cpp:132-193 | the engine loop terminates with exactly the completions of `Run` from the starting state. The completed processes are exactly the inputs and each satisfies the metric identities; the ladder is as it started; the slices add up to the total burst |
| MlfqEngine.Mlfq | MLFQ2.cpp:121-197 | the input array ends sorted by arrival and holds the same processes. The rows are the completions of `Run`, sorted by label, and the totals are their sums. Every process completes once with consistent metrics, and the ladder is restored |
| MlfqEngine.Schedule | MLFQ2.cpp:121-193 | the input ends sorted by arrival as a permutation; the completed processes are exactly those `Run` produces from the starting state, each input once, with consistent metrics; the slices add up to the total burst |
| MlfqEngine.Report | MLFQ2.cpp:69-87 | the call `printResultados(resp)`: the rows are the completed processes sorted by label, and the totals are their sums |
| MlfqEngine.ReportRows | MLFQ2.cpp:73-87 | reordering the completed processes for the report keeps their identities, their metric identities and their totals |
| MlfqEngine.ReferenceScheduler | MLFQ2.cpp:230-234 | the ladder used for a run: four round-robin levels 0-3 with quanta 3, 5, 6 and 20, all empty |
| MemoryBlocks.Choose | Parcial2/Parcial2.cpp:175-208 | the index the rule selects (the first fitting block; the smallest left-over, below `INT_MAX`, earliest on ties; the largest key above −1, earliest on ties), or −1 exactly when the rule has no choice. A chosen block is free and large enough |
| MemoryBlocks.SelectsUnique | Parcial2/Parcial2.cpp:237-274 | each rule selects at most one block, and a rule that selects a block is not in the no-choice case |
| MemoryBlocks.ChoiceExists | Parcial2/Parcial2.cpp:241-273 | when some free partition is large enough, First Fit and Worst Fit always choose one, and Best Fit does whenever the left-over is below `INT_MAX` |
| MemoryBlocks.TotalConcat | Parcial2/Parcial2.cpp:109-116 | total size and free space add up over a concatenation |
| MemoryBlocks.FreeWithinTotal | Parcial2/Parcial2.cpp:109-118 | external fragmentation is between 0 and the total size when no size is negative |
| MemoryBlocks.InternalNonNegative | Parcial2/Parcial2.cpp:127-131 | internal fragmentation is not negative when every recorded process fits its partition |
| MemoryBlocks.Carve | Parcial2/Parcial2.cpp:215-224 | a block larger than the process becomes two blocks, otherwise one; the first is occupied by the process and keeps the block's id |
| MemoryBlocks.SplitThenMark | Parcial2/Parcial2.cpp:215-224 | splitting the block (when larger) and then marking it occupied is the placement |
| MemoryBlocks.PlaceSums | Parcial2/Parcial2.cpp:211-224 | placing a process keeps the total size and takes exactly its size from the free space |
| MemoryBlocks.PlaceKeepsApart | Parcial2/Parcial2.cpp:211-224 | placing in a free block keeps "no two neighbouring blocks are free" |
| MemoryBlocks.CoalescedFront | Parcial2/Parcial2.cpp:56-66 | the first block of the merge result keeps the first block's id and free state |
| MemoryBlocks.CoalescedSums | Parcial2/Parcial2.cpp:60-62 | merging keeps the total size and the free space |
| MemoryBlocks.CoalescedOccupied | Parcial2/Parcial2.cpp:60-65 | merging keeps the occupied blocks, unchanged and in order |
| MemoryBlocks.CoalescedApart | Parcial2/Parcial2.cpp:56-66 | after merging, no two neighbouring blocks are free |
| MemoryBlocks.CoalescedIdle | Parcial2/Parcial2.cpp:56-66 | merging changes nothing when no two neighbours are free |
| MemoryBlocks.ScanAbsorb | Parcial2/Parcial2.cpp:60-62 | a free block absorbing its free successor does not change what the rest of the scan produces |
| MemoryBlocks.ScanSkip | Parcial2/Parcial2.cpp:63-65 | stepping past a pair that is not both free does not change what the rest of the scan produces |
| MemoryBlocks.ScanEnd | Parcial2/Parcial2.cpp:56 | when the scan stops at the last block, the blocks are the merge result |
| MemoryBlocks.MergeRuns | Parcial2/Parcial2.cpp:56-66 | the merge loop of `mergeFreeBlocks` yields exactly `Coalesced` of its input, whose properties `CoalescedSums`, `CoalescedOccupied` and `CoalescedApart` state |
| MemoryBlocks.ReleaseAllProperties | Parcial2/Parcial2.cpp:297-304 | afterwards no block belongs to the process; sizes and ids are kept; other blocks are unchanged; if the process owned nothing, nothing changes |
| MemoryBlocks.ReleaseAllTotal | Parcial2/Parcial2.cpp:297-304 | releasing keeps the total size |
| MemoryBlocks.FirstOwned | Parcial2/Parcial2.cpp:319-326 | the index of the first partition the process occupies, or −1 exactly when it occupies none |
| MemoryBlocks.Occupy | Parcial2/Parcial2.cpp:277-279 | occupying a partition keeps every partition's id and size |
| MemoryBlocks.OccupyKeepsSizesFit | Parcial2/Parcial2.cpp:277-280 | placing a process whose id holds no partition keeps every recorded size within its partition |
| MemoryBlocks.FreeKeepsSizesFit | Parcial2/Parcial2.cpp:320-323 | freeing a partition and forgetting its process keeps every recorded size within its partition |
| MemoryBlocks.DuplicateIdNegativeInternal | Parcial2/Parcial2.cpp:129-130 | one id placed twice (partitions 10 and 50, sizes 5 then 40, First Fit) makes internal fragmentation −20 |
| MemoryManagement.SameLayoutTotal | Parcial2/Parcial2.cpp:378-382 | partitions with the same ids and sizes have the same total, so the fixed-memory bound survives allocation and release |
| MemoryManagement.Partitions | Parcial2/Parcial2.cpp:370-376 | partition j is free, has id j and has the j-th size read |
| MemoryManagement.LayOut | Parcial2/Parcial2.cpp:368-376 | builds the partitions one per size read, and returns their total size |
| MemoryManagement.MemoryManager.constructor | Parcial2/Parcial2.cpp:337 | empty memory, no recorded sizes, size 0, next block id 1, algorithm 0 |
| MemoryManagement.MemoryManager.MergeFreeBlocks | Parcial2/Parcial2.cpp:50-67 | the list becomes the merge result; total size, free space and the occupied blocks are kept; afterwards no two neighbours are free; other fields are unchanged |
| MemoryManagement.MemoryManager.AllocateDynamic | Parcial2/Parcial2.cpp:175-230 | −1 exactly when the rule has no choice, and then nothing changes. Otherwise the selected block is carved, the id counter moves only on a split, and the size is recorded. Total size is kept, free space falls by the size, and free neighbours stay apart |
| MemoryManagement.MemoryManager.PlaceInBlock | Parcial2/Parcial2.cpp:211-224 | the block is split when larger, then occupied; the new state is the placement; sums and separation are as above |
| MemoryManagement.MemoryManager.AllocateFixed | Parcial2/Parcial2.cpp:237-287 | −1 exactly when the rule has no choice, and then nothing changes; otherwise the selected partition is occupied and the size recorded. The layout never changes, and recorded sizes keep fitting for a new id |
| MemoryManagement.MemoryManager.LiberateDynamic | Parcial2/Parcial2.cpp:293-311 | found exactly when the process held a block. Then every block it held is freed, free neighbours are merged and its size forgotten; otherwise nothing changes. Total size and separation are kept |
| MemoryManagement.MemoryManager.LiberateFixed | Parcial2/Parcial2.cpp:317-330 | frees only the first partition the process holds and forgets its size; −1 and nothing changes when it holds none; the layout is kept |
| MemoryManagement.MemoryManager.Allocate | Parcial2/Parcial2.cpp:149-155 | dispatches on the scheme: the new state is the allocation of the active scheme (`Allocated`: the selected block carved or partition occupied, the size recorded); −1 exactly when the rule has no choice, and then nothing changes; keeps the manager's invariant (dynamic blocks add up to the memory size with no free neighbours; fixed partitions fit in memory) |
| MemoryManagement.MemoryManager.Liberate | Parcial2/Parcial2.cpp:162-168 | dispatches on the scheme: found exactly when the process holds memory in the active scheme; the new state is the release (`Liberated`); nothing changes when the process holds nothing; the invariant is kept |
| MemoryManagement.MemoryManager.Fragmentation | Parcial2/Parcial2.cpp:103-142 | dynamic: internal 0 and external equal to the free space; fixed: internal equal to the unused space of occupied partitions with a recorded size, external equal to the free partitions' size |
| MemoryManagement.MemoryManager.Setup | Parcial2/Parcial2.cpp:344-399 | the session goes on exactly when the size is positive and either the scheme is dynamic, or it is fixed and the partitions fit; it then holds one free block of the whole size, or the partitions read, and the other scheme's memory stays empty; the recorded sizes and the id counter are untouched |
| MemoryManagement.MemoryManager.Execute | Parcial2/Parcial2.cpp:401-433 | the state reached is the session of the commands (`Session`: allocations and releases in order up to the first `M`, then the map's lookups); the report is shown exactly when an `M` occurs and gives the fragmentation of that state; the invariant and the partition layout are kept |
| MemoryManagement.MemoryManager.Perform | Parcial2/Parcial2.cpp:416-425 | one `A` or `L` command: the new state is that command's step, and the invariant is kept |
| MemoryManagement.MemoryManager.PrintShellFormat | Parcial2/Parcial2.cpp:74-97 | printing the map looks up every listed occupant with `operator[]`, which records size 0 for each one without a size; nothing else changes |
| MemoryManagement.ShownSizesProperties | Parcial2/Parcial2.cpp:84-94 | after the map is printed every recorded size is kept, every listed occupant without one has size 0, nothing else is added, and nothing changes when every occupant had a size |
| MemoryManagement.SessionStopsAtShowMap | Parcial2/Parcial2.cpp:427-431 | a session ends at the first `M`: the commands after it have no effect |
| MemoryManagement.ShowMapCountsUnsizedOccupant | Parcial2/Parcial2.cpp:93-130 | memory 100, partitions 10 and 50, First Fit, `A P1 5`, `A P1 40`, `L P1`, `M`: the map records size 0 for `P1`, still in partition 1, and the report is 50 internal and 10 external |

## Left out

- File and console I/O: reading the process file and the console input, the `cout`/`cerr` messages and the output file. Of `printShellFormat` only its lookups in the recorded sizes are modelled (`PrintShellFormat`), since they change the report.
- Command parsing: commands reach `Execute` already parsed. `A`/`a`, `L`/`l` and `M`/`m` become `Alloc`, `Free` and `ShowMap`; an empty line or any other word becomes `Skip`. A line of only blanks leaves the previous command, id and size in place, so it repeats the previous command; this is not modelled. Malformed `A` and `L` lines (a missing id or a size that does not parse) are not modelled either.
- The averages in the report are floating-point divisions. Only the integer sums are modelled (`MetricTotals`).
- Integer widths: all integers are unbounded, so 32-bit overflow of the clock, the sums and the sizes is not modelled. Best Fit's starting value `numeric_limits<int>::max()` is kept as the constant `IntMax`, so a left-over of `INT_MAX` or more is never chosen, as in the source.
- The order of equal keys after `std::sort` is unspecified. The model's insertion sort is one admissible outcome. Every property is stated so that it holds for any sorted permutation.
- `Cola::add_process` and `Cola::is_empty` become the value operations `LevelQueue.Enqueue` and `LevelQueue.IsEmpty`. A queue is an element of the scheduler's sequence of queues, so the separate copy a `std::queue` makes is not modelled.
- The fields `priority`, `cola` and `tipo`, the queue's policy string and a queue's `nivel` are carried along but never affect scheduling.
- MlfqEngine.Mlfq: requires every burst to be non-negative and the ladder to be non-empty, with positive quanta and empty queues. The source accepts a negative burst, which makes the clock run backwards. A quantum of 0 on a level above the last runs a zero-length slice and demotes the process, so the run still ends; a negative quantum there also ends but moves the clock back. A quantum of 0 or less on the last level loops forever, since the process is re-enqueued on that same level and the level never empties. On an empty ladder the source indexes level 0, which does not exist.
- MlfqEngine.Schedule: requires the same of its input as `Mlfq` (non-negative bursts, a non-empty ladder with positive quanta and empty queues), for the same reasons.
- MlfqEngine.Simulate: requires the same of its input as `Mlfq`, expressed as the engine invariant at the start.
- The MLFQ preemption rule is modelled as written: after the `break`, the scan continues with the next lower level. A stricter "level 0 is always served first" property is therefore not claimed.
- MemoryManagement.MemoryManager.Setup: requires a freshly constructed manager (empty memories), which is the only state in which the source calls `run`. A negative partition count behaves as an empty list of sizes.
- Fixed internal fragmentation can come out negative when one process id is allocated twice, because the second allocation overwrites the recorded size (`DuplicateIdNegativeInternal`). `InternalNonNegative` and `OccupyKeepsSizesFit` therefore assume that no partition already holds the id.
- The other files of the repository (the `week13` exercises and the disk-scheduling visualiser) are not part of this model.
