# CPU scheduling and memory allocation simulator — Dafny model

The original program is a teaching simulator written in C (`main.c`). It
runs one of four algorithms over a fixed batch of inputs:

- First-Come-First-Served (FCFS) scheduling: processes run to completion in
  input order.
- Round-Robin scheduling: processes are scanned again and again in array
  order, and each one runs for at most one time quantum per turn.
- First-Fit allocation: each memory request takes the lowest-index free
  block that is large enough.
- Best-Fit allocation: each memory request takes the smallest free block
  that is large enough.

The model has one module per part:

- `Records` (`records.dfy`): the two C structs `Process` and `MemoryBlock`
  as value datatypes. The C `(array, count)` pairs become Dafny arrays of
  exactly that many records.
- `Fcfs` (`fcfs.dfy`): the scheduler is a method that updates the array in
  place. It is proved against `Scheduled`, a function that gives each
  process's three metrics.
- `RoundRobin` (`round_robin.dfy`): the reference is functional. `ScanFrom`
  is one scan over the array in index order, `NextRound` one pass of the
  `while (done < n)` loop (a scan plus an idle tick when nobody ran), and
  `Run` the whole loop. Lemmas prove what a scan does: it serves exactly the
  eligible processes, in increasing index order, back to back. The
  imperative methods `RunSlice`, `Scan`, `Round` and `Simulate` are proved
  equal to these functions. A separate invariant, `Consistent`, ties the
  records to the trace of slices run so far. It yields the metric facts
  `Schedule` promises. Termination is proved with the measure (sum of
  remaining times, latest arrival − clock).
- `MemoryAllocation` (`allocation.dfy`): the two allocators are methods
  that update the block array in place. They are proved equal to
  `Allocate`, a fold over the requests, and each request's inner block scan
  is a read-only method with its own contract.

Integers are unbounded. The C code uses `int` and ignores overflow, and so
does this model.

## Model

| member | source | states |
|---|---|---|
| `Records.Process` | main.c:5-8 | The process record, with the same eight integer fields. |
| `Records.MemoryBlock` | main.c:10-13 | The memory block record: id, size, allocatedProcess and the allocated flag. |
| `Fcfs.Scheduled` | main.c:39-44 | A process after FCFS has waitingTime ≥ 0, turnaroundTime = waitingTime + burstTime and completionTime = arrivalTime + turnaroundTime ≥ arrivalTime + burstTime. No other field changes. |
| `Fcfs.ClockAfter` | main.c:34-42 | The clock after the first n processes is at least the n-th process's arrival plus its burst, and is never negative when no burst is. |
| `Fcfs.StartTime` | main.c:40 | A process starts no earlier than its arrival and no earlier than the clock left by its predecessors. |
| `Fcfs.CompletionRecurrence` | main.c:34-44 | completionTime[i] = max(completionTime[i-1], arrivalTime[i]) + burstTime[i], with the clock starting at 0. |
| `Fcfs.ClockMonotone` | main.c:40-42 | With non-negative bursts, the FCFS clock never goes backwards. |
| `Fcfs.RunsInInputOrder` | main.c:39-44 | With non-negative bursts, each process has finished before any later process starts, so there is no preemption. |
| `Fcfs.Schedule` | main.c:32-44 | Each array element becomes `Scheduled` of the original array, in input order. |
| `RoundRobin.AfterSlice` | main.c:75-80 | After one slice, remainingTime drops by the slice length and the inputs are unchanged. |
| `RoundRobin.FinishedCount` | main.c:78-81 | The finished-process counter never exceeds n. |
| `RoundRobin.MaxArrival` | main.c:72 | Every arrival time is at most the maximum arrival time, which bounds idle ticks in the termination measure. |
| `RoundRobin.ScanFrom` | main.c:71-84 | A scan keeps the number of processes and never moves the clock backwards. |
| `RoundRobin.ScanFromStep` | main.c:71-83 | One-step unfolding of `ScanFrom`, adding no property beyond its definition: at index i, an unfinished process that has arrived runs min(remainingTime, tq) from the current clock and the scan goes on at i + 1. Any other process is skipped with the clock unchanged. |
| `RoundRobin.ScanFromKeeps` | main.c:70-84 | A scan changes only remainingTime, turnaroundTime and waitingTime. It never raises or makes negative a remainingTime and leaves processes before the start index alone. A scan that runs nothing changes nothing, and then no process from the start index on was eligible. |
| `RoundRobin.ScanFromOrder` | main.c:71-83 | A scan's slices belong to processes in strictly increasing index order at or after the start index. They have positive length, the first starts at the scan's clock, each starts when the previous one ends, and the last ends at the clock the scan returns. |
| `RoundRobin.ScanFromServesEligible` | main.c:71-73 | Every process at or after the start index that is unfinished and has arrived by the scan's starting clock gets a slice in that scan, so the CPU never skips an eligible process. |
| `RoundRobin.ScanFromProgress` | main.c:77 | A scan that runs any slice strictly lowers the sum of remaining times. |
| `RoundRobin.Waiting` | main.c:85 | While some process is unfinished but none is eligible, the clock is before the latest arrival, so idle ticks are finite. |
| `RoundRobin.NextRound` | main.c:69-86 | One pass of the outer loop keeps remainingTime ≥ 0 and the inputs. Either it ran slices and lowered the remaining sum, or it ran nothing, left the records alone and advanced the clock by exactly one, to at most the latest arrival. |
| `RoundRobin.Run` | main.c:69-86 | The whole loop ends with every remainingTime 0 and the inputs unchanged. |
| `RoundRobin.RunUnfold` | main.c:69-86 | One-round unfolding of `Run`, adding no property beyond its definition: with some process unfinished, the loop is one round followed by the loop from the round's outcome, with the round's slices first. |
| `RoundRobin.FinishedCountFull` | main.c:69-81 | The counter equals n exactly when every remainingTime is 0. |
| `RoundRobin.Unfinished` | main.c:69 | While the counter is below n, some process is unfinished. |
| `RoundRobin.RemainingSumNonNegative` | main.c:75-77 | Non-negative remaining times have a non-negative sum, and the sum is 0 exactly when all of them are 0. |
| `RoundRobin.RemainingSumUpdate` | main.c:77 | Updating one process changes the sum of remaining times by exactly that process's change. |
| `RoundRobin.FinishedCountUpdate` | main.c:78-81 | Updating one process changes the finished count by exactly that process's change in finished status. |
| `RoundRobin.SumsAgree` | main.c:24 | When remainingTime = burstTime initially, the sum of remaining times equals the sum of bursts. |
| `RoundRobin.AppendSlice` | main.c:75-77 | One more slice adds its length to its own process's served time and to the total busy time. |
| `RoundRobin.MatchesAfterSlice` | main.c:75-80 | Running a slice of process i keeps its record consistent with the trace, including turnaround and waiting time when it finishes. |
| `RoundRobin.MatchesOtherSlice` | main.c:71-72 | A slice of another process leaves process j's record consistent with the trace. |
| `RoundRobin.SliceStep` | main.c:72-82 | One slice of an eligible process keeps the invariant. The remaining sum drops by the slice length, and the finished count rises by one when the process finishes. |
| `RoundRobin.FinishBound` | main.c:72-76 | A process's last slice ends at least its total served time after its arrival, because its slices start after arrival and never overlap. |
| `RoundRobin.IdleTick` | main.c:85 | An idle tick keeps the invariant. |
| `RoundRobin.AllFinished` | main.c:69-80 | Once all processes are done: every remainingTime is 0, each process was served exactly its initial remainingTime, and turnaroundTime = finish − arrival and waitingTime = turnaroundTime − burstTime. If remainingTime started equal to burstTime, total executed time = sum of bursts and every waitingTime ≥ 0. |
| `RoundRobin.ConsistentStart` | main.c:64 | Before any slice, at clock 0, the records agree with the empty trace. |
| `RoundRobin.ScanFromConsistent` | main.c:71-84 | The records a scan leaves are what its slices, appended to the trace, make of the initial records. |
| `RoundRobin.RoundConsistent` | main.c:69-86 | One pass of the outer loop keeps the records in agreement with the trace. |
| `RoundRobin.RunConsistent` | main.c:69-86 | The whole loop keeps the records in agreement with the trace. |
| `RoundRobin.RunOutcome` | main.c:62-86 | From records with every remainingTime > 0 and tq > 0: every slice follows the quantum rule and every process ends with remainingTime 0, served exactly its initial remainingTime. turnaroundTime = end of last slice − arrival and waitingTime = turnaroundTime − burstTime. The slices add up to the initial remaining sum. When remainingTime started equal to burstTime, they add up to the sum of bursts and no waitingTime is negative. |
| `RoundRobin.RunSlice` | main.c:72-82 | One slice lasts min(remainingTime, tq) > 0. Only process i changes, exactly as `AfterSlice` says, and the returned counter is the finished count of the new array. |
| `RoundRobin.Scan` | main.c:70-84 | The `for` loop over the array leaves exactly the records, clock and slices of `ScanFrom` from index 0. It reports "idle" exactly when that scan ran nothing, and then no process is eligible. |
| `RoundRobin.Round` | main.c:69-86 | One pass of the outer loop, scan plus idle tick, gives exactly `NextRound`. |
| `RoundRobin.Simulate` | main.c:62-86 | The `while (done < n)` loop terminates and leaves exactly the records of `Run` from clock 0, with the slices of `Run` as its trace. |
| `RoundRobin.Schedule` | main.c:62-86 | The array and trace equal `Run`'s. Every remainingTime ends at 0 and every slice follows the quantum rule. Each process's turnaroundTime and waitingTime come from its last slice. The slices add up to the initial remaining sum, or to the sum of bursts with all waitingTime ≥ 0 when remainingTime started equal to burstTime. |
| `RoundRobin.FirstRoundExample` | main.c:69-86 | With the four-process data and tq = 4, the first round runs P1, P2, P3, P4 from clock 0 to 15, and P2 finishes at 7 (WT 3, TAT 6). |
| `RoundRobin.SecondRoundExample` | main.c:69-86 | The second round runs P1, P3, P4 from clock 15, skips the finished P2, and finishes them at 16, 20 and 22. |
| `RoundRobin.RunExample` | main.c:62-86 | The whole run on that data gives the Gantt sequence P1 P2 P3 P4 P1 P3 P4, ends at clock 22, with waiting times 11, 3, 10, 13 and turnaround times 16, 6, 18, 19. |
| `MemoryAllocation.FirstFitIn` | main.c:104-110 | The chosen block is free and fits, and no lower-index block fits. None is returned exactly when no block fits. |
| `MemoryAllocation.BestFitIn` | main.c:126-132 | The chosen block is free, fits and is below 99999. It is no larger than any fitting block and strictly smaller than every earlier fitting block, so ties go to the earliest index. None is returned exactly when every fitting block has size ≥ 99999. |
| `MemoryAllocation.Choose` | main.c:104-132 | Either strategy picks only a free block that fits. |
| `MemoryAllocation.Bind` | main.c:106-135 | Binding keeps the number of blocks. With no choice the blocks are unchanged. With a choice j, block j is marked allocated to the request and keeps its id and size, and every other block is unchanged. |
| `MemoryAllocation.Allocate` | main.c:102-137 | Handling the requests in order keeps the number of blocks. |
| `MemoryAllocation.AllocateKeepsBlocks` | main.c:105-135 | id and size never change, an already allocated block is never touched, and a block still free at the end is unchanged. |
| `MemoryAllocation.AllocateBindsOnce` | main.c:105-135 | Every newly bound block holds a request number 1..p whose size it fits, and no two blocks are bound to the same request. |
| `MemoryAllocation.UnallocatedStep` | main.c:112-136 | One-step unfolding of `Unallocated`, adding no property beyond its definition: handling one more request adds its number to the report exactly when no block is chosen for it. |
| `MemoryAllocation.UnallocatedExactly` | main.c:112-136 | A request is reported "cannot be allocated" exactly when no block was bound to it. |
| `MemoryAllocation.Unallocated` | main.c:112-136 | The report lists request numbers 1..p in strictly increasing order (the order the messages are printed), each at most once. |
| `MemoryAllocation.FindFirstFit` | main.c:104-111 | The inner First-Fit scan returns the lowest index of a free fitting block, or -1 exactly when none fits. |
| `MemoryAllocation.FindBestFit` | main.c:126-133 | The inner Best-Fit scan returns the smallest free fitting block below 99999, the earliest one on ties, or -1 exactly when there is none. |
| `MemoryAllocation.FirstFit` | main.c:100-113 | The block array becomes `Allocate(First, …)`, and the returned list holds the requests that could not be placed. |
| `MemoryAllocation.BestFit` | main.c:123-137 | The block array becomes `Allocate(Best, …)`, and the returned list holds the requests that could not be placed. |
| `MemoryAllocation.FirstFitChoices` | main.c:104-110 | On the demo data, the First-Fit scan picks block 2 for 212, block 5 for 417 and block 3 for 112, and finds nothing for 426. |
| `MemoryAllocation.FirstFitExampleHalf` | main.c:102-113 | On the demo data, the first two First-Fit requests bind 212→block 2 and 417→block 5, and nothing is reported. |
| `MemoryAllocation.FirstFitExample` | main.c:160-161 | On the demo data, First-Fit binds 212→block 2, 417→block 5, 112→block 3 and cannot place 426. |
| `MemoryAllocation.BestFitChoices` | main.c:126-132 | On the demo data, the Best-Fit scan picks block 4 for 212, block 2 for 417, block 3 for 112 and block 5 for 426. |
| `MemoryAllocation.BestFitExampleHalf` | main.c:125-137 | On the demo data, the first two Best-Fit requests bind 212→block 4 and 417→block 2, and nothing is reported. |
| `MemoryAllocation.BestFitExample` | main.c:160-161 | On the demo data, Best-Fit binds 212→block 4, 417→block 2, 112→block 3 and 426→block 5. |

`Fcfs.Example` and `RoundRobin.Example` call `Schedule` on a
four-process example (arrivals 0, 1, 2, 3 and bursts 5, 3, 8, 6) and
assert what the contracts give; they have no contract of their own, so
they have no table row. `Fcfs.Example` asserts completion times 5, 8, 16,
22 and waiting times 0, 4, 6, 13. `RoundRobin.Example` asserts, with
quantum 4, waiting times 11, 3, 10, 13, turnaround times 16, 6, 18, 19
and the exact sequence of slices.

## Left out

- `readProcesses` (main.c:16-29): file input with `fopen`/`fscanf` and no
  bound check against the 100-element array. The caller passes the array of
  processes instead.
- All `printf` output: Gantt charts, result tables and per-block reports.
  The "cannot be allocated" messages are modelled as the list of request
  numbers the allocators return.
- Average waiting and turnaround times: these use float arithmetic and
  divide by zero when n = 0.
- `main` (main.c:146-170): the menu and `scanf` dispatch. Its demo data
  appear only in the example lemmas and methods.
- The `priority` field is carried but never read, as in the source.
- 32-bit `int` overflow is not modelled. All arithmetic is on unbounded
  integers.
- RoundRobin.Schedule: requires `tq > 0` and every `remainingTime > 0`.
  For n ≥ 1, with `tq <= 0` or a process whose remainingTime starts at 0 or
  below, the original `while (done < n)` loop never ends, so the model has
  nothing to state for those inputs. For n = 0 the C loop does not run
  whatever tq is, but the model still requires `tq > 0`.
- RoundRobin.Schedule: `waitingTime >= 0` and "total executed time = sum of
  bursts" are proved only when remainingTime starts equal to burstTime, as
  the loader sets it (main.c:24). For other initial states the model proves
  the same facts with the initial remainingTime in place of burstTime.
- Fcfs.RunsInInputOrder: assumes non-negative burst times. A negative burst
  would move the C clock backwards.
- The degenerate case "Round-Robin with quantum ≥ every burst and equal
  arrivals behaves like FCFS" is not proved.
- The inner scans of First-Fit and Best-Fit are separate read-only methods
  (`FindFirstFit`, `FindBestFit`). In C they are nested loops inside
  `firstFit` and `bestFit`. First-Fit's `break` is a `return` from its
  scan.
- Round-Robin's body is split the same way: `RunSlice` is one slice,
  `Scan` the `for` loop, `Round` one pass of the `while` loop and
  `Simulate` the `while` loop. `Schedule` calls `Simulate` and adds the
  metric facts. The slices run are kept in a ghost trace that the C code
  does not have; the Gantt chart it prints lists the same processes in the
  same order.
