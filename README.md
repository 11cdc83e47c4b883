# SJF scheduler with a core-capacity admission stage, in Dafny

This project models `main.py`: the `Process` record (main.py:1-32) and the
engine `sjf_scheduling` (main.py:34-104). The engine is a Shortest-Job-First
scheduler with an integer clock. Each process moves through the statuses
new → pending → ready → processing → done. At most `core_capacity`
processes may sit in pending before they arrive. Every status keeps a time
counter (`time_in_states`).

The model has two layers.

- **Specification on values.**
  - `ProcessRecord.Record` is a snapshot of one process.
    `Initial`, `Charged` and `Transitioned` are the constructor,
    `update_state_time` and `change_status`.
  - `Scheduling.Sched` is the whole engine state. The processes form an
    arena of records, indexed by position in the arrival-sorted input.
    `new_processes`, `pending_processes`, `ready_queue` and `result` are
    lists of indices into it.
  - One pass of the `while` loop is `Step`: admission (`Admit`), readiness
    (`PromoteArrived`), the two flushes (`FlushNew`, `FlushReady`), then the
    stable sort of the ready queue followed by an idle tick or the atomic run
    of the shortest job (`Dispatch`).
  - `Run` repeats `Step` until every process is done. `Schedule` starts from
    "everything new, clock 0".
  - `StableSort.SortBy` is a stable insertion sort. It stands for Python's
    `list.sort` at lines 39 and 78.
- **Imperative engine.**
  - `ProcessRecord.Process` is a class. Its identity fields are constants;
    the fields the source mutates are `var`s.
  - `Engine` runs the loop over an `array<Process>`, sorted in place by
    arrival time. Each phase is a method whose `ensures` says that the new
    object states equal the specification applied to the old ones.
  - `Engine.SjfScheduling` returns the completed processes, in completion
    order, as the sequence of objects named by the specification's result
    list.

The properties proved about the specification (for core capacity ≥ 1
unless stated):

- every process ends done, exactly once, in `result`, and the queues end
  empty;
- when every burst is positive, completion times strictly increase along
  `result`;
- when no burst is negative, waiting times are non-negative;
- when every input process is still new, each processing counter grows by
  exactly its burst;
- the pending list never exceeds the capacity;
- an idle tick happens only while the pending list holds processes that have
  not arrived yet;
- a single process arriving at 0 completes at its burst, having waited 0;
- processes promoted to ready are appended in their pending order, and those
  left pending keep their order;
- the job dispatched is the first one of minimal burst in the ready queue;
- with capacity ≤ 0 and at least one process, the loop never finishes.

Line 62 is modelled exactly as written. It overwrites the pending counter
with the last interval, and `change_status` on line 63 then adds that
interval again. `ScheduleProperties.PromotedAccounted` states exactly when
the counters still add up to the elapsed time. `PromotionMiscounts` gives a
record for which they do not.

`main` (main.py:147-172) is modelled without its printing, as
`MainProgram.RunExample`: four processes, capacity 2. The model follows the
code, which gives this outcome (processes in the order they complete):

| pid | completion | turnaround | waiting |
|---|---|---|---|
| 1 | 6 | 6 | 0 |
| 3 | 8 | 4 | 2 |
| 4 | 11 | 5 | 2 |
| 2 | 15 | 13 | 9 |

Admission follows arrival order, because line 39 sorts the list first. On
the example, process 4 (burst 3) has already arrived at time 8 when process
3 finishes, and it runs before process 2 (burst 4).

## Model

| member | source | states |
|---|---|---|
| ProcessRecord.Process.constructor | main.py:2-21 | the new object holds the given pid, arrival, burst and clock; it is new, all five counters are 0, completion/waiting/turnaround are 0, remaining time is the burst, and the last change and creation time are the given clock |
| ProcessRecord.Initial | main.py:2-21 | definition of the record the constructor builds (no ensures of its own); described by InitialAccounted and Process.constructor |
| ProcessRecord.InitialAccounted | main.py:2-21 | a freshly built record is new, has every counter at 0, remaining time equal to its burst, and satisfies the accounting rule (counters sum to last change minus creation time) |
| ProcessRecord.TimeInStates.Set | main.py:26 | writing one status counter sets that counter and leaves the other four as they were |
| ProcessRecord.Process.UpdateStateTime | main.py:23-27 | the object's new state is its old state charged up to the given clock, and nothing else of it changes |
| ProcessRecord.Charged | main.py:23-27 | definition of update_state_time on a record (no ensures of its own); described by ChargedEffect, ChargedIdempotent and ChargedAccounted |
| ProcessRecord.ChargedEffect | main.py:23-27 | update_state_time adds exactly the time since the last change to the current status's counter, leaves the other counters, moves the last change to the clock and touches no other field |
| ProcessRecord.ChargedIdempotent | main.py:23-27 | a second update_state_time at the same clock changes nothing |
| ProcessRecord.ChargedAccounted | main.py:23-27 | update_state_time preserves the accounting rule |
| ProcessRecord.Process.ChangeStatus | main.py:29-32 | the object's new state is its old state charged up to the clock and then given the new status |
| ProcessRecord.Transitioned | main.py:29-32 | definition of change_status on a record (no ensures of its own); described by TransitionedEffect |
| ProcessRecord.TransitionedEffect | main.py:29-32 | change_status sets the new status, charges the elapsed time to the old status only, moves the last change to the clock, keeps identity fields and preserves the accounting rule |
| Lists.RemoveFirst | main.py:57 | list.remove of a member drops exactly one occurrence of it: one element shorter, multiset minus that element |
| Lists.RemoveFirstAfter | main.py:65 | removing an element that does not occur earlier takes out exactly that position and keeps the rest in order |
| StableSort.SortBy | main.py:78 | the sort returns a permutation of its input |
| StableSort.SortBySorted | main.py:78 | the sorted list is ordered by the key |
| StableSort.SortByStable | main.py:78 | the sort is stable: the elements with any given key keep their relative input order |
| StableSort.SortByHead | main.py:78-85 | after the sort, the popped head is the first element of minimal key in the unsorted list |
| StableSort.FirstMinimum | main.py:85 | the chosen position holds a minimal key and every earlier position holds a strictly larger key |
| StableSort.SortByOrdered | main.py:39 | sorting a list already ordered by the key returns it unchanged |
| StableSort.InsertSorted | main.py:78 | inserting into an ordered list keeps it ordered |
| Engine.SortByArrival | main.py:39 | the array is rearranged in place into the stable sort of its old contents by arrival time |
| Engine.SnapsSort | main.py:39 | sorting the objects by arrival and taking their snapshots gives the same records as sorting the snapshots by arrival |
| Scheduling.Start | main.py:41-49 | definition of the state before the first pass: every index new, the other lists empty, clock 0, nothing completed (no ensures of its own); described by StartWellFormed and StartGood |
| Scheduling.StartWellFormed | main.py:41-49 | the initial state (all processes new, clock 0, nothing completed) is well formed and its pending list is empty |
| Scheduling.Partition | main.py:44-49 | in a well-formed state every process index lies in exactly one of the four lists, and every list is duplicate-free |
| Scheduling.Admit | main.py:53-57 | definition of admission (no ensures of its own); described by AdmitCount, AdmitEffect, AdmitFills, AdmitMoves and AdmitWellFormed |
| Scheduling.AdmitCount | main.py:53-57 | admission takes no more new processes than there are, stops as soon as pending is full, never exceeds the capacity, and takes none when pending is already full |
| Scheduling.AdmitWellFormed | main.py:53-57 | admission keeps every index in exactly one of the four lists |
| Scheduling.AdmitMoves | main.py:53-57 | admission leaves the ready queue and the result as they were, and new and pending together hold the same indices before and after |
| Scheduling.AdmitFills | main.py:53-57 | after admission pending stays within capacity, and if any process is still new then pending is exactly full |
| ScheduleProperties.AdmitEffect | main.py:53-57 | admission appends the longest possible prefix of new (up to capacity) to pending in order, marks exactly those records pending at the current clock, and leaves the ready queue, the result and every other record alone |
| Engine.AdmitNew | main.py:53-57 | the loop over a copy of new_processes leaves the objects, new list and pending list equal to the specification's admission |
| Engine.AdmitOne | main.py:54-57 | one iteration of the admission loop extends the admitted prefix by one exactly when pending is below capacity |
| Engine.ChangeAt | main.py:55 | change_status on one process of the array changes that process's snapshot as change_status does and no other snapshot |
| Scheduling.PromoteArrived | main.py:60-67 | definition of readiness (no ensures of its own); described by PromoteEffect, PromoteMoves, SelectOrdered and PromoteWellFormed |
| Scheduling.Select | main.py:60-67 | an index is selected exactly when it is in the given list and its arrival test (arrival ≤ clock) has the asked-for outcome |
| Scheduling.SelectSplit | main.py:60-67 | the arrived and the not-yet-arrived selections together are a permutation of the pending list |
| Scheduling.PromoteWellFormed | main.py:60-67 | readiness keeps every index in exactly one of the four lists |
| Scheduling.PromoteMoves | main.py:60-67 | readiness leaves the new list and the result as they were, and pending and ready together hold the same indices before and after |
| Scheduling.SelectOrdered | main.py:60-65 | the chosen pending processes are taken in pending order: the selection is a subsequence of the pending list |
| ScheduleProperties.PromoteEffect | main.py:60-67 | readiness keeps the old ready queue as a prefix, the appended part and the new pending list are each subsequences of the old pending list (pending order kept), a pending process goes to ready exactly when it has arrived and stays pending exactly when it has not, an arrived pending process becomes ready with its pending counter at twice the last interval, and a waiting one is charged up to the clock |
| Engine.PromoteReady | main.py:60-67 | the loop over a copy of pending_processes leaves the objects, pending list and ready queue equal to the specification's readiness phase |
| Engine.PromoteOne | main.py:61-67 | one iteration moves the process to ready (appended) and out of pending if it has arrived, and charges it otherwise |
| Engine.PromoteAt | main.py:62-63 | the overwrite of the pending counter followed by change_status to ready, applied to one object |
| Engine.UpdateAt | main.py:67 | update_state_time on one process of the array changes that snapshot only |
| Scheduling.Perform | main.py:53-75 | definition of what one turn of the bookkeeping loops does to one record: a flush (lines 71 and 75), a status change (line 55) or the arrival test with promotion or flush (lines 61-67) (no ensures of its own); described by PromotedEffect, ChargedEffect and TransitionedEffect and used through ApplyAt |
| Scheduling.ApplyAt | main.py:53-75 | definition of acting once on each listed record and leaving the others as they are; its own ensures keeps the number of records; described by ApplyAtSame, ApplyStep, ApplyAtSnoc, AdmitRecords, PromoteRecords and FlushRecords |
| Scheduling.Promoted | main.py:62-63 | definition of the promotion of one record, the counter overwrite and then change_status to ready (no ensures of its own); described by PromotedEffect, PromotedAccounted and PromotionMiscounts |
| ScheduleProperties.PromotedEffect | main.py:62-63 | a pending record promoted to ready ends with its pending counter at twice the last interval, status ready, last change at the clock, and everything else unchanged |
| ScheduleProperties.PromotedAccounted | main.py:62-63 | promotion keeps the accounting rule if and only if the pending counter already equalled the last interval |
| ScheduleProperties.PromotionMiscounts | main.py:62-67 | a process admitted at 0, charged at 2 and promoted at 3 has counters that sum to 2 though 3 time units elapsed |
| Scheduling.FlushNew | main.py:70-71 | definition of the flush of the new processes (no ensures of its own); described by FlushKeepsLists, FlushWellFormed and FlushGood |
| Scheduling.FlushReady | main.py:74-75 | definition of the flush of the ready queue (no ensures of its own); described by FlushKeepsLists, FlushWellFormed and FlushGood |
| Scheduling.FlushWellFormed | main.py:69-75 | the two flush loops keep every index in exactly one of the four lists |
| Scheduling.FlushKeepsLists | main.py:69-75 | the two flush loops change records only: every list, the clock and the count are as they were |
| Engine.FlushAll | main.py:70-75 | the flush loop charges exactly the listed processes up to the clock and no others |
| Scheduling.Prepare | main.py:53-75 | definition of the bookkeeping part of a pass (no ensures of its own); described by PrepareWellFormed, PrepareWithinCapacity and IdleWaiting |
| Engine.PreparePass | main.py:53-75 | the four bookkeeping loops together leave objects and lists equal to the specification's admission, readiness and flushes |
| Scheduling.PrepareWellFormed | main.py:53-75 | the bookkeeping phases keep the state well formed and every ready index in range |
| Scheduling.PrepareWithinCapacity | main.py:53-67 | the pending list never grows beyond the core capacity |
| Scheduling.ReadyOrder | main.py:78 | definition of the ready queue as sorted by burst (no ensures of its own); described by ReadyOrderStable and DispatchChoosesShortest |
| Scheduling.Dispatch | main.py:78-98 | definition of the idle tick or the run of the sorted queue's head (no ensures of its own); described by DispatchChoosesShortest, DispatchWellFormed and IdleWaits |
| ScheduleProperties.DispatchChoosesShortest | main.py:78-98 | the job dispatched has a burst no larger than any ready job, every job before it in the ready queue has a strictly larger burst, and the ready queue loses exactly that job |
| ScheduleProperties.ReadyOrderStable | main.py:78 | the sorted ready queue is ordered by burst and keeps jobs of equal burst in their queue order |
| Scheduling.DispatchWellFormed | main.py:85-98 | running a job keeps the state well formed and leaves new and pending untouched |
| Scheduling.IdleWaits | main.py:80-82 | an idle tick happens only while some process has not yet arrived |
| Scheduling.IdleWaiting | main.py:60-82 | when a pass finds the ready queue empty, the pending list is non-empty and every process in it has an arrival time later than the clock |
| Engine.DispatchPass | main.py:78-98 | the sort, pop and run on the objects match the specification's dispatch, reporting which process ran |
| Engine.RunJob | main.py:86-95 | running one process sets its completion to start plus burst and its snapshot to the executed record, and changes no other process |
| Scheduling.Executed | main.py:86-95 | definition of running one job to completion (no ensures of its own); described by ExecutedEffect and ExecutedAccounted |
| ScheduleProperties.ExecutedEffect | main.py:86-95 | a run ready job completes at start plus burst, turnaround is completion minus arrival, waiting is turnaround minus burst (the start minus arrival), processing grows by the burst, ready by the wait since the last change, and new, pending and done are untouched |
| ScheduleProperties.ExecutedAccounted | main.py:86-95 | running a job preserves the accounting rule |
| Scheduling.Step | main.py:51-98 | definition of one pass of the while loop (no ensures of its own); described by StepProgress, StepGood and StepSame |
| Scheduling.StepSame | main.py:51-98 | a pass changes no process's identity, arrival or burst |
| Scheduling.StepProgress | main.py:51-98 | each unfinished pass keeps the invariant and either completes one more process or idles one tick while some arrival is still ahead |
| Engine.OnePass | main.py:52-98 | one iteration of the while loop moves objects and lists to the specification's next state |
| Engine.ReachesStep | main.py:51-98 | each pass keeps the loop in a state whose remaining run ends where the run from the start ends |
| ScheduleProperties.StartGood | main.py:41-49 | the loop invariant holds before the first pass |
| ScheduleProperties.StepGood | main.py:51-98 | every pass preserves the loop invariant (well formed, same processes, statuses tracked by list, processing counted, waiting non-negative, completion ordered) |
| ScheduleProperties.AdmitGood | main.py:53-57 | admission preserves the loop invariant |
| ScheduleProperties.PromoteGood | main.py:60-67 | readiness preserves the loop invariant |
| ScheduleProperties.FlushGood | main.py:69-75 | each flush preserves the loop invariant |
| ScheduleProperties.DispatchGood | main.py:78-98 | dispatch preserves the loop invariant |
| ScheduleProperties.DispatchOrdered | main.py:85-98 | with positive bursts, the job completed now finishes strictly later than every job completed before |
| ScheduleProperties.DispatchTimely | main.py:85-98 | with non-negative bursts, the job completed now has non-negative waiting time and no completion lies in the future |
| Scheduling.Run | main.py:51-102 | the loop ends, in a state satisfying the invariant, with every process completed and the same number of processes |
| ScheduleProperties.RunGood | main.py:51-102 | the loop invariant holds when the loop ends |
| Scheduling.AllCompleted | main.py:51 | once completed equals the process count, new, pending and ready are empty and the result lists every process exactly once |
| Scheduling.Schedule | main.py:34-104 | the final state is well formed, new, pending and ready are empty, completed equals the count, and the result holds every process index |
| ScheduleProperties.ScheduleGood | main.py:34-104 | the final state satisfies the loop invariant relative to the input records |
| ScheduleProperties.ScheduleCompletes | main.py:34-104 | every process appears exactly once in the result and every final record is done with turnaround and waiting derived from its completion |
| ScheduleProperties.ScheduleCharges | main.py:34-104 | starting from new processes, each one's processing counter grows by exactly its burst |
| ScheduleProperties.ScheduleWaits | main.py:34-104 | with non-negative bursts, every waiting time is non-negative and no completion is after the final clock |
| ScheduleProperties.ScheduleSingle | main.py:34-104 | a single process arriving at 0 is run in the first pass: the result is that process, it ends done with completion time equal to its burst and waiting time 0, and the clock ends at its burst |
| ScheduleProperties.OrderedResult | main.py:97 | given the Ordered invariant of a well-formed state (each completion strictly later than those before it in the result), completion times strictly increase along the whole result, whose indices are in range |
| ScheduleProperties.ScheduleInCompletionOrder | main.py:34-104 | with positive bursts, the returned list is in strictly increasing completion time |
| ScheduleProperties.StalledStep | main.py:51-82 | with no capacity and empty pending and ready lists, a pass only charges the new processes and idles one tick |
| ScheduleProperties.NoCapacityNeverEnds | main.py:51-57 | with capacity ≤ 0 and at least one process, no number of passes completes anything, so the loop never ends |
| Engine.RunPasses | main.py:41-104 | the while loop leaves the objects in the specification's final states and returns the objects named by its result list, in order |
| Engine.RunOnArray | main.py:41-104 | the loop over the array keeps the array's order and ends in the specification's final state |
| Engine.SjfScheduling | main.py:34-104 | the input array ends sorted by arrival, every object ends in the state the specification computes from the sorted input, and the returned list is the completed processes in completion order |
| WorkedExample.ExampleRun | main.py:153-169 | on the example data with capacity 2, the run completes indices 0, 2, 3, 1 at times 6, 8, 11, 15 and all lists end empty |
| WorkedExample.PassAt | main.py:51-98 | one pass on concrete lists produces the admitted, promoted and dispatched lists the phases predict |
| WorkedExample.ExampleSchedule | main.py:153-169 | the example's final records have the completion, turnaround and waiting times in the table above |
| MainProgram.ExampleSorted | main.py:155-169 | the example data is already in arrival order, so the sort at line 39 leaves it unchanged |
| MainProgram.ReadBack | main.py:169 | reading the returned objects gives pids 1, 3, 4, 2 with completion 6, 8, 11, 15, turnaround 6, 4, 5, 13 and waiting 0, 2, 2, 9 |
| MainProgram.NewExample | main.py:155-163 | the four processes are fresh, distinct and hold the example records |
| MainProgram.RunExample | main.py:147-169 | main's scheduling yields pids 1, 3, 4, 2 with completion 6, 8, 11, 15, turnaround 6, 4, 5, 13 and waiting 0, 2, 2, 9 |

## Left out

- print_current_status (main.py:106-112) and print_results (main.py:114-145) are console output only. They are not modelled, and neither are the floating-point averages at main.py:130-131.
- The print calls inside the loop (main.py:101-102) and in main (main.py:165-166, 172) are output only and are not modelled.
- Default arguments (`current_time=0`, `core_capacity=2`) have no counterpart: callers pass the values explicitly.
- `remaining_time` is set by the constructor and never read again. It is kept as a constant field.
- Times are unbounded integers. Python would also accept floats, which are not modelled.
- Statuses are a five-valued datatype instead of strings. The source only ever uses these five, so the `KeyError` an unknown status would raise is not modelled.
- Engine.SjfScheduling: requires the array to hold distinct objects. A Python list holding the same `Process` twice (aliasing) is not modelled.
- Engine.SjfScheduling: requires `core_capacity >= 1`. With a smaller capacity and at least one process the source loops forever, which the specification states in ScheduleProperties.NoCapacityNeverEnds. An empty list with capacity ≤ 0 makes the source return `[]` at once, because `completed != n` is false at main.py:51; the model does not cover that call.
- ScheduleProperties.ScheduleInCompletionOrder: assumes positive bursts, because with zero-length bursts two completions can carry the same time.
- ScheduleProperties.ScheduleWaits: assumes non-negative bursts. The source accepts any number.
