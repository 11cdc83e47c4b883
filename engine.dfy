/** sjf_scheduling (main.py:34-104) as the imperative engine it is: the
    caller's array of Process objects is sorted in place by arrival time, and
    a while loop over index lists mutates the objects pass by pass. Every
    phase is a method proved to act on the records as the matching function
    of Scheduling does, so the loop computes Schedule of the sorted records. */
module Engine {
  import opened Lists
  import opened StableSort
  import opened ProcessRecord
  import opened Scheduling

  /** The sort key of main.py:39. */
  function ArrivalOf(p: Process): int {
    p.arrivalTime
  }

  function RecordArrival(r: Record): int {
    r.arrivalTime
  }

  // ---------------------------------------------------------------------------
  // Lifting the Process methods to a sequence of distinct processes

  method ChangeAt(ps: seq<Process>, i: nat, newStatus: Status, currentTime: int)
    requires Distinct(ps) && i < |ps|
    modifies ps[i]
    ensures Snaps(ps) == old(Snaps(ps))[i := Transitioned(old(Snaps(ps))[i], newStatus, currentTime)]
  {
    ps[i].ChangeStatus(newStatus, currentTime);
  }

  method UpdateAt(ps: seq<Process>, i: nat, currentTime: int)
    requires Distinct(ps) && i < |ps|
    modifies ps[i]
    ensures Snaps(ps) == old(Snaps(ps))[i := Charged(old(Snaps(ps))[i], currentTime)]
  {
    ps[i].UpdateStateTime(currentTime);
  }

  /** main.py:62-63 on one process. */
  method PromoteAt(ps: seq<Process>, i: nat, currentTime: int)
    requires Distinct(ps) && i < |ps|
    modifies ps[i]
    ensures Snaps(ps) == old(Snaps(ps))[i := Promoted(old(Snaps(ps))[i], currentTime)]
  {
    var p := ps[i];
    p.timeInStates := p.timeInStates.Set(Pending, currentTime - p.lastStateChange);
    p.ChangeStatus(Ready, currentTime);
  }

  /** main.py:86-95 on one process: it runs to completion from currentTime. */
  method RunJob(ps: seq<Process>, h: nat, currentTime: int) returns (finish: int)
    requires Distinct(ps) && h < |ps|
    modifies ps[h]
    ensures finish == currentTime + ps[h].burstTime
    ensures Snaps(ps) == old(Snaps(ps))[h := Executed(old(Snaps(ps))[h], currentTime)]
  {
    var p := ps[h];
    p.ChangeStatus(Processing, currentTime);
    finish := currentTime + p.burstTime;
    p.completionTime := finish;
    p.turnaroundTime := p.completionTime - p.arrivalTime;
    p.waitingTime := p.turnaroundTime - p.burstTime;
    p.ChangeStatus(Done, finish);
  }

  /** Acting on one more index that was not acted on before. */
  lemma ApplyAtSnoc(procs: seq<Record>, idx: seq<nat>, x: nat, act: Action, currentTime: int)
    requires x !in idx && x < |procs|
    ensures ApplyAt(procs, idx + [x], act, currentTime)
         == ApplyAt(procs, idx, act, currentTime)[x := Perform(procs[x], act, currentTime)]
  {
  }

  // ---------------------------------------------------------------------------
  // The phases of one pass

  /** main.py:53-57: walk a copy of new_processes and admit while the pending
      list is below capacity. */
  method AdmitNew(ps: seq<Process>, newProcs: seq<nat>, pendingProcs: seq<nat>, coreCapacity: int, currentTime: int)
    returns (newAfter: seq<nat>, pendingAfter: seq<nat>)
    requires Distinct(ps) && Distinct(newProcs)
    requires forall i :: i in newProcs ==> i < |ps|
    modifies ps
    ensures var a := Admit(Sched(old(Snaps(ps)), newProcs, pendingProcs, [], [], currentTime, 0), coreCapacity);
      Snaps(ps) == a.procs && newAfter == a.newProcs && pendingAfter == a.pendingProcs
  {
    ghost var procs0 := Snaps(ps);
    ghost var k := AdmitCount(|newProcs|, |pendingProcs|, coreCapacity);
    var copy := newProcs;
    newAfter, pendingAfter := newProcs, pendingProcs;
    var i := 0;
    while i < |copy|
      invariant 0 <= i <= |copy|
      invariant var m := if i < k then i else k;
        newAfter == copy[m..] && pendingAfter == pendingProcs + copy[..m]
        && Snaps(ps) == ApplyAt(procs0, copy[..m], MoveTo(Pending), currentTime)
    {
      assert copy[i] in newProcs;
      newAfter, pendingAfter := AdmitOne(ps, procs0, copy, i, k, newAfter, pendingAfter, pendingProcs, coreCapacity, currentTime);
      i := i + 1;
    }
  }

  /** The body of the admission loop for the i-th process of the copy; k is
      the number of processes the whole loop admits. */
  method AdmitOne(ps: seq<Process>, ghost procs0: seq<Record>, copy: seq<nat>, i: nat, ghost k: nat,
                  newProcs: seq<nat>, pendingProcs: seq<nat>, ghost pending0: seq<nat>, coreCapacity: int, currentTime: int)
    returns (newAfter: seq<nat>, pendingAfter: seq<nat>)
    requires Distinct(ps) && Distinct(copy) && i < |copy| && copy[i] < |ps|
    requires k == AdmitCount(|copy|, |pending0|, coreCapacity)
    requires var m := if i < k then i else k;
      newProcs == copy[m..] && pendingProcs == pending0 + copy[..m]
      && Snaps(ps) == ApplyAt(procs0, copy[..m], MoveTo(Pending), currentTime)
    modifies ps
    ensures var m := if i + 1 < k then i + 1 else k;
      newAfter == copy[m..] && pendingAfter == pending0 + copy[..m]
      && Snaps(ps) == ApplyAt(procs0, copy[..m], MoveTo(Pending), currentTime)
  {
    var idx := copy[i];
    AdmitTurn(|copy|, |pending0|, coreCapacity, i);
    newAfter, pendingAfter := newProcs, pendingProcs;
    if |pendingAfter| < coreCapacity {
      ApplyStep(procs0, copy, i, MoveTo(Pending), currentTime);
      ChangeAt(ps, idx, Pending, currentTime);
      pendingAfter := pendingAfter + [idx];
      assert newAfter == [idx] + copy[i + 1..];
      newAfter := RemoveFirst(newAfter, idx);
      assert copy[..i + 1] == copy[..i] + [idx];
    }
  }

  /** Turn i of the admission loop admits exactly when i is below the count
      the loop admits in all. */
  lemma AdmitTurn(newCount: nat, pendingCount: nat, coreCapacity: int, i: nat)
    requires i < newCount
    ensures var k := AdmitCount(newCount, pendingCount, coreCapacity);
      (i < k) <==> pendingCount + (if i < k then i else k) < coreCapacity
  {
  }

  /** main.py:60-67: walk a copy of pending_processes; an arrived process is
      promoted to the ready queue, any other is flushed. */
  method PromoteReady(ps: seq<Process>, pendingProcs: seq<nat>, readyQueue: seq<nat>, currentTime: int)
    returns (pendingAfter: seq<nat>, readyAfter: seq<nat>)
    requires Distinct(ps) && Distinct(pendingProcs)
    requires forall i :: i in pendingProcs ==> i < |ps|
    modifies ps
    ensures var b := PromoteArrived(Sched(old(Snaps(ps)), [], pendingProcs, readyQueue, [], currentTime, 0));
      Snaps(ps) == b.procs && pendingAfter == b.pendingProcs && readyAfter == b.readyQueue
  {
    ghost var procs0 := Snaps(ps);
    var copy := pendingProcs;
    pendingAfter, readyAfter := pendingProcs, readyQueue;
    var i := 0;
    while i < |copy|
      invariant 0 <= i <= |copy|
      invariant readyAfter == readyQueue + Select(procs0, copy[..i], currentTime, true)
      invariant pendingAfter == Select(procs0, copy[..i], currentTime, false) + copy[i..]
      invariant Snaps(ps) == ApplyAt(procs0, copy[..i], Arrive, currentTime)
    {
      assert copy[i] in pendingProcs;
      pendingAfter, readyAfter := PromoteOne(ps, procs0, copy, i, pendingAfter, readyAfter, readyQueue, currentTime);
      i := i + 1;
    }
    assert copy[..i] == copy;
  }

  /** The body of the readiness loop for the i-th process of the copy. */
  method PromoteOne(ps: seq<Process>, ghost procs0: seq<Record>, copy: seq<nat>, i: nat,
                    pendingProcs: seq<nat>, readyQueue: seq<nat>, ghost ready0: seq<nat>, currentTime: int)
    returns (pendingAfter: seq<nat>, readyAfter: seq<nat>)
    requires Distinct(ps) && Distinct(copy) && i < |copy| && copy[i] < |ps| && |procs0| == |ps|
    requires forall j :: 0 <= j < |ps| ==> procs0[j].arrivalTime == ps[j].arrivalTime
    requires readyQueue == ready0 + Select(procs0, copy[..i], currentTime, true)
    requires pendingProcs == Select(procs0, copy[..i], currentTime, false) + copy[i..]
    requires Snaps(ps) == ApplyAt(procs0, copy[..i], Arrive, currentTime)
    modifies ps
    ensures readyAfter == ready0 + Select(procs0, copy[..i + 1], currentTime, true)
    ensures pendingAfter == Select(procs0, copy[..i + 1], currentTime, false) + copy[i + 1..]
    ensures Snaps(ps) == ApplyAt(procs0, copy[..i + 1], Arrive, currentTime)
  {
    var idx := copy[i];
    ApplyStep(procs0, copy, i, Arrive, currentTime);
    if ps[idx].arrivalTime <= currentTime {
      ArrivedTurn(procs0, copy, i, currentTime, pendingProcs, readyQueue, ready0);
      PromoteAt(ps, idx, currentTime);
      readyAfter := readyQueue + [idx];
      pendingAfter := RemoveFirst(pendingProcs, idx);
    } else {
      WaitingTurn(procs0, copy, i, currentTime, pendingProcs, readyQueue, ready0);
      UpdateAt(ps, idx, currentTime);
      readyAfter, pendingAfter := readyQueue, pendingProcs;
    }
  }

  /** The lists after turn i of the readiness loop when the process has arrived. */
  lemma ArrivedTurn(procs: seq<Record>, copy: seq<nat>, i: nat, currentTime: int,
                    pendingProcs: seq<nat>, readyQueue: seq<nat>, ready0: seq<nat>)
    requires Distinct(copy) && i < |copy| && copy[i] < |procs| && procs[copy[i]].arrivalTime <= currentTime
    requires readyQueue == ready0 + Select(procs, copy[..i], currentTime, true)
    requires pendingProcs == Select(procs, copy[..i], currentTime, false) + copy[i..]
    ensures copy[i] in pendingProcs
    ensures readyQueue + [copy[i]] == ready0 + Select(procs, copy[..i + 1], currentTime, true)
    ensures RemoveFirst(pendingProcs, copy[i]) == Select(procs, copy[..i + 1], currentTime, false) + copy[i + 1..]
  {
    var x := copy[i];
    var sel, kept := Select(procs, copy[..i], currentTime, true), Select(procs, copy[..i], currentTime, false);
    assert readyQueue + [x] == ready0 + Select(procs, copy[..i + 1], currentTime, true) by {
      SelectTurn(procs, copy, i, currentTime, true);
      Associative(ready0, sel, [x]);
    }
    assert pendingProcs == kept + [x] + copy[i + 1..] by {
      SuffixCons(copy, i);
      Associative(kept, [x], copy[i + 1..]);
    }
    assert pendingProcs[|kept|] == x;
    assert RemoveFirst(pendingProcs, x) == Select(procs, copy[..i + 1], currentTime, false) + copy[i + 1..] by {
      assert Select(procs, copy[..i + 1], currentTime, false) == kept by {
        SelectTurn(procs, copy, i, currentTime, false);
        assert kept + [] == kept;
      }
      PendingRemoved(procs, copy, i, currentTime, kept);
    }
  }

  /** The lists after turn i of the readiness loop when the process has not arrived. */
  lemma WaitingTurn(procs: seq<Record>, copy: seq<nat>, i: nat, currentTime: int,
                    pendingProcs: seq<nat>, readyQueue: seq<nat>, ready0: seq<nat>)
    requires i < |copy| && copy[i] < |procs| && procs[copy[i]].arrivalTime > currentTime
    requires readyQueue == ready0 + Select(procs, copy[..i], currentTime, true)
    requires pendingProcs == Select(procs, copy[..i], currentTime, false) + copy[i..]
    ensures readyQueue == ready0 + Select(procs, copy[..i + 1], currentTime, true)
    ensures pendingProcs == Select(procs, copy[..i + 1], currentTime, false) + copy[i + 1..]
  {
    var x := copy[i];
    var sel, kept := Select(procs, copy[..i], currentTime, true), Select(procs, copy[..i], currentTime, false);
    assert Select(procs, copy[..i + 1], currentTime, true) == sel by {
      SelectTurn(procs, copy, i, currentTime, true);
      assert sel + [] == sel;
    }
    assert Select(procs, copy[..i + 1], currentTime, false) == kept + [x] by {
      SelectTurn(procs, copy, i, currentTime, false);
    }
    assert pendingProcs == kept + [x] + copy[i + 1..] by {
      SuffixCons(copy, i);
      Associative(kept, [x], copy[i + 1..]);
    }
  }

  /** Select on one more element of the copy. */
  lemma SelectTurn(procs: seq<Record>, copy: seq<nat>, i: nat, currentTime: int, arrived: bool)
    requires i < |copy|
    ensures Select(procs, copy[..i + 1], currentTime, arrived)
         == Select(procs, copy[..i], currentTime, arrived) + if HasArrived(procs, copy[i], currentTime) == arrived then [copy[i]] else []
  {
    assert copy[..i + 1] == copy[..i] + [copy[i]];
    SelectSnoc(procs, copy[..i], copy[i], currentTime, arrived);
  }

  /** An arrived process leaves the pending list at its own position. */
  lemma PendingRemoved(procs: seq<Record>, copy: seq<nat>, i: nat, currentTime: int, kept: seq<nat>)
    requires Distinct(copy) && i < |copy| && kept == Select(procs, copy[..i], currentTime, false)
    ensures RemoveFirst(kept + [copy[i]] + copy[i + 1..], copy[i]) == kept + copy[i + 1..]
  {
    NotBefore(copy, i);
    assert copy[i] !in kept;
    RemoveFirstAfter(kept, copy[i], copy[i + 1..]);
  }

  lemma NotBefore(s: seq<nat>, i: nat)
    requires Distinct(s) && i < |s|
    ensures s[i] !in s[..i]
  {
    forall j | 0 <= j < i ensures s[..i][j] != s[i] {
      assert s[j] != s[i];
    }
  }

  /** One turn of a loop that acts on the listed records one by one. */
  lemma ApplyStep(procs: seq<Record>, idx: seq<nat>, i: nat, act: Action, currentTime: int)
    requires Distinct(idx) && i < |idx| && idx[i] < |procs|
    ensures ApplyAt(procs, idx[..i], act, currentTime)[idx[i]] == procs[idx[i]]
    ensures ApplyAt(procs, idx[..i + 1], act, currentTime)
         == ApplyAt(procs, idx[..i], act, currentTime)[idx[i] := Perform(procs[idx[i]], act, currentTime)]
  {
    NotBefore(idx, i);
    assert idx[..i + 1] == idx[..i] + [idx[i]];
    ApplyAtSnoc(procs, idx[..i], idx[i], act, currentTime);
  }

  /** main.py:70-71 and 74-75: flush every listed process. */
  method FlushAll(ps: seq<Process>, idx: seq<nat>, currentTime: int)
    requires Distinct(ps) && Distinct(idx)
    requires forall i :: i in idx ==> i < |ps|
    modifies ps
    ensures Snaps(ps) == ApplyAt(old(Snaps(ps)), idx, Flush, currentTime)
  {
    ghost var procs0 := Snaps(ps);
    var i := 0;
    while i < |idx|
      invariant 0 <= i <= |idx|
      invariant Snaps(ps) == ApplyAt(procs0, idx[..i], Flush, currentTime)
    {
      assert idx[i] in idx;
      ApplyStep(procs0, idx, i, Flush, currentTime);
      UpdateAt(ps, idx[i], currentTime);
      i := i + 1;
    }
    assert idx[..i] == idx;
  }

  // ---------------------------------------------------------------------------
  // One pass and the whole loop

  /** main.py:53-75, the bookkeeping part of one pass on the live objects. */
  method PreparePass(ps: seq<Process>, ghost s: Sched, newProcs: seq<nat>, pendingProcs: seq<nat>,
                     readyQueue: seq<nat>, currentTime: int, coreCapacity: int)
    returns (newAfter: seq<nat>, pendingAfter: seq<nat>, readyAfter: seq<nat>)
    requires Distinct(ps) && WellFormed(s) && s.procs == Snaps(ps)
    requires s.newProcs == newProcs && s.pendingProcs == pendingProcs
    requires s.readyQueue == readyQueue && s.currentTime == currentTime
    modifies ps
    ensures var p := Prepare(s, coreCapacity);
      Snaps(ps) == p.procs && newAfter == p.newProcs && pendingAfter == p.pendingProcs && readyAfter == p.readyQueue
  {
    Partition(s);
    InRange(s);
    newAfter, pendingAfter := AdmitNew(ps, newProcs, pendingProcs, coreCapacity, currentTime);
    ghost var a := Admit(s, coreCapacity);
    assert Snaps(ps) == a.procs && newAfter == a.newProcs && pendingAfter == a.pendingProcs;
    AdmitWellFormed(s, coreCapacity);
    Partition(a);
    InRange(a);
    pendingAfter, readyAfter := PromoteReady(ps, pendingAfter, readyQueue, currentTime);
    ghost var b := PromoteArrived(a);
    assert Snaps(ps) == b.procs && pendingAfter == b.pendingProcs && readyAfter == b.readyQueue;
    PromoteWellFormed(a);
    Partition(b);
    InRange(b);
    FlushAll(ps, newAfter, currentTime);
    assert Snaps(ps) == FlushNew(b).procs;
    FlushAll(ps, readyAfter, currentTime);
  }

  /** main.py:39: the caller's list is sorted in place by arrival time. */
  method SortByArrival(processes: array<Process>)
    modifies processes
    ensures processes[..] == SortBy(old(processes[..]), ArrivalOf)
  {
    var sorted := SortBy(processes[..], ArrivalOf);
    forall i | 0 <= i < processes.Length {
      processes[i] := sorted[i];
    }
  }

  /** One pass of the while loop of main.py:51-102: the bookkeeping phases,
      the sort of the ready queue by burst time, and then either an idle tick
      or the run of the head of the queue (ran, with h its index). */
  method OnePass(ps: seq<Process>, ghost s: Sched, newProcs: seq<nat>, pendingProcs: seq<nat>,
                 readyQueue: seq<nat>, currentTime: int, completed: nat, coreCapacity: int)
    returns (newAfter: seq<nat>, pendingAfter: seq<nat>, readyAfter: seq<nat>,
             timeAfter: int, completedAfter: nat, ran: bool, h: nat)
    requires Distinct(ps) && WellFormed(s)
    requires s == Sched(Snaps(ps), newProcs, pendingProcs, readyQueue, s.result, currentTime, completed)
    modifies ps
    ensures ran ==> h < |ps|
    ensures Step(s, coreCapacity)
         == Sched(Snaps(ps), newAfter, pendingAfter, readyAfter, if ran then s.result + [h] else s.result,
                  timeAfter, completedAfter)
  {
    newAfter, pendingAfter, readyAfter := PreparePass(ps, s, newProcs, pendingProcs, readyQueue, currentTime, coreCapacity);
    ghost var p := Prepare(s, coreCapacity);
    PrepareWellFormed(s, coreCapacity);
    readyAfter, timeAfter, completedAfter, ran, h := DispatchPass(ps, p, readyAfter, currentTime, completed);
  }

  /** main.py:78-98: sort the ready queue by burst time, then idle one tick
      when it is empty or run its head (ran, with h its index) to completion. */
  method DispatchPass(ps: seq<Process>, ghost p: Sched, readyQueue: seq<nat>, currentTime: int, completed: nat)
    returns (readyAfter: seq<nat>, timeAfter: int, completedAfter: nat, ran: bool, h: nat)
    requires Distinct(ps) && ReadyInRange(p) && p.procs == Snaps(ps)
    requires p.readyQueue == readyQueue && p.currentTime == currentTime && p.completed == completed
    modifies ps
    ensures ran ==> h < |ps|
    ensures Dispatch(p) == p.(procs := Snaps(ps), readyQueue := readyAfter, result := if ran then p.result + [h] else p.result,
                              currentTime := timeAfter, completed := completedAfter)
  {
    readyAfter := SortBy(readyQueue, BurstKey(Bursts(Snaps(ps))));
    DispatchCases(p);
    timeAfter, completedAfter := currentTime, completed;
    if |readyAfter| == 0 {
      timeAfter := timeAfter + 1;
      ran, h := false, 0;
      return;
    }
    h := readyAfter[0];
    readyAfter := readyAfter[1..];
    timeAfter := RunJob(ps, h, timeAfter);
    completedAfter := completedAfter + 1;
    ran := true;
  }

  /** The while loop of main.py:51-102 on processes already in arrival order:
      the objects end in the state Schedule computes for their records, and
      the result lists them in the order Schedule completes them. */
  method RunPasses(ps: seq<Process>, coreCapacity: int) returns (result: seq<Process>)
    requires coreCapacity >= 1 && Distinct(ps)
    modifies ps
    ensures var final := Schedule(old(Snaps(ps)), coreCapacity);
      Snaps(ps) == final.procs
      && (forall k :: 0 <= k < |final.result| ==> final.result[k] < |ps|)
      && result == Pick(ps, final.result)
  {
    ghost var init := Snaps(ps);
    var n := |ps|;
    var currentTime := 0;
    var completed: nat := 0;
    var readyQueue: seq<nat> := [];
    result := [];
    ghost var resultIdx: seq<nat> := [];
    var newProcs := Range(n);
    var pendingProcs: seq<nat> := [];
    StartWellFormed(init);
    while completed != n
      invariant |Snaps(ps)| == n
      invariant Reaches(Sched(Snaps(ps), newProcs, pendingProcs, readyQueue, resultIdx, currentTime, completed), init, coreCapacity)
      invariant Picked(ps, resultIdx, result)
      decreases n - completed, MaxArrival(init) - currentTime
    {
      ghost var s := Sched(Snaps(ps), newProcs, pendingProcs, readyQueue, resultIdx, currentTime, completed);
      ReachesStep(s, init, coreCapacity);
      var ran, h;
      newProcs, pendingProcs, readyQueue, currentTime, completed, ran, h :=
        OnePass(ps, s, newProcs, pendingProcs, readyQueue, currentTime, completed, coreCapacity);
      if ran {
        PickSnoc(ps, resultIdx, result, h);
        result := result + [ps[h]];
        resultIdx := resultIdx + [h];
      }
    }
  }

  /** s is a state the loop reaches from the start: its run is the run from
      the start, and it has the same latest arrival. */
  ghost predicate Reaches(s: Sched, init: seq<Record>, coreCapacity: int) {
    coreCapacity >= 1 && Inv(s, coreCapacity) && Inv(Start(init), coreCapacity)
    && Run(s, coreCapacity) == Run(Start(init), coreCapacity) && MaxArrival(s.procs) == MaxArrival(init)
  }

  /** A pass keeps the state reachable and makes progress: one more process
      completes, or the clock moves one tick towards the latest arrival. */
  lemma ReachesStep(s: Sched, init: seq<Record>, coreCapacity: int)
    requires Reaches(s, init, coreCapacity) && s.completed != |s.procs|
    ensures Reaches(Step(s, coreCapacity), init, coreCapacity)
    ensures var t := Step(s, coreCapacity);
      t.completed == s.completed + 1
      || (t.completed == s.completed && t.currentTime == s.currentTime + 1 && s.currentTime < MaxArrival(init))
  {
    StepProgress(s, coreCapacity);
    RunUnfold(s, coreCapacity);
  }

  /** The loop run on the caller's array once it is sorted: the array itself
      is not changed, only the objects it holds. */
  method RunOnArray(processes: array<Process>, coreCapacity: int) returns (result: seq<Process>)
    requires coreCapacity >= 1 && Distinct(processes[..])
    modifies processes[..]
    ensures processes[..] == old(processes[..])
    ensures var final := Schedule(old(Snaps(processes[..])), coreCapacity);
      Snaps(processes[..]) == final.procs
      && (forall k :: 0 <= k < |final.result| ==> final.result[k] < processes.Length)
      && result == Pick(processes[..], final.result)
  {
    var ps := processes[..];
    result := RunPasses(ps, coreCapacity);
  }

  /** sjf_scheduling (main.py:34-104). The caller's array ends up sorted by
      arrival time, every object's state is the final state of Schedule on
      the sorted records, and the returned list holds the objects in the
      order Schedule completes them. */
  method SjfScheduling(processes: array<Process>, coreCapacity: int) returns (result: seq<Process>)
    requires coreCapacity >= 1
    requires Distinct(processes[..])
    modifies processes, processes[..]
    ensures processes[..] == SortBy(old(processes[..]), ArrivalOf)
    ensures var final := Schedule(SortBy(old(Snaps(processes[..])), RecordArrival), coreCapacity);
      Snaps(processes[..]) == final.procs
      && (forall k :: 0 <= k < |final.result| ==> final.result[k] < processes.Length)
      && result == Pick(processes[..], final.result)
  {
    ghost var original := processes[..];
    ghost var sorted := SortBy(original, ArrivalOf);
    ghost var records := Snaps(sorted);
    assert records == SortBy(Snaps(original), RecordArrival) by {
      SnapsSort(original);
    }
    assert Distinct(sorted) && forall i :: 0 <= i < |sorted| ==> sorted[i] in original by {
      DistinctPerm(sorted, original);
      SameMembers(sorted, original);
    }
    SortByArrival(processes);
    assert processes[..] == sorted;
    assert Snaps(processes[..]) == records;
    result := RunOnArray(processes, coreCapacity);
  }

  /** A permutation has the same members, position by position. */
  lemma SameMembers<T>(s: seq<T>, t: seq<T>)
    requires multiset(s) == multiset(t)
    ensures forall i :: 0 <= i < |s| ==> s[i] in t
  {
    forall i | 0 <= i < |s| ensures s[i] in t {
      assert s[i] in multiset(s);
    }
  }

  /** Sorting the objects by arrival and taking their records commute. */
  lemma {:induction false} SnapsSort(ps: seq<Process>)
    ensures Snaps(SortBy(ps, ArrivalOf)) == SortBy(Snaps(ps), RecordArrival)
  {
    if ps != [] {
      SnapsSort(ps[1..]);
      assert Snaps(ps)[1..] == Snaps(ps[1..]);
      SnapsInsert(ps[0], SortBy(ps[1..], ArrivalOf));
    }
  }

  lemma {:induction false} SnapsInsert(x: Process, ps: seq<Process>)
    ensures Snaps(Insert(x, ps, ArrivalOf)) == Insert(x.Snap(), Snaps(ps), RecordArrival)
  {
    if ps != [] && x.arrivalTime > ps[0].arrivalTime {
      SnapsInsert(x, ps[1..]);
      assert Snaps(ps)[1..] == Snaps(ps[1..]);
      assert Snaps([ps[0]] + Insert(x, ps[1..], ArrivalOf)) == [ps[0].Snap()] + Snaps(Insert(x, ps[1..], ArrivalOf));
    } else if ps != [] {
      assert Snaps([x] + ps) == [x.Snap()] + Snaps(ps);
    } else {
      assert Snaps([x]) == [x.Snap()];
    }
  }
}
