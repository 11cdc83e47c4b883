/** The scheduling engine of main.py (sjf_scheduling) as a specification on
    values. The processes are an arena of records indexed by position in the
    arrival-sorted input; new_processes, pending_processes, ready_queue and
    result are lists of indices. One pass of the engine's while loop is Step:
    admission (Admit), readiness (PromoteArrived), the two flushes (FlushNew,
    FlushReady) and then the sort of the ready queue followed by an idle tick
    or the atomic run of the shortest job (Dispatch). Run repeats Step until
    every process has completed. */
module Scheduling {
  import opened Lists
  import opened StableSort
  import opened ProcessRecord

  datatype Sched = Sched(
    procs: seq<Record>,
    newProcs: seq<nat>,
    pendingProcs: seq<nat>,
    readyQueue: seq<nat>,
    result: seq<nat>,
    currentTime: int,
    completed: nat)

  /** Every index the engine keeps in one of its four lists. */
  function Queued(s: Sched): seq<nat> {
    s.newProcs + s.pendingProcs + s.readyQueue + s.result
  }

  /** Each process sits in exactly one of the four lists, and completed counts
      the result list. */
  predicate WellFormed(s: Sched) {
    multiset(Queued(s)) == multiset(Range(|s.procs|)) && |s.result| == s.completed
  }

  /** The state before the first pass: every process is new, the clock is 0. */
  function Start(procs: seq<Record>): Sched {
    Sched(procs, Range(|procs|), [], [], [], 0, 0)
  }

  // ---------------------------------------------------------------------------
  // Effects on single records

  /** The three ways the engine touches a record it does not run: a flush
      (update_state_time), a status change (change_status), and the readiness
      test of one pending process. */
  datatype Action = Flush | MoveTo(next: Status) | Arrive

  /** main.py:62-63: the pending counter is overwritten with the last delta,
      and change_status then adds that same delta again. */
  function Promoted(r: Record, currentTime: int): Record {
    var overwritten := r.timeInStates.Set(Pending, currentTime - r.lastStateChange);
    Transitioned(r.(timeInStates := overwritten), Ready, currentTime)
  }

  /** One turn of a bookkeeping loop on one record: main.py:71 and 75 flush,
      line 55 changes the status, lines 61-67 promote or flush. */
  function Perform(r: Record, act: Action, currentTime: int): Record {
    match act
    case Flush => Charged(r, currentTime)
    case MoveTo(next) => Transitioned(r, next, currentTime)
    case Arrive => if r.arrivalTime <= currentTime then Promoted(r, currentTime) else Charged(r, currentTime)
  }

  /** The records after act has been performed on each record listed in idx. */
  function ApplyAt(procs: seq<Record>, idx: seq<nat>, act: Action, currentTime: int): (r: seq<Record>)
    ensures |r| == |procs|
  {
    seq(|procs|, j requires 0 <= j < |procs| => if j in idx then Perform(procs[j], act, currentTime) else procs[j])
  }

  /** main.py:86-95: the chosen process runs from start for its whole burst. */
  function Executed(r: Record, start: int): Record {
    var running := Transitioned(r, Processing, start);
    var finish := start + r.burstTime;
    var turnaround := finish - r.arrivalTime;
    var timed := running.(completionTime := finish, turnaroundTime := turnaround, waitingTime := turnaround - r.burstTime);
    Transitioned(timed, Done, finish)
  }

  // ---------------------------------------------------------------------------
  // The phases of one pass

  /** How many new processes admission moves: as many as fit below the
      capacity, and zero when the pending list is already full. */
  function AdmitCount(newCount: nat, pendingCount: nat, coreCapacity: int): (k: nat)
    ensures k <= newCount
    ensures pendingCount < coreCapacity ==> pendingCount + k <= coreCapacity
    ensures k < newCount ==> pendingCount + k >= coreCapacity
    ensures pendingCount >= coreCapacity ==> k == 0
  {
    if pendingCount >= coreCapacity then 0
    else if newCount <= coreCapacity - pendingCount then newCount
    else coreCapacity - pendingCount
  }

  /** main.py:53-57: the first new processes move to pending while it has room. */
  function Admit(s: Sched, coreCapacity: int): Sched {
    var k := AdmitCount(|s.newProcs|, |s.pendingProcs|, coreCapacity);
    var moved := s.newProcs[..k];
    s.(procs := ApplyAt(s.procs, moved, MoveTo(Pending), s.currentTime),
       newProcs := s.newProcs[k..],
       pendingProcs := s.pendingProcs + moved)
  }

  predicate HasArrived(procs: seq<Record>, i: nat, currentTime: int) {
    i < |procs| && procs[i].arrivalTime <= currentTime
  }

  /** The members of q that have arrived (arrived = true) or not yet, in the order of q. */
  function Select(procs: seq<Record>, q: seq<nat>, currentTime: int, arrived: bool): (r: seq<nat>)
    ensures forall i: nat :: i in r <==> i in q && HasArrived(procs, i, currentTime) == arrived
  {
    if q == [] then []
    else
      var last := q[|q| - 1];
      assert q == q[..|q| - 1] + [last];
      Select(procs, q[..|q| - 1], currentTime, arrived)
        + (if HasArrived(procs, last, currentTime) == arrived then [last] else [])
  }

  /** main.py:60-67: arrived pending processes join the ready queue, the rest
      stay pending and have their time flushed. */
  function PromoteArrived(s: Sched): Sched {
    s.(procs := ApplyAt(s.procs, s.pendingProcs, Arrive, s.currentTime),
       readyQueue := s.readyQueue + Select(s.procs, s.pendingProcs, s.currentTime, true),
       pendingProcs := Select(s.procs, s.pendingProcs, s.currentTime, false))
  }

  /** main.py:70-71. */
  function FlushNew(s: Sched): Sched {
    s.(procs := ApplyAt(s.procs, s.newProcs, Flush, s.currentTime))
  }

  /** main.py:74-75. */
  function FlushReady(s: Sched): Sched {
    s.(procs := ApplyAt(s.procs, s.readyQueue, Flush, s.currentTime))
  }

  /** The bookkeeping part of a pass, main.py:53-75. */
  function Prepare(s: Sched, coreCapacity: int): Sched {
    FlushReady(FlushNew(PromoteArrived(Admit(s, coreCapacity))))
  }

  function Bursts(procs: seq<Record>): (b: seq<int>)
    ensures |b| == |procs|
  {
    seq(|procs|, i requires 0 <= i < |procs| => procs[i].burstTime)
  }

  /** The sort key of main.py:78, burst_time, looked up by index. */
  function BurstKey(bursts: seq<int>): nat -> int {
    (i: nat) => if i < |bursts| then bursts[i] else 0
  }

  /** The ready queue in the order main.py:78 sorts it. */
  function ReadyOrder(s: Sched): seq<nat> {
    SortBy<nat>(s.readyQueue, BurstKey(Bursts(s.procs)))
  }

  predicate ReadyInRange(s: Sched) {
    forall i :: i in s.readyQueue ==> i < |s.procs|
  }

  /** main.py:78-98: sort the ready queue by burst; idle one tick when it is
      empty, otherwise run its head to completion. */
  function Dispatch(s: Sched): Sched
    requires ReadyInRange(s)
  {
    var queue := ReadyOrder(s);
    if queue == [] then s.(readyQueue := queue, currentTime := s.currentTime + 1)
    else
      var h := queue[0];
      assert h in multiset(queue) && h in s.readyQueue;
      var finished := Executed(s.procs[h], s.currentTime);
      s.(procs := s.procs[h := finished],
         readyQueue := queue[1..],
         result := s.result + [h],
         completed := s.completed + 1,
         currentTime := s.currentTime + s.procs[h].burstTime)
  }

  /** One pass of the while loop of main.py:51-102. */
  function Step(s: Sched, coreCapacity: int): Sched
    requires WellFormed(s)
  {
    PrepareWellFormed(s, coreCapacity);
    Dispatch(Prepare(s, coreCapacity))
  }

  predicate Inv(s: Sched, coreCapacity: int) {
    WellFormed(s) && |s.pendingProcs| <= coreCapacity
  }

  /** The latest arrival time, or 0 for no processes (the clock starts at 0). */
  function MaxArrival(procs: seq<Record>): (m: int)
    ensures forall i :: 0 <= i < |procs| ==> procs[i].arrivalTime <= m
  {
    if procs == [] then 0
    else
      var rest := MaxArrival(procs[1..]);
      assert forall i :: 1 <= i < |procs| ==> procs[i] == procs[1..][i - 1];
      if procs[0].arrivalTime > rest then procs[0].arrivalTime else rest
  }

  /** The loop of main.py:51: passes until every process is done. */
  function Run(s: Sched, coreCapacity: int): (r: Sched)
    requires coreCapacity >= 1 && Inv(s, coreCapacity)
    ensures Inv(r, coreCapacity) && |r.procs| == |s.procs| && r.completed == |r.procs|
    decreases |s.procs| - s.completed, MaxArrival(s.procs) - s.currentTime
  {
    if s.completed == |s.procs| then s
    else
      StepProgress(s, coreCapacity);
      Run(Step(s, coreCapacity), coreCapacity)
  }

  /** sjf_scheduling on records already in arrival order. */
  function Schedule(procs: seq<Record>, coreCapacity: int): (r: Sched)
    requires coreCapacity >= 1
    ensures WellFormed(r) && |r.procs| == |procs| && r.completed == |procs|
    ensures r.newProcs == [] && r.pendingProcs == [] && r.readyQueue == []
    ensures forall i :: 0 <= i < |procs| <==> i in r.result
  {
    StartWellFormed(procs);
    var r := Run(Start(procs), coreCapacity);
    AllCompleted(r);
    r
  }

  // ---------------------------------------------------------------------------
  // Well-formedness and termination

  /** Before the first pass every index is listed once and pending is empty. */
  lemma StartWellFormed(procs: seq<Record>)
    ensures WellFormed(Start(procs)) && Start(procs).pendingProcs == []
  {
    assert Queued(Start(procs)) == Range(|procs|);
  }

  /** What WellFormed gives: the lists hold exactly the indices of the
      records, each once, and no index is in two lists. */
  lemma Partition(s: Sched)
    requires WellFormed(s)
    ensures forall i: nat :: i in Queued(s) <==> i < |s.procs|
    ensures Distinct(s.newProcs) && Distinct(s.pendingProcs) && Distinct(s.readyQueue) && Distinct(s.result)
    ensures forall i :: i in s.newProcs ==> i !in s.pendingProcs && i !in s.readyQueue && i !in s.result
    ensures forall i :: i in s.pendingProcs ==> i !in s.readyQueue && i !in s.result
    ensures forall i :: i in s.readyQueue ==> i !in s.result
  {
    var n := |s.procs|;
    var all: seq<nat> := Queued(s);
    assert multiset(all) == multiset(s.newProcs) + multiset(s.pendingProcs) + multiset(s.readyQueue) + multiset(s.result);
    forall x: nat ensures (multiset(all)[x] <= 1) {
      RangeDistinct(n);
      DistinctCount<nat>(Range(n), x);
    }
    forall i: nat ensures i in all <==> i < n {
      assert i in all <==> i in multiset(Range(n));
      if i < n {
        assert Range(n)[i] == i;
      }
    }
    forall x: nat ensures multiset(s.newProcs)[x] <= 1 && multiset(s.pendingProcs)[x] <= 1
                     && multiset(s.readyQueue)[x] <= 1 && multiset(s.result)[x] <= 1 {
      assert multiset(all)[x] <= 1;
    }
    CountDistinct<nat>(s.newProcs);
    CountDistinct<nat>(s.pendingProcs);
    CountDistinct<nat>(s.readyQueue);
    CountDistinct<nat>(s.result);
    forall i | i in s.newProcs ensures i !in s.pendingProcs && i !in s.readyQueue && i !in s.result {
      assert multiset(all)[i] <= 1;
    }
    forall i | i in s.pendingProcs ensures i !in s.readyQueue && i !in s.result {
      assert multiset(all)[i] <= 1;
    }
    forall i | i in s.readyQueue ensures i !in s.result {
      assert multiset(all)[i] <= 1;
    }
  }

  lemma {:induction false} SelectSplit(procs: seq<Record>, q: seq<nat>, currentTime: int)
    ensures multiset(Select(procs, q, currentTime, true)) + multiset(Select(procs, q, currentTime, false))
         == multiset(q)
  {
    if q != [] {
      var init := q[..|q| - 1];
      assert q == init + [q[|q| - 1]];
      SelectSplit(procs, init, currentTime);
    }
  }

  /** Select keeps the order of q: its result is a subsequence of q. */
  lemma {:induction false} SelectOrdered(procs: seq<Record>, q: seq<nat>, currentTime: int, arrived: bool)
    ensures Subsequence(Select(procs, q, currentTime, arrived), q)
  {
    var r := Select(procs, q, currentTime, arrived);
    if q != [] {
      var init := q[..|q| - 1];
      var last := q[|q| - 1];
      SelectOrdered(procs, init, currentTime, arrived);
      if HasArrived(procs, last, currentTime) == arrived {
        assert r == Select(procs, init, currentTime, arrived) + [last];
        assert r[..|r| - 1] == Select(procs, init, currentTime, arrived) && r[|r| - 1] == last;
      } else {
        assert r == Select(procs, init, currentTime, arrived);
      }
    }
  }

  /** Select filters in order: one more candidate at the end. */
  lemma SelectSnoc(procs: seq<Record>, q: seq<nat>, x: nat, t: int, arrived: bool)
    ensures Select(procs, q + [x], t, arrived)
         == Select(procs, q, t, arrived) + if HasArrived(procs, x, t) == arrived then [x] else []
  {
    assert (q + [x])[..|q|] == q;
  }

  lemma AdmitQueued(s: Sched, coreCapacity: int)
    ensures multiset(Queued(Admit(s, coreCapacity))) == multiset(Queued(s))
    ensures |Admit(s, coreCapacity).procs| == |s.procs|
  {
    var k := AdmitCount(|s.newProcs|, |s.pendingProcs|, coreCapacity);
    assert s.newProcs == s.newProcs[..k] + s.newProcs[k..];
  }

  lemma PromoteQueued(s: Sched)
    ensures multiset(Queued(PromoteArrived(s))) == multiset(Queued(s))
  {
    SelectSplit(s.procs, s.pendingProcs, s.currentTime);
  }

  /** The bookkeeping phases keep every index in exactly one list. */
  lemma AdmitWellFormed(s: Sched, coreCapacity: int)
    requires WellFormed(s)
    ensures WellFormed(Admit(s, coreCapacity))
  {
    AdmitQueued(s, coreCapacity);
  }

  lemma PromoteWellFormed(s: Sched)
    requires WellFormed(s)
    ensures WellFormed(PromoteArrived(s))
  {
    PromoteQueued(s);
  }

  lemma FlushWellFormed(s: Sched)
    requires WellFormed(s)
    ensures WellFormed(FlushNew(s)) && WellFormed(FlushReady(s))
  {
  }

  /** Admission moves indices from new to pending only. */
  lemma AdmitMoves(s: Sched, coreCapacity: int)
    ensures var a := Admit(s, coreCapacity);
      a.readyQueue == s.readyQueue && a.result == s.result
      && multiset(a.newProcs) + multiset(a.pendingProcs) == multiset(s.newProcs) + multiset(s.pendingProcs)
  {
    MovePrefix(s.newProcs, s.pendingProcs, AdmitCount(|s.newProcs|, |s.pendingProcs|, coreCapacity));
  }

  /** Readiness moves indices from pending to ready only. */
  lemma PromoteMoves(s: Sched)
    ensures var b := PromoteArrived(s);
      b.newProcs == s.newProcs && b.result == s.result
      && multiset(b.pendingProcs) + multiset(b.readyQueue) == multiset(s.pendingProcs) + multiset(s.readyQueue)
  {
    SelectSplit(s.procs, s.pendingProcs, s.currentTime);
  }

  /** The flushes change records only, and no list. */
  lemma FlushKeepsLists(s: Sched)
    ensures FlushNew(s).(procs := s.procs) == s && FlushReady(s).(procs := s.procs) == s
    ensures |FlushNew(s).procs| == |s.procs| && |FlushReady(s).procs| == |s.procs|
  {
  }

  /** Every listed index names a record. */
  lemma InRange(s: Sched)
    requires WellFormed(s)
    ensures forall i :: i in s.newProcs ==> i < |s.procs|
    ensures forall i :: i in s.pendingProcs ==> i < |s.procs|
    ensures ReadyInRange(s)
    ensures forall i :: i in s.result ==> i < |s.procs|
  {
    var all := Queued(s);
    forall i | i in all ensures i < |s.procs| {
      assert i in multiset(all);
      assert i in Range(|s.procs|);
    }
    assert forall i :: i in s.newProcs ==> i in all;
    assert forall i :: i in s.pendingProcs ==> i in all;
    assert forall i :: i in s.readyQueue ==> i in all;
    assert forall i :: i in s.result ==> i in all;
  }

  /** The bookkeeping phases only move indices between lists. */
  lemma PrepareWellFormed(s: Sched, coreCapacity: int)
    requires WellFormed(s)
    ensures WellFormed(Prepare(s, coreCapacity)) && ReadyInRange(Prepare(s, coreCapacity))
    ensures |Prepare(s, coreCapacity).procs| == |s.procs|
  {
    var a := Admit(s, coreCapacity);
    AdmitWellFormed(s, coreCapacity);
    var b := PromoteArrived(a);
    PromoteWellFormed(a);
    var c := FlushNew(b);
    FlushWellFormed(b);
    var d := FlushReady(c);
    FlushWellFormed(c);
    InRange(d);
  }

  /** The two outcomes of Dispatch, spelled out. */
  lemma DispatchCases(s: Sched)
    requires ReadyInRange(s)
    ensures var queue := ReadyOrder(s);
      multiset(queue) == multiset(s.readyQueue)
      && (queue == [] ==> s.readyQueue == [] && Dispatch(s) == s.(currentTime := s.currentTime + 1))
      && (queue != [] ==>
            queue[0] in s.readyQueue && queue[0] < |s.procs|
            && Dispatch(s) == s.(procs := s.procs[queue[0] := Executed(s.procs[queue[0]], s.currentTime)],
                                 readyQueue := queue[1..],
                                 result := s.result + [queue[0]],
                                 completed := s.completed + 1,
                                 currentTime := s.currentTime + s.procs[queue[0]].burstTime))
  {
    var queue := ReadyOrder(s);
    if queue != [] {
      assert queue[0] in multiset(queue);
    } else {
      assert |s.readyQueue| == 0;
    }
  }

  lemma DispatchWellFormed(s: Sched)
    requires WellFormed(s) && ReadyInRange(s)
    ensures WellFormed(Dispatch(s)) && |Dispatch(s).procs| == |s.procs|
    ensures Dispatch(s).pendingProcs == s.pendingProcs && Dispatch(s).newProcs == s.newProcs
  {
    DispatchCases(s);
    var queue := ReadyOrder(s);
    var d := Dispatch(s);
    if queue != [] {
      assert queue == [queue[0]] + queue[1..];
      assert Queued(d) == s.newProcs + s.pendingProcs + queue[1..] + (s.result + [queue[0]]);
      assert multiset(Queued(d)) == multiset(s.newProcs) + multiset(s.pendingProcs) + multiset(queue) + multiset(s.result);
    } else {
      assert Queued(d) == Queued(s);
    }
  }

  /** Two snapshots of the same processes, position by position. */
  predicate SameProcesses(p: seq<Record>, q: seq<Record>) {
    |p| == |q| && forall j :: 0 <= j < |p| ==> SameProcess(p[j], q[j])
  }

  lemma ApplyAtSame(procs: seq<Record>, idx: seq<nat>, act: Action, currentTime: int)
    ensures SameProcesses(ApplyAt(procs, idx, act, currentTime), procs)
  {
  }

  lemma DispatchSame(s: Sched)
    requires ReadyInRange(s)
    ensures SameProcesses(Dispatch(s).procs, s.procs)
  {
    DispatchCases(s);
  }

  /** Records keep their identity and arrival time through a pass. */
  lemma StepSame(s: Sched, coreCapacity: int)
    requires WellFormed(s)
    ensures SameProcesses(Step(s, coreCapacity).procs, s.procs)
  {
    PrepareWellFormed(s, coreCapacity);
    var a := Admit(s, coreCapacity);
    var b := PromoteArrived(a);
    var c := FlushNew(b);
    var d := FlushReady(c);
    ApplyAtSame(s.procs, s.newProcs[..AdmitCount(|s.newProcs|, |s.pendingProcs|, coreCapacity)], MoveTo(Pending), s.currentTime);
    ApplyAtSame(a.procs, a.pendingProcs, Arrive, a.currentTime);
    ApplyAtSame(b.procs, b.newProcs, Flush, b.currentTime);
    ApplyAtSame(c.procs, c.readyQueue, Flush, c.currentTime);
    DispatchSame(d);
  }

  lemma {:induction false} MaxArrivalSame(p: seq<Record>, q: seq<Record>)
    requires SameProcesses(p, q)
    ensures MaxArrival(p) == MaxArrival(q)
  {
    if p != [] {
      MaxArrivalSame(p[1..], q[1..]);
    }
  }

  /** Admission with capacity at least 1: if new processes remain, the
      pending list is full. */
  lemma AdmitFills(s: Sched, coreCapacity: int)
    requires |s.pendingProcs| <= coreCapacity
    ensures |Admit(s, coreCapacity).pendingProcs| <= coreCapacity
    ensures Admit(s, coreCapacity).newProcs != [] ==> |Admit(s, coreCapacity).pendingProcs| == coreCapacity
  {
  }

  /** A pass that finds the ready queue empty leaves a non-empty pending
      list, and every process in it has not arrived yet. */
  lemma IdleWaiting(s: Sched, coreCapacity: int)
    requires coreCapacity >= 1 && Inv(s, coreCapacity) && s.completed != |s.procs|
    requires Prepare(s, coreCapacity).readyQueue == []
    ensures Prepare(s, coreCapacity).pendingProcs != []
    ensures forall i :: i in Prepare(s, coreCapacity).pendingProcs ==>
      i < |s.procs| && s.procs[i].arrivalTime > s.currentTime
  {
    var a := Admit(s, coreCapacity);
    var arrived := Select(a.procs, a.pendingProcs, a.currentTime, true);
    var waiting := Select(a.procs, a.pendingProcs, a.currentTime, false);
    assert Prepare(s, coreCapacity).pendingProcs == waiting;
    assert a.readyQueue == [] && arrived == [] by {
      assert Prepare(s, coreCapacity).readyQueue == a.readyQueue + arrived;
    }
    assert a.pendingProcs != [] by {
      AdmitQueued(s, coreCapacity);
      AdmitFills(s, coreCapacity);
      assert |multiset(Queued(a))| == |multiset(Range(|s.procs|))|;
      assert |Queued(a)| == |s.procs|;
    }
    assert waiting != [] by {
      SelectSplit(a.procs, a.pendingProcs, a.currentTime);
      assert multiset(waiting) == multiset(a.pendingProcs);
    }
    AdmitWellFormed(s, coreCapacity);
    InRange(a);
    ApplyAtSame(s.procs, s.newProcs[..AdmitCount(|s.newProcs|, |s.pendingProcs|, coreCapacity)], MoveTo(Pending), s.currentTime);
    forall i | i in waiting ensures i < |s.procs| && s.procs[i].arrivalTime > s.currentTime {
      assert i in a.pendingProcs && !HasArrived(a.procs, i, a.currentTime);
      assert SameProcess(a.procs[i], s.procs[i]);
    }
  }

  /** A pass that finds the ready queue empty happens only while some process
      has not arrived yet. */
  lemma IdleWaits(s: Sched, coreCapacity: int)
    requires coreCapacity >= 1 && Inv(s, coreCapacity) && s.completed != |s.procs|
    requires Prepare(s, coreCapacity).readyQueue == []
    ensures s.currentTime < MaxArrival(s.procs)
  {
    IdleWaiting(s, coreCapacity);
    var i := Prepare(s, coreCapacity).pendingProcs[0];
    assert i in Prepare(s, coreCapacity).pendingProcs;
  }

  /** The pending list never grows beyond the capacity. */
  lemma PrepareWithinCapacity(s: Sched, coreCapacity: int)
    requires |s.pendingProcs| <= coreCapacity
    ensures |Prepare(s, coreCapacity).pendingProcs| <= coreCapacity
  {
    var a := Admit(s, coreCapacity);
    AdmitFills(s, coreCapacity);
    SelectSplit(a.procs, a.pendingProcs, a.currentTime);
    assert |Select(a.procs, a.pendingProcs, a.currentTime, false)| <= |a.pendingProcs| by {
      assert |multiset(Select(a.procs, a.pendingProcs, a.currentTime, false))| <= |multiset(a.pendingProcs)|;
    }
  }

  /** Each pass either completes one process, or idles one tick while some
      pending process has not arrived yet. */
  lemma StepProgress(s: Sched, coreCapacity: int)
    requires coreCapacity >= 1 && Inv(s, coreCapacity) && s.completed != |s.procs|
    ensures var t := Step(s, coreCapacity);
      Inv(t, coreCapacity) && |t.procs| == |s.procs| && MaxArrival(t.procs) == MaxArrival(s.procs)
      && (t.completed == s.completed + 1
          || (t.completed == s.completed && t.currentTime == s.currentTime + 1
              && s.currentTime < MaxArrival(s.procs)))
  {
    var p := Prepare(s, coreCapacity);
    PrepareWellFormed(s, coreCapacity);
    PrepareWithinCapacity(s, coreCapacity);
    DispatchWellFormed(p);
    DispatchCases(p);
    StepSame(s, coreCapacity);
    MaxArrivalSame(Step(s, coreCapacity).procs, s.procs);
    if ReadyOrder(p) == [] {
      IdleWaits(s, coreCapacity);
    }
  }

  /** Run before a pass is Run after it. */
  lemma RunUnfold(s: Sched, coreCapacity: int)
    requires coreCapacity >= 1 && Inv(s, coreCapacity) && s.completed != |s.procs|
    ensures Inv(Step(s, coreCapacity), coreCapacity)
      && Run(s, coreCapacity) == Run(Step(s, coreCapacity), coreCapacity)
  {
    StepProgress(s, coreCapacity);
  }

  /** When every process has completed, the other three lists are empty and
      the result list holds every index exactly once. */
  lemma AllCompleted(s: Sched)
    requires WellFormed(s) && s.completed == |s.procs|
    ensures s.newProcs == [] && s.pendingProcs == [] && s.readyQueue == []
    ensures multiset(s.result) == multiset(Range(|s.procs|))
    ensures forall i :: 0 <= i < |s.procs| <==> i in s.result
  {
    assert |Queued(s)| == |s.procs| by {
      assert |multiset(Queued(s))| == |multiset(Range(|s.procs|))|;
    }
    assert Queued(s) == s.result;
    InRange(s);
    forall i | 0 <= i < |s.procs| ensures i in s.result {
      assert Range(|s.procs|)[i] == i;
      assert i in multiset(Range(|s.procs|));
    }
  }
}
