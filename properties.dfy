/** What the scheduling specification guarantees: the effect of each phase of
    a pass on the records it touches, the invariant every pass keeps, and the
    properties of the final state that follow from it. */
module ScheduleProperties {
  import opened Lists
  import opened StableSort
  import opened ProcessRecord
  import opened Scheduling

  /** A completed record: done, with turnaround and waiting time derived from
      its completion time, and its clock stopped at completion. */
  predicate Finished(r: Record) {
    r.status == Done
    && r.turnaroundTime == r.completionTime - r.arrivalTime
    && r.waitingTime == r.turnaroundTime - r.burstTime
    && r.lastStateChange == r.completionTime
  }

  /** The status of a record matches the list that holds it. */
  predicate Tracked(s: Sched) {
    (forall i :: i in s.pendingProcs ==> i < |s.procs| && s.procs[i].status == Pending)
    && (forall i :: i in s.readyQueue ==> i < |s.procs| && s.procs[i].status == Ready)
    && (forall i :: i in s.result ==> i < |s.procs| && Finished(s.procs[i]))
  }

  predicate AllNew(procs: seq<Record>) {
    forall i :: 0 <= i < |procs| ==> procs[i].status == New
  }

  /** New processes are still new, and the processing counter has grown by
      exactly the burst of each completed process and not at all otherwise. */
  predicate Counted(s: Sched, init: seq<Record>) {
    (forall i :: i in s.newProcs ==> i < |s.procs| && s.procs[i].status == New)
    && forall i :: 0 <= i < |s.procs| && i < |init| ==>
         s.procs[i].timeInStates.Get(Processing)
         == init[i].timeInStates.Get(Processing) + (if i in s.result then s.procs[i].burstTime else 0)
  }

  predicate NonNegativeBursts(procs: seq<Record>) {
    forall i :: 0 <= i < |procs| ==> procs[i].burstTime >= 0
  }

  predicate PositiveBursts(procs: seq<Record>) {
    forall i :: 0 <= i < |procs| ==> procs[i].burstTime > 0
  }

  /** Ready processes have arrived; completed ones waited a non-negative time
      and completed no later than now. */
  predicate Timely(s: Sched) {
    (forall i :: i in s.readyQueue ==> i < |s.procs| && s.procs[i].arrivalTime <= s.currentTime)
    && (forall i :: i in s.result ==>
          i < |s.procs| && s.procs[i].waitingTime >= 0 && s.procs[i].completionTime <= s.currentTime)
  }

  /** Completion times strictly increase along the result list, and none lies
      in the future. */
  predicate Ordered(s: Sched) {
    (forall a, b :: 0 <= a < b < |s.result| && s.result[a] < |s.procs| && s.result[b] < |s.procs| ==>
       s.procs[s.result[a]].completionTime < s.procs[s.result[b]].completionTime)
    && (forall i :: i in s.result ==> i < |s.procs| && s.procs[i].completionTime <= s.currentTime)
  }

  /** The invariant of the engine's loop, relative to the records it started from. */
  predicate Good(s: Sched, init: seq<Record>) {
    WellFormed(s) && SameProcesses(s.procs, init) && Tracked(s)
    && (AllNew(init) ==> Counted(s, init))
    && (NonNegativeBursts(init) ==> Timely(s))
    && (PositiveBursts(init) ==> Ordered(s))
  }

  // ---------------------------------------------------------------------------
  // Effects of the phases on single records

  /** main.py:62-63 on a pending record: the pending counter ends at twice the
      last delta, the process is ready, and nothing else changes. */
  lemma PromotedEffect(r: Record, currentTime: int)
    requires r.status == Pending
    ensures var q := Promoted(r, currentTime);
      q.timeInStates.Get(Pending) == 2 * (currentTime - r.lastStateChange)
      && (forall st :: st != Pending ==> q.timeInStates.Get(st) == r.timeInStates.Get(st))
      && q.status == Ready && q.lastStateChange == currentTime
      && q == r.(timeInStates := q.timeInStates, status := Ready, lastStateChange := currentTime)
  {
  }

  /** Because of the overwrite, promotion keeps the accounting rule exactly
      when the pending counter already equalled the last delta, which is
      false in general: time spent pending before the last flush is lost and
      the last delta is counted twice. */
  lemma PromotedAccounted(r: Record, currentTime: int)
    requires r.status == Pending && Accounted(r)
    ensures Accounted(Promoted(r, currentTime))
        <==> r.timeInStates.Get(Pending) == currentTime - r.lastStateChange
  {
    var q := Promoted(r, currentTime);
    var over := r.timeInStates.Set(Pending, currentTime - r.lastStateChange);
    SetSum(r.timeInStates, Pending, currentTime - r.lastStateChange);
    SetSum(over, Pending, 2 * (currentTime - r.lastStateChange));
  }

  /** A concrete record for which promotion breaks the accounting rule: new
      at 0, admitted at 0, flushed at 2 while pending, promoted at 3. */
  lemma PromotionMiscounts()
    ensures var r := Transitioned(Initial(1, 3, 1, 0), Pending, 0);
      var flushed := Charged(r, 2);
      Accounted(flushed) && !Accounted(Promoted(flushed, 3))
      && Promoted(flushed, 3).timeInStates.Sum() == 2
  {
    var r := Transitioned(Initial(1, 3, 1, 0), Pending, 0);
    var flushed := Charged(r, 2);
    assert flushed.timeInStates == TimeInStates(0, 2, 0, 0, 0);
    assert Promoted(flushed, 3).timeInStates == TimeInStates(0, 2, 0, 0, 0);
  }

  /** main.py:86-95 on a ready record: it completes burstTime ticks after it
      starts, turnaround and waiting time follow from that, the processing
      counter grows by the burst, and the time since the last flush is
      charged to ready. */
  lemma ExecutedEffect(r: Record, start: int)
    requires r.status == Ready
    ensures var q := Executed(r, start);
      q.completionTime == start + r.burstTime
      && q.turnaroundTime == q.completionTime - r.arrivalTime
      && q.waitingTime == q.turnaroundTime - r.burstTime
      && q.waitingTime == start - r.arrivalTime
      && q.timeInStates.Get(Processing) == r.timeInStates.Get(Processing) + r.burstTime
      && q.timeInStates.Get(Ready) == r.timeInStates.Get(Ready) + (start - r.lastStateChange)
      && q.timeInStates.Get(New) == r.timeInStates.Get(New)
      && q.timeInStates.Get(Pending) == r.timeInStates.Get(Pending)
      && q.timeInStates.Get(Done) == r.timeInStates.Get(Done)
      && Finished(q) && SameProcess(q, r)
  {
  }

  /** Executing keeps the accounting rule. */
  lemma ExecutedAccounted(r: Record, start: int)
    requires Accounted(r)
    ensures Accounted(Executed(r, start))
  {
    var running := Transitioned(r, Processing, start);
    TransitionedEffect(r, Processing, start);
    var finish := start + r.burstTime;
    var turnaround := finish - r.arrivalTime;
    var timed := running.(completionTime := finish, turnaroundTime := turnaround, waitingTime := turnaround - r.burstTime);
    assert Accounted(timed);
    TransitionedEffect(timed, Done, finish);
  }

  // ---------------------------------------------------------------------------
  // What each phase does

  /** Admission (main.py:53-57): starting within capacity, the pending list
      fills up to the capacity with the first new processes, in order, which
      become pending; the remaining new processes stay new and untouched. */
  lemma AdmitEffect(s: Sched, coreCapacity: int)
    requires |s.pendingProcs| <= coreCapacity
    ensures var a := Admit(s, coreCapacity);
      var p := |s.pendingProcs|;
      |a.pendingProcs| == (if p + |s.newProcs| <= coreCapacity then p + |s.newProcs| else coreCapacity)
      && a.pendingProcs[..p] == s.pendingProcs
      && a.pendingProcs[p..] + a.newProcs == s.newProcs
      && a.readyQueue == s.readyQueue && a.result == s.result && a.currentTime == s.currentTime
      && forall i :: 0 <= i < |s.procs| ==>
           a.procs[i] == if i in a.pendingProcs[p..] then Transitioned(s.procs[i], Pending, s.currentTime)
                         else s.procs[i]
  {
    var a := Admit(s, coreCapacity);
    var k := AdmitCount(|s.newProcs|, |s.pendingProcs|, coreCapacity);
    assert a.pendingProcs[|s.pendingProcs|..] == s.newProcs[..k];
    assert s.newProcs == s.newProcs[..k] + s.newProcs[k..];
    AdmitRecords(s, coreCapacity);
  }

  /** Readiness (main.py:60-67): exactly the pending processes that have
      arrived join the ready queue, after the processes already there and in
      their pending order; the others stay pending, in the same order. Each
      promoted record ends ready with its pending counter at twice the last
      delta; each one left pending is flushed. */
  lemma PromoteEffect(s: Sched)
    requires WellFormed(s)
    ensures var b := PromoteArrived(s);
      var t := s.currentTime;
      b.readyQueue[..|s.readyQueue|] == s.readyQueue
      && (forall i :: i in b.readyQueue[|s.readyQueue|..] ==> i in s.pendingProcs)
      && (forall i :: i in b.pendingProcs ==> i in s.pendingProcs)
      && Subsequence(b.readyQueue[|s.readyQueue|..], s.pendingProcs)
      && Subsequence(b.pendingProcs, s.pendingProcs)
      && (forall i :: i in s.pendingProcs ==>
            i < |s.procs|
            && (i in b.readyQueue <==> s.procs[i].arrivalTime <= t)
            && (i in b.pendingProcs <==> t < s.procs[i].arrivalTime))
      && (forall i :: i in s.pendingProcs && s.procs[i].status == Pending && s.procs[i].arrivalTime <= t ==>
            b.procs[i].status == Ready
            && b.procs[i].timeInStates.Get(Pending) == 2 * (t - s.procs[i].lastStateChange))
      && (forall i :: i in s.pendingProcs && t < s.procs[i].arrivalTime ==> b.procs[i] == Charged(s.procs[i], t))
      && b.newProcs == s.newProcs && b.result == s.result && b.currentTime == t
  {
    var b := PromoteArrived(s);
    var t := s.currentTime;
    Partition(s);
    InRange(s);
    PromoteRecords(s);
    var arrived := Select(s.procs, s.pendingProcs, t, true);
    assert b.readyQueue[|s.readyQueue|..] == arrived;
    SelectOrdered(s.procs, s.pendingProcs, t, true);
    SelectOrdered(s.procs, s.pendingProcs, t, false);
    forall i | i in s.pendingProcs && s.procs[i].status == Pending && s.procs[i].arrivalTime <= t
      ensures b.procs[i].status == Ready
      ensures b.procs[i].timeInStates.Get(Pending) == 2 * (t - s.procs[i].lastStateChange)
    {
      PromotedEffect(s.procs[i], t);
    }
  }

  /** Selection and execution (main.py:78-98): with an empty ready queue
      the pass only advances the clock by one. Otherwise the process run is
      the first one of minimal burst in queue order; it completes burstTime
      ticks later, joins the result, and leaves the ready queue, which keeps
      all the others. */
  lemma DispatchChoosesShortest(s: Sched)
    requires ReadyInRange(s)
    ensures s.readyQueue == [] ==> Dispatch(s) == s.(currentTime := s.currentTime + 1)
    ensures s.readyQueue != [] ==>
      var m := FirstMinimum(s.readyQueue, BurstKey(Bursts(s.procs)));
      var h: nat := s.readyQueue[m];
      var d := Dispatch(s);
      h < |s.procs|
      && (forall i :: i in s.readyQueue ==> s.procs[h].burstTime <= s.procs[i].burstTime)
      && (forall j :: 0 <= j < m ==>
            s.readyQueue[j] in s.readyQueue && s.procs[h].burstTime < s.procs[s.readyQueue[j]].burstTime)
      && d.procs == s.procs[h := Executed(s.procs[h], s.currentTime)]
      && d.result == s.result + [h]
      && d.completed == s.completed + 1
      && d.currentTime == s.currentTime + s.procs[h].burstTime
      && multiset(d.readyQueue) == multiset(s.readyQueue) - multiset{h}
      && d.newProcs == s.newProcs && d.pendingProcs == s.pendingProcs
  {
    DispatchCases(s);
    var queue := ReadyOrder(s);
    if s.readyQueue != [] {
      var key := BurstKey(Bursts(s.procs));
      var m := FirstMinimum(s.readyQueue, key);
      SortByHead(s.readyQueue, key);
      var h := s.readyQueue[m];
      assert queue == [h] + queue[1..];
      forall i | i in s.readyQueue ensures s.procs[h].burstTime <= s.procs[i].burstTime {
        var j :| 0 <= j < |s.readyQueue| && s.readyQueue[j] == i;
        assert key(s.readyQueue[m]) <= key(s.readyQueue[j]);
      }
      forall j | 0 <= j < m
        ensures s.readyQueue[j] in s.readyQueue && s.procs[h].burstTime < s.procs[s.readyQueue[j]].burstTime
      {
        assert s.readyQueue[j] in s.readyQueue;
        assert key(s.readyQueue[m]) < key(s.readyQueue[j]);
      }
    }
  }

  /** Stability of the ready-queue sort: among processes of equal burst the
      sorted queue keeps the order they had. */
  lemma ReadyOrderStable(s: Sched, burst: int)
    ensures var key := BurstKey(Bursts(s.procs));
      WithKey(ReadyOrder(s), key, burst) == WithKey(s.readyQueue, key, burst)
      && SortedBy(ReadyOrder(s), key)
  {
    SortByStable(s.readyQueue, BurstKey(Bursts(s.procs)), burst);
    SortBySorted(s.readyQueue, BurstKey(Bursts(s.procs)));
  }

  // ---------------------------------------------------------------------------
  // Each phase keeps the invariant

  lemma SameProcessesTrans(p: seq<Record>, q: seq<Record>, r: seq<Record>)
    requires SameProcesses(p, q) && SameProcesses(q, r)
    ensures SameProcesses(p, r)
  {
  }

  lemma BurstsTransfer(s: Sched, init: seq<Record>)
    requires SameProcesses(s.procs, init)
    ensures NonNegativeBursts(init) ==> NonNegativeBursts(s.procs)
    ensures PositiveBursts(init) ==> PositiveBursts(s.procs)
  {
  }

  // Admission

  lemma AdmitRecords(s: Sched, coreCapacity: int)
    ensures var k := AdmitCount(|s.newProcs|, |s.pendingProcs|, coreCapacity);
      forall i :: 0 <= i < |s.procs| ==>
        Admit(s, coreCapacity).procs[i]
        == if i in s.newProcs[..k] then Transitioned(s.procs[i], Pending, s.currentTime) else s.procs[i]
  {
  }

  lemma AdmitGood(s: Sched, init: seq<Record>, coreCapacity: int)
    requires Good(s, init)
    ensures Good(Admit(s, coreCapacity), init)
  {
    var k := AdmitCount(|s.newProcs|, |s.pendingProcs|, coreCapacity);
    AdmitWellFormed(s, coreCapacity);
    ApplyAtSame(s.procs, s.newProcs[..k], MoveTo(Pending), s.currentTime);
    SameProcessesTrans(Admit(s, coreCapacity).procs, s.procs, init);
    AdmitTracked(s, coreCapacity);
    if AllNew(init) {
      AdmitCounted(s, init, coreCapacity);
    }
    AdmitUntouched(s, coreCapacity);
  }

  /** Admission leaves the ready and completed processes and the clock alone. */
  lemma AdmitUntouched(s: Sched, coreCapacity: int)
    requires WellFormed(s)
    ensures Timely(s) ==> Timely(Admit(s, coreCapacity))
    ensures Ordered(s) ==> Ordered(Admit(s, coreCapacity))
  {
    var k := AdmitCount(|s.newProcs|, |s.pendingProcs|, coreCapacity);
    var moved := s.newProcs[..k];
    Partition(s);
    InRange(s);
    AdmitRecords(s, coreCapacity);
    assert forall i :: i in moved ==> i in s.newProcs;
  }

  lemma AdmitTracked(s: Sched, coreCapacity: int)
    requires WellFormed(s) && Tracked(s)
    ensures Tracked(Admit(s, coreCapacity))
  {
    var a := Admit(s, coreCapacity);
    var k := AdmitCount(|s.newProcs|, |s.pendingProcs|, coreCapacity);
    var moved := s.newProcs[..k];
    Partition(s);
    InRange(s);
    AdmitRecords(s, coreCapacity);
    assert forall i :: i in moved ==> i in s.newProcs;
    assert forall i :: i in a.pendingProcs ==> i in s.pendingProcs || i in moved;
  }

  lemma AdmitCounted(s: Sched, init: seq<Record>, coreCapacity: int)
    requires WellFormed(s) && Counted(s, init)
    ensures Counted(Admit(s, coreCapacity), init)
  {
    var a := Admit(s, coreCapacity);
    var k := AdmitCount(|s.newProcs|, |s.pendingProcs|, coreCapacity);
    var moved := s.newProcs[..k];
    Partition(s);
    InRange(s);
    AdmitRecords(s, coreCapacity);
    SplitApart(s.newProcs, k);
    assert forall i :: i in moved ==> i in s.newProcs;
    forall i | i in moved
      ensures a.procs[i].timeInStates.Get(Processing) == s.procs[i].timeInStates.Get(Processing)
    {
      TransitionedEffect(s.procs[i], Pending, s.currentTime);
    }
  }

  // Readiness

  lemma PromoteRecords(s: Sched)
    ensures forall i :: 0 <= i < |s.procs| ==>
      PromoteArrived(s).procs[i]
      == if i in s.pendingProcs then Perform(s.procs[i], Arrive, s.currentTime) else s.procs[i]
  {
  }

  lemma PromoteGood(s: Sched, init: seq<Record>)
    requires Good(s, init)
    ensures Good(PromoteArrived(s), init)
  {
    var b := PromoteArrived(s);
    PromoteWellFormed(s);
    ApplyAtSame(s.procs, s.pendingProcs, Arrive, s.currentTime);
    SameProcessesTrans(b.procs, s.procs, init);
    PromoteTracked(s);
    if AllNew(init) {
      PromoteCounted(s, init);
    }
    if NonNegativeBursts(init) {
      PromoteTimely(s);
    }
    if PositiveBursts(init) {
      PromoteOrdered(s);
    }
  }

  lemma PromoteTracked(s: Sched)
    requires WellFormed(s) && Tracked(s)
    ensures Tracked(PromoteArrived(s))
  {
    var b := PromoteArrived(s);
    var t := s.currentTime;
    var arrived := Select(s.procs, s.pendingProcs, t, true);
    Partition(s);
    InRange(s);
    PromoteRecords(s);
    forall i | i in s.pendingProcs
      ensures i in arrived ==> b.procs[i].status == Ready
      ensures i !in arrived ==> b.procs[i].status == Pending
    {
      if s.procs[i].arrivalTime <= t {
        PromotedEffect(s.procs[i], t);
      }
    }
  }

  lemma PromoteCounted(s: Sched, init: seq<Record>)
    requires WellFormed(s) && Tracked(s) && Counted(s, init)
    ensures Counted(PromoteArrived(s), init)
  {
    var b := PromoteArrived(s);
    var t := s.currentTime;
    Partition(s);
    InRange(s);
    PromoteRecords(s);
    forall i | i in s.pendingProcs
      ensures b.procs[i].timeInStates.Get(Processing) == s.procs[i].timeInStates.Get(Processing)
    {
      if s.procs[i].arrivalTime <= t {
        PromotedEffect(s.procs[i], t);
      } else {
        ChargedEffect(s.procs[i], t);
      }
    }
  }

  lemma PromoteTimely(s: Sched)
    requires WellFormed(s) && Timely(s)
    ensures Timely(PromoteArrived(s))
  {
    var b := PromoteArrived(s);
    Partition(s);
    InRange(s);
    PromoteRecords(s);
    ApplyAtSame(s.procs, s.pendingProcs, Arrive, s.currentTime);
  }

  lemma PromoteOrdered(s: Sched)
    requires WellFormed(s) && Ordered(s)
    ensures Ordered(PromoteArrived(s))
  {
    Partition(s);
    InRange(s);
    PromoteRecords(s);
  }

  // Flushes

  lemma FlushRecords(s: Sched, idx: seq<nat>)
    ensures forall i :: 0 <= i < |s.procs| ==>
      ApplyAt(s.procs, idx, Flush, s.currentTime)[i]
      == if i in idx then Charged(s.procs[i], s.currentTime) else s.procs[i]
  {
  }

  lemma FlushGood(s: Sched, init: seq<Record>, idx: seq<nat>)
    requires Good(s, init)
    requires idx == s.newProcs || idx == s.readyQueue
    ensures Good(s.(procs := ApplyAt(s.procs, idx, Flush, s.currentTime)), init)
  {
    var c := s.(procs := ApplyAt(s.procs, idx, Flush, s.currentTime));
    assert WellFormed(c);
    ApplyAtSame(s.procs, idx, Flush, s.currentTime);
    SameProcessesTrans(c.procs, s.procs, init);
    FlushTracked(s, idx);
    if AllNew(init) {
      FlushCounted(s, init, idx);
    }
  }

  lemma FlushTracked(s: Sched, idx: seq<nat>)
    requires WellFormed(s) && (idx == s.newProcs || idx == s.readyQueue)
    ensures var c := s.(procs := ApplyAt(s.procs, idx, Flush, s.currentTime));
      (Tracked(s) ==> Tracked(c)) && (Timely(s) ==> Timely(c)) && (Ordered(s) ==> Ordered(c))
  {
    Partition(s);
    InRange(s);
    FlushRecords(s, idx);
  }

  lemma FlushCounted(s: Sched, init: seq<Record>, idx: seq<nat>)
    requires WellFormed(s) && Tracked(s) && Counted(s, init)
    requires idx == s.newProcs || idx == s.readyQueue
    ensures Counted(s.(procs := ApplyAt(s.procs, idx, Flush, s.currentTime)), init)
  {
    var c := s.(procs := ApplyAt(s.procs, idx, Flush, s.currentTime));
    Partition(s);
    InRange(s);
    FlushRecords(s, idx);
    forall i | i in idx
      ensures c.procs[i].status == s.procs[i].status
      ensures c.procs[i].timeInStates.Get(Processing) == s.procs[i].timeInStates.Get(Processing)
    {
      ChargedEffect(s.procs[i], s.currentTime);
    }
  }

  // Dispatch

  lemma DispatchQueue(s: Sched)
    requires WellFormed(s)
    ensures ReadyInRange(s)
    ensures var queue := ReadyOrder(s);
      queue != [] ==> forall i :: i in queue[1..] ==> i in s.readyQueue && i != queue[0]
  {
    InRange(s);
    Partition(s);
    var queue := ReadyOrder(s);
    if queue != [] {
      DistinctPerm(queue, s.readyQueue);
      assert queue == [queue[0]] + queue[1..];
      forall i | i in queue[1..] ensures i in s.readyQueue && i != queue[0] {
        assert i in multiset(queue);
        assert queue[0] !in queue[1..];
      }
    }
  }

  lemma DispatchGood(s: Sched, init: seq<Record>)
    requires Good(s, init)
    ensures ReadyInRange(s) && Good(Dispatch(s), init)
  {
    InRange(s);
    DispatchWellFormed(s);
    DispatchSame(s);
    SameProcessesTrans(Dispatch(s).procs, s.procs, init);
    BurstsTransfer(s, init);
    DispatchTracked(s);
    if AllNew(init) {
      DispatchCounted(s, init);
    }
    if NonNegativeBursts(init) {
      DispatchTimely(s);
    }
    if PositiveBursts(init) {
      DispatchOrdered(s);
    }
  }

  lemma DispatchTracked(s: Sched)
    requires WellFormed(s) && Tracked(s)
    ensures ReadyInRange(s) && Tracked(Dispatch(s))
  {
    InRange(s);
    Partition(s);
    DispatchCases(s);
    DispatchQueue(s);
    var queue := ReadyOrder(s);
    if queue != [] {
      ExecutedEffect(s.procs[queue[0]], s.currentTime);
    }
  }

  lemma DispatchCounted(s: Sched, init: seq<Record>)
    requires WellFormed(s) && Tracked(s) && Counted(s, init)
    ensures ReadyInRange(s) && Counted(Dispatch(s), init)
  {
    InRange(s);
    Partition(s);
    DispatchCases(s);
    var queue := ReadyOrder(s);
    if queue != [] {
      var h := queue[0];
      ExecutedEffect(s.procs[h], s.currentTime);
      assert h !in s.result && h !in s.newProcs;
    }
  }

  lemma DispatchTimely(s: Sched)
    requires WellFormed(s) && Tracked(s) && Timely(s) && NonNegativeBursts(s.procs)
    ensures ReadyInRange(s) && Timely(Dispatch(s))
  {
    InRange(s);
    Partition(s);
    DispatchCases(s);
    DispatchQueue(s);
    var queue := ReadyOrder(s);
    if queue != [] {
      var h := queue[0];
      ExecutedEffect(s.procs[h], s.currentTime);
      assert h !in s.result;
    }
  }

  lemma DispatchOrdered(s: Sched)
    requires WellFormed(s) && Tracked(s) && Ordered(s) && PositiveBursts(s.procs)
    ensures ReadyInRange(s) && Ordered(Dispatch(s))
  {
    InRange(s);
    Partition(s);
    DispatchCases(s);
    var queue := ReadyOrder(s);
    if queue != [] {
      var h := queue[0];
      var d := Dispatch(s);
      ExecutedEffect(s.procs[h], s.currentTime);
      assert h !in s.result;
      forall a, b | 0 <= a < b < |d.result| && d.result[a] < |d.procs| && d.result[b] < |d.procs|
        ensures d.procs[d.result[a]].completionTime < d.procs[d.result[b]].completionTime
      {
        assert d.result[a] == s.result[a];
        assert s.result[a] in s.result;
        if b < |s.result| {
          assert d.result[b] == s.result[b];
        }
      }
    }
  }

  // ---------------------------------------------------------------------------
  // The whole run

  lemma StartGood(init: seq<Record>)
    ensures Good(Start(init), init)
  {
    StartWellFormed(init);
  }

  /** One pass of the engine keeps the invariant. */
  lemma StepGood(s: Sched, init: seq<Record>, coreCapacity: int)
    requires Good(s, init)
    ensures Good(Step(s, coreCapacity), init)
  {
    var a := Admit(s, coreCapacity);
    AdmitGood(s, init, coreCapacity);
    var b := PromoteArrived(a);
    PromoteGood(a, init);
    var c := FlushNew(b);
    FlushGood(b, init, b.newProcs);
    var d := FlushReady(c);
    FlushGood(c, init, c.readyQueue);
    assert d == Prepare(s, coreCapacity);
    DispatchGood(d, init);
  }

  lemma RunGood(s: Sched, init: seq<Record>, coreCapacity: int)
    requires coreCapacity >= 1 && Inv(s, coreCapacity) && Good(s, init)
    ensures Good(Run(s, coreCapacity), init)
    decreases |s.procs| - s.completed, MaxArrival(s.procs) - s.currentTime
  {
    if s.completed != |s.procs| {
      StepProgress(s, coreCapacity);
      StepGood(s, init, coreCapacity);
      RunGood(Step(s, coreCapacity), init, coreCapacity);
    }
  }

  lemma ScheduleGood(init: seq<Record>, coreCapacity: int)
    requires coreCapacity >= 1
    ensures Good(Schedule(init, coreCapacity), init)
  {
    StartGood(init);
    StartWellFormed(init);
    RunGood(Start(init), init, coreCapacity);
  }

  /** What sjf_scheduling guarantees once it returns: the result lists every
      process exactly once, each is done with its turnaround time equal to
      completion minus arrival and its waiting time equal to turnaround minus
      burst, and no record changed identity, arrival or burst. */
  lemma ScheduleCompletes(init: seq<Record>, coreCapacity: int)
    requires coreCapacity >= 1
    ensures var r := Schedule(init, coreCapacity);
      SameProcesses(r.procs, init)
      && |r.result| == |init| && Distinct(r.result)
      && multiset(r.result) == multiset(Range(|init|))
      && r.newProcs == [] && r.pendingProcs == [] && r.readyQueue == []
      && forall i :: 0 <= i < |init| ==> Finished(r.procs[i])
  {
    var r := Schedule(init, coreCapacity);
    ScheduleGood(init, coreCapacity);
    AllCompleted(r);
    RangeDistinct(|init|);
    DistinctPerm(r.result, Range(|init|));
  }

  /** Each completed process spent exactly its burst in the processing state,
      when every input process was new. */
  lemma ScheduleCharges(init: seq<Record>, coreCapacity: int)
    requires coreCapacity >= 1 && AllNew(init)
    ensures var r := Schedule(init, coreCapacity);
      forall i :: 0 <= i < |init| ==>
        r.procs[i].timeInStates.Get(Processing) == init[i].timeInStates.Get(Processing) + init[i].burstTime
  {
    var r := Schedule(init, coreCapacity);
    ScheduleGood(init, coreCapacity);
    AllCompleted(r);
  }

  /** With non-negative bursts no process waits a negative time, and none
      completes after the final clock. */
  lemma ScheduleWaits(init: seq<Record>, coreCapacity: int)
    requires coreCapacity >= 1 && NonNegativeBursts(init)
    ensures var r := Schedule(init, coreCapacity);
      forall i :: 0 <= i < |init| ==>
        r.procs[i].waitingTime >= 0 && r.procs[i].completionTime <= r.currentTime
  {
    var r := Schedule(init, coreCapacity);
    ScheduleGood(init, coreCapacity);
    AllCompleted(r);
  }

  /** The bookkeeping of the first pass on a lone process arriving at 0
      moves it straight to the ready queue. */
  lemma SinglePrepared(r: Record, coreCapacity: int)
    requires coreCapacity >= 1 && r.arrivalTime == 0
    ensures var p := Prepare(Start([r]), coreCapacity);
      |p.procs| == 1 && p.readyQueue == [0] && p.result == [] && p.completed == 0 && p.currentTime == 0
  {
    var s := Start([r]);
    var a := Admit(s, coreCapacity);
    assert AdmitCount(1, 0, coreCapacity) == 1;
    assert a.newProcs == [] && a.pendingProcs == [0];
    assert a.procs[0].arrivalTime == 0;
    assert Select(a.procs, [0], 0, true) == [0] by {
      SelectSnoc(a.procs, [], 0, 0, true);
      assert [] + [0] == [0];
    }
  }

  /** With that process alone in the ready queue, dispatch runs it from time 0. */
  lemma SingleDispatch(p: Sched)
    requires ReadyInRange(p) && |p.procs| == 1 && p.readyQueue == [0]
    requires p.result == [] && p.completed == 0 && p.currentTime == 0
    ensures var d := Dispatch(p);
      d.procs == [Executed(p.procs[0], 0)] && d.result == [0] && d.completed == 1
      && d.currentTime == p.procs[0].burstTime
  {
    assert ReadyOrder(p) == [0] by {
      SortByOrdered<nat>([0], BurstKey(Bursts(p.procs)));
    }
  }

  /** The first pass on that process runs it from time 0. */
  lemma SingleStep(r: Record, coreCapacity: int)
    requires coreCapacity >= 1 && r.arrivalTime == 0
    ensures WellFormed(Start([r])) && var d := Step(Start([r]), coreCapacity);
      |d.procs| == 1 && d.result == [0] && d.completed == 1 && d.currentTime == r.burstTime
      && d.procs[0].status == Done && d.procs[0].completionTime == r.burstTime && d.procs[0].waitingTime == 0
  {
    var s := Start([r]);
    StartWellFormed([r]);
    var p := Prepare(s, coreCapacity);
    SinglePrepared(r, coreCapacity);
    PrepareWellFormed(s, coreCapacity);
    SingleDispatch(p);
    StepSame(s, coreCapacity);
    var d := Step(s, coreCapacity);
    assert SameProcess(d.procs[0], r);
  }

  /** A lone process arriving at 0 is admitted, promoted and run in the
      first pass: it completes after its burst, having waited 0. */
  lemma ScheduleSingle(r: Record, coreCapacity: int)
    requires coreCapacity >= 1 && r.arrivalTime == 0
    ensures var f := Schedule([r], coreCapacity);
      f.result == [0] && f.currentTime == r.burstTime && f.procs[0].status == Done
      && f.procs[0].completionTime == r.burstTime && f.procs[0].waitingTime == 0
  {
    var s := Start([r]);
    StartWellFormed([r]);
    SingleStep(r, coreCapacity);
    RunUnfold(s, coreCapacity);
    assert Schedule([r], coreCapacity) == Run(s, coreCapacity) == Step(s, coreCapacity);
  }

  /** With positive bursts the result is in strictly increasing order of
      completion time: one core runs one job at a time. */
  lemma OrderedResult(r: Sched)
    requires WellFormed(r) && Ordered(r)
    ensures forall a :: 0 <= a < |r.result| ==> r.result[a] < |r.procs|
    ensures forall a, b :: 0 <= a < b < |r.result| ==>
      r.procs[r.result[a]].completionTime < r.procs[r.result[b]].completionTime
  {
    InRange(r);
    assert forall a :: 0 <= a < |r.result| ==> r.result[a] in r.result;
  }

  lemma ScheduleInCompletionOrder(init: seq<Record>, coreCapacity: int)
    requires coreCapacity >= 1 && PositiveBursts(init)
    ensures var r := Schedule(init, coreCapacity);
      (forall a :: 0 <= a < |r.result| ==> r.result[a] < |init|)
      && forall a, b :: 0 <= a < b < |r.result| ==>
        r.procs[r.result[a]].completionTime < r.procs[r.result[b]].completionTime
  {
    var r := Schedule(init, coreCapacity);
    ScheduleGood(init, coreCapacity);
    assert Ordered(r);
    OrderedResult(r);
  }

  // ---------------------------------------------------------------------------
  // Without capacity the loop never ends

  /** One pass of the loop body as a total function. */
  function Pass(s: Sched, coreCapacity: int): Sched {
    if WellFormed(s) then Step(s, coreCapacity) else s
  }

  /** The state after k applications of f. */
  function Repeat(f: Sched -> Sched, s: Sched, k: nat): Sched
    decreases k
  {
    if k == 0 then s else Repeat(f, f(s), k - 1)
  }

  lemma {:induction false} RepeatKeeps(f: Sched -> Sched, inv: Sched -> bool, s: Sched, k: nat)
    requires inv(s)
    requires forall x :: inv(x) ==> inv(f(x))
    ensures inv(Repeat(f, s, k))
    decreases k
  {
    if k > 0 {
      RepeatKeeps(f, inv, f(s), k - 1);
    }
  }

  /** With a capacity of zero or less nothing is admitted: a pass only
      flushes the new processes and advances the clock. */
  lemma StalledStep(s: Sched, coreCapacity: int)
    requires WellFormed(s) && coreCapacity <= 0
    requires s.pendingProcs == [] && s.readyQueue == []
    ensures Step(s, coreCapacity)
         == s.(procs := ApplyAt(s.procs, s.newProcs, Flush, s.currentTime), currentTime := s.currentTime + 1)
  {
    PrepareWellFormed(s, coreCapacity);
    var a := Admit(s, coreCapacity);
    assert a.procs == s.procs;
    assert a == s;
    var p := Prepare(s, coreCapacity);
    assert p.readyQueue == [];
    DispatchCases(p);
  }

  /** Nothing admitted, nothing ready, nothing completed. */
  predicate Stalled(s: Sched, n: nat) {
    WellFormed(s) && |s.procs| == n && s.newProcs == Range(n)
    && s.pendingProcs == [] && s.readyQueue == [] && s.completed == 0
  }

  /** With core_capacity <= 0 and at least one process, the loop condition
      completed != n still holds after any number of passes. */
  lemma NoCapacityNeverEnds(init: seq<Record>, coreCapacity: int, k: nat)
    requires coreCapacity <= 0 && |init| > 0
    ensures var r := Repeat(s => Pass(s, coreCapacity), Start(init), k);
      r.completed == 0 && r.completed != |r.procs| && r.newProcs == Range(|init|) && r.pendingProcs == []
  {
    var f := (s: Sched) => Pass(s, coreCapacity);
    var inv := (s: Sched) => Stalled(s, |init|);
    forall x | inv(x) ensures inv(f(x)) {
      StalledStep(x, coreCapacity);
      assert WellFormed(f(x)) by {
        PrepareWellFormed(x, coreCapacity);
        DispatchWellFormed(Prepare(x, coreCapacity));
      }
    }
    StartWellFormed(init);
    RepeatKeeps(f, inv, Start(init), k);
  }
}
