/** The data set of main.py:147-169 (four processes, core capacity 2), run
    pass by pass through the specification. Each pass is described by the
    contents of the four lists, the clock and the completion times recorded
    so far (At); PassAt composes the phase lemmas for one pass, and the
    PassNFacts lemmas evaluate admission, readiness and the sort on the
    concrete data. */
module WorkedExample {
  import opened Lists
  import opened StableSort
  import opened ProcessRecord
  import opened Scheduling
  import opened ScheduleProperties

  function Example(): seq<Record> {
    [Initial(1, 0, 6, 0), Initial(2, 2, 4, 0), Initial(3, 4, 2, 0), Initial(4, 6, 3, 0)]
  }

  /** The identifiers, arrival times and bursts of the example, in order. */
  predicate Shape(init: seq<Record>) {
    |init| == 4
    && init[0].pid == 1 && init[1].pid == 2 && init[2].pid == 3 && init[3].pid == 4
    && init[0].arrivalTime == 0 && init[1].arrivalTime == 2 && init[2].arrivalTime == 4 && init[3].arrivalTime == 6
    && init[0].burstTime == 6 && init[1].burstTime == 4 && init[2].burstTime == 2 && init[3].burstTime == 3
  }

  /** The state has the given lists and clock, holds the processes of init,
      and the completed ones finished at the given times. */
  predicate At(s: Sched, init: seq<Record>, newProcs: seq<nat>, pending: seq<nat>, ready: seq<nat>, result: seq<nat>, done: seq<int>, t: int) {
    WellFormed(s) && SameProcesses(s.procs, init)
    && s.newProcs == newProcs && s.pendingProcs == pending && s.readyQueue == ready && s.result == result
    && s.currentTime == t && |done| == |result|
    && forall j :: 0 <= j < |result| ==> result[j] < |s.procs| && s.procs[result[j]].completionTime == done[j]
  }

  lemma AdmitAt(s: Sched, init: seq<Record>, n: seq<nat>, p: seq<nat>, r: seq<nat>, res: seq<nat>, done: seq<int>, t: int, k: nat)
    requires At(s, init, n, p, r, res, done, t) && k == AdmitCount(|n|, |p|, 2)
    ensures At(Admit(s, 2), init, n[k..], p + n[..k], r, res, done, t)
  {
    Partition(s);
    InRange(s);
    AdmitWellFormed(s, 2);
    ApplyAtSame(s.procs, n[..k], MoveTo(Pending), t);
    assert forall i :: i in n[..k] ==> i in n;
    forall j | 0 <= j < |res| ensures res[j] !in n[..k] {
      assert res[j] in res;
    }
  }

  lemma PromoteAtState(s: Sched, init: seq<Record>, n: seq<nat>, p: seq<nat>, r: seq<nat>, res: seq<nat>, done: seq<int>, t: int)
    requires At(s, init, n, p, r, res, done, t)
    ensures At(PromoteArrived(s), init, n, Select(s.procs, p, t, false), r + Select(s.procs, p, t, true), res, done, t)
  {
    var b := PromoteArrived(s);
    PromoteWellFormed(s);
    ApplyAtSame(s.procs, p, Arrive, t);
    SameProcessesTrans(b.procs, s.procs, init);
    Partition(s);
    InRange(s);
    forall j | 0 <= j < |res| ensures b.procs[res[j]].completionTime == done[j] {
      assert res[j] in res;
      assert res[j] !in p;
    }
  }

  lemma FlushAt(s: Sched, init: seq<Record>, n: seq<nat>, p: seq<nat>, r: seq<nat>, res: seq<nat>, done: seq<int>, t: int)
    requires At(s, init, n, p, r, res, done, t)
    ensures At(FlushReady(FlushNew(s)), init, n, p, r, res, done, t)
  {
    Partition(s);
    InRange(s);
    FlushWellFormed(s);
    FlushWellFormed(FlushNew(s));
    ApplyAtSame(s.procs, n, Flush, t);
    ApplyAtSame(FlushNew(s).procs, r, Flush, t);
    forall j | 0 <= j < |res| ensures res[j] !in n && res[j] !in r {
      assert res[j] in res;
    }
  }

  /** The state after the head h of the ready queue has run, described by its
      fields. */
  lemma RunAt(s: Sched, d: Sched, init: seq<Record>, n: seq<nat>, p: seq<nat>, r: seq<nat>, res: seq<nat>, done: seq<int>, t: int,
              h: nat, rest: seq<nat>, res': seq<nat>, done': seq<int>, t': int)
    requires At(s, init, n, p, r, res, done, t)
    requires h in r && h < |s.procs| && res' == res + [h] && t' == t + s.procs[h].burstTime && done' == done + [t']
    requires WellFormed(d) && SameProcesses(d.procs, s.procs)
    requires d.procs == s.procs[h := Executed(s.procs[h], t)]
    requires d.newProcs == n && d.pendingProcs == p && d.readyQueue == rest && d.result == res' && d.currentTime == t'
    ensures At(d, init, n, p, rest, res', done', t')
  {
    SameProcessesTrans(d.procs, s.procs, init);
    assert forall j :: 0 <= j < |res| ==> res[j] != h by {
      Partition(s);
      forall j | 0 <= j < |res| ensures res[j] != h {
        assert res[j] in res;
      }
    }
  }

  lemma DispatchAt(s: Sched, init: seq<Record>, n: seq<nat>, p: seq<nat>, r: seq<nat>, res: seq<nat>, done: seq<int>, t: int,
                   h: nat, rest: seq<nat>, res': seq<nat>, done': seq<int>, t': int)
    requires At(s, init, n, p, r, res, done, t)
    requires SortBy<nat>(r, BurstKey(Bursts(init))) == [h] + rest
    requires h < |init| && res' == res + [h] && t' == t + init[h].burstTime && done' == done + [t']
    ensures ReadyInRange(s)
    ensures At(Dispatch(s), init, n, p, rest, res', done', t')
  {
    InRange(s);
    assert Bursts(s.procs) == Bursts(init);
    DispatchCases(s);
    DispatchWellFormed(s);
    DispatchSame(s);
    RunAt(s, Dispatch(s), init, n, p, r, res, done, t, h, rest, res', done', t');
  }

  lemma Select2(procs: seq<Record>, x: nat, y: nat, t: int, arrived: bool)
    ensures Select(procs, [x, y], t, arrived)
         == (if HasArrived(procs, x, t) == arrived then [x] else []) + if HasArrived(procs, y, t) == arrived then [y] else []
  {
    SelectSnoc(procs, [], x, t, arrived);
    assert [x, y] == [x] + [y];
    SelectSnoc(procs, [x], y, t, arrived);
  }

  lemma SortTwo(x: nat, y: nat, key: nat -> int)
    ensures SortBy<nat>([x, y], key) == if key(y) < key(x) then [y, x] else [x, y]
  {
    assert [x, y][1..] == [y];
  }

  lemma {:induction false} SelectSame(p: seq<Record>, q: seq<Record>, idx: seq<nat>, t: int, arrived: bool)
    requires SameProcesses(p, q)
    ensures Select(p, idx, t, arrived) == Select(q, idx, t, arrived)
  {
    if idx != [] {
      SelectSame(p, q, idx[..|idx| - 1], t, arrived);
    }
  }

  /** What one pass does to the lists: admission moves k new processes, of
      the pending ones those in arrived are ready and those in waiting are
      not, and the ready queue sorts to h followed by rest. */
  predicate Plan(init: seq<Record>, n: seq<nat>, p: seq<nat>, r: seq<nat>, t: int,
                 k: nat, arrived: seq<nat>, waiting: seq<nat>, h: nat, rest: seq<nat>) {
    k == AdmitCount(|n|, |p|, 2)
    && Select(init, p + n[..k], t, true) == arrived && Select(init, p + n[..k], t, false) == waiting
    && SortBy<nat>(r + arrived, BurstKey(Bursts(init))) == [h] + rest && h < |init|
  }

  /** One pass from a state described by its lists, given what admission
      takes, which pending processes have arrived, and how the ready queue
      sorts. */
  lemma PassAt(s: Sched, init: seq<Record>, n: seq<nat>, p: seq<nat>, r: seq<nat>, res: seq<nat>, done: seq<int>, t: int,
               k: nat, arrived: seq<nat>, waiting: seq<nat>, h: nat, rest: seq<nat>,
               n': seq<nat>, res': seq<nat>, done': seq<int>, t': int)
    requires At(s, init, n, p, r, res, done, t) && Plan(init, n, p, r, t, k, arrived, waiting, h, rest)
    requires n' == n[k..] && res' == res + [h] && t' == t + init[h].burstTime && done' == done + [t']
    ensures At(Step(s, 2), init, n', waiting, rest, res', done', t')
  {
    AdmitAt(s, init, n, p, r, res, done, t, k);
    var a := Admit(s, 2);
    PromoteAtState(a, init, n', p + n[..k], r, res, done, t);
    SelectSame(a.procs, init, p + n[..k], t, true);
    SelectSame(a.procs, init, p + n[..k], t, false);
    var b := PromoteArrived(a);
    assert At(b, init, n', waiting, r + arrived, res, done, t);
    FlushAt(b, init, n', waiting, r + arrived, res, done, t);
    var c := FlushReady(FlushNew(b));
    DispatchAt(c, init, n', waiting, r + arrived, res, done, t, h, rest, res', done', t');
    assert Step(s, 2) == Dispatch(c) by {
      assert c == Prepare(s, 2);
    }
  }

  lemma Pass1Facts(init: seq<Record>)
    requires Shape(init)
    ensures Plan(init, [0, 1, 2, 3], [], [], 0, 2, [0], [1], 0, [])
    ensures [0, 1, 2, 3][2..] == [2, 3] && init[0].burstTime == 6
  {
    Select2(init, 0, 1, 0, true);
    Select2(init, 0, 1, 0, false);
  }

  lemma Pass1(s: Sched, init: seq<Record>)
    requires Shape(init) && At(s, init, [0, 1, 2, 3], [], [], [], [], 0)
    ensures At(Step(s, 2), init, [2, 3], [1], [], [0], [6], 6)
    ensures Inv(s, 2) && Run(s, 2) == Run(Step(s, 2), 2)
  {
    Pass1Facts(init);
    PassAt(s, init, [0, 1, 2, 3], [], [], [], [], 0, 2, [0], [1], 0, [], [2, 3], [0], [6], 6);
    RunPass(s, init, [0, 1, 2, 3], [], [], [], [], 0);
  }

  lemma Pass2Facts(init: seq<Record>)
    requires Shape(init)
    ensures Plan(init, [2, 3], [1], [], 6, 1, [1, 2], [], 2, [1])
    ensures [2, 3][1..] == [3] && init[2].burstTime == 2
  {
    Select2(init, 1, 2, 6, true);
    Select2(init, 1, 2, 6, false);
    var none: seq<nat> := [];
    assert none + [1, 2] == [1, 2];
    SortTwo(1, 2, BurstKey(Bursts(init)));
    assert Bursts(init)[1] == 4 && Bursts(init)[2] == 2;
  }

  lemma Pass2(s: Sched, init: seq<Record>)
    requires Shape(init) && At(s, init, [2, 3], [1], [], [0], [6], 6)
    ensures At(Step(s, 2), init, [3], [], [1], [0, 2], [6, 8], 8)
    ensures Inv(s, 2) && Run(s, 2) == Run(Step(s, 2), 2)
  {
    Pass2Facts(init);
    PassAt(s, init, [2, 3], [1], [], [0], [6], 6, 1, [1, 2], [], 2, [1], [3], [0, 2], [6, 8], 8);
    RunPass(s, init, [2, 3], [1], [], [0], [6], 6);
  }

  lemma Pass3Facts(init: seq<Record>)
    requires Shape(init)
    ensures Plan(init, [3], [], [1], 8, 1, [3], [], 3, [1])
    ensures [3][1..] == [] && init[3].burstTime == 3
  {
    SelectSnoc(init, [], 3, 8, true);
    SelectSnoc(init, [], 3, 8, false);
    assert [] + [3] == [3];
    assert [1] + [3] == [1, 3];
    SortTwo(1, 3, BurstKey(Bursts(init)));
    assert Bursts(init)[1] == 4 && Bursts(init)[3] == 3;
  }

  lemma Pass3(s: Sched, init: seq<Record>)
    requires Shape(init) && At(s, init, [3], [], [1], [0, 2], [6, 8], 8)
    ensures At(Step(s, 2), init, [], [], [1], [0, 2, 3], [6, 8, 11], 11)
    ensures Inv(s, 2) && Run(s, 2) == Run(Step(s, 2), 2)
  {
    Pass3Facts(init);
    PassAt(s, init, [3], [], [1], [0, 2], [6, 8], 8, 1, [3], [], 3, [1], [], [0, 2, 3], [6, 8, 11], 11);
    RunPass(s, init, [3], [], [1], [0, 2], [6, 8], 8);
  }

  lemma Pass4Facts(init: seq<Record>)
    requires Shape(init)
    ensures Plan(init, [], [], [1], 11, 0, [], [], 1, [])
    ensures init[1].burstTime == 4
  {
  }

  lemma Pass4(s: Sched, init: seq<Record>)
    requires Shape(init) && At(s, init, [], [], [1], [0, 2, 3], [6, 8, 11], 11)
    ensures At(Step(s, 2), init, [], [], [], [0, 2, 3, 1], [6, 8, 11, 15], 15)
    ensures Inv(s, 2) && Run(s, 2) == Run(Step(s, 2), 2)
  {
    Pass4Facts(init);
    PassAt(s, init, [], [], [1], [0, 2, 3], [6, 8, 11], 11, 0, [], [], 1, [], [], [0, 2, 3, 1], [6, 8, 11, 15], 15);
    RunPass(s, init, [], [], [1], [0, 2, 3], [6, 8, 11], 11);
  }

  lemma RunPass(s: Sched, init: seq<Record>, n: seq<nat>, p: seq<nat>, r: seq<nat>, res: seq<nat>, done: seq<int>, t: int)
    requires |init| == 4 && At(s, init, n, p, r, res, done, t) && |p| <= 2 && |res| < 4
    ensures Inv(s, 2) && Inv(Step(s, 2), 2) && Run(s, 2) == Run(Step(s, 2), 2)
  {
    assert s.completed == |res| && |s.procs| == 4;
    StepProgress(s, 2);
  }

  /** The four passes of the example, run to the end. */
  lemma ExampleRun(init: seq<Record>)
    requires Shape(init)
    ensures At(Schedule(init, 2), init, [], [], [], [0, 2, 3, 1], [6, 8, 11, 15], 15)
  {
    var s0 := Start(init);
    StartWellFormed(init);
    assert Range(4) == [0, 1, 2, 3];
    assert At(s0, init, [0, 1, 2, 3], [], [], [], [], 0);
    Pass1(s0, init);
    var s1 := Step(s0, 2);
    Pass2(s1, init);
    var s2 := Step(s1, 2);
    Pass3(s2, init);
    var s3 := Step(s2, 2);
    Pass4(s3, init);
    var s4 := Step(s3, 2);
    assert Run(s4, 2) == s4;
  }

  /** What main.py prints for the example once sjf_scheduling returns:
      processes complete in the order 1, 3, 4, 2 at times 6, 8, 11 and 15,
      with turnaround 6, 4, 5 and 13, having waited 0, 2, 2 and 9 ticks. */
  predicate Outcome(r: Sched) {
    |r.procs| == 4 && r.result == [0, 2, 3, 1] && r.currentTime == 15
    && [r.procs[0].pid, r.procs[2].pid, r.procs[3].pid, r.procs[1].pid] == [1, 3, 4, 2]
    && [r.procs[0].completionTime, r.procs[2].completionTime, r.procs[3].completionTime, r.procs[1].completionTime]
       == [6, 8, 11, 15]
    && [r.procs[0].turnaroundTime, r.procs[2].turnaroundTime, r.procs[3].turnaroundTime, r.procs[1].turnaroundTime]
       == [6, 4, 5, 13]
    && [r.procs[0].waitingTime, r.procs[2].waitingTime, r.procs[3].waitingTime, r.procs[1].waitingTime]
       == [0, 2, 2, 9]
  }

  lemma ExampleOutcome(r: Sched, init: seq<Record>)
    requires Shape(init)
    requires At(r, init, [], [], [], [0, 2, 3, 1], [6, 8, 11, 15], 15)
    requires forall i :: 0 <= i < |r.procs| ==> Finished(r.procs[i])
    ensures Outcome(r)
  {
    assert forall i :: 0 <= i < 4 ==> SameProcess(r.procs[i], init[i]);
  }

  /** main.py:147-169 with core capacity 2: any four processes with the
      example's identifiers, arrivals and bursts, in this order. */
  lemma ExampleSchedule(init: seq<Record>)
    requires Shape(init)
    ensures Outcome(Schedule(init, 2))
  {
    ExampleRun(init);
    ScheduleCompletes(init, 2);
    ExampleOutcome(Schedule(init, 2), init);
  }
}
