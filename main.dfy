/** main() of main.py:147-169 on the imperative engine: four Process objects
    are built at time 0, sjf_scheduling runs with core capacity 2, and the
    values print_results shows are read back from the returned list. */
module MainProgram {
  import opened Lists
  import opened StableSort
  import opened ProcessRecord
  import opened Scheduling
  import opened Engine
  import opened WorkedExample

  /** The example data is already in arrival order, so the sort keeps it. */
  lemma ExampleSorted()
    ensures SortBy(Example(), RecordArrival) == Example()
  {
    assert SortedBy(Example(), RecordArrival);
    SortByOrdered(Example(), RecordArrival);
  }

  /** The final state of the example, whatever the order of the sort. */
  lemma ExampleFinal(init: seq<Record>)
    requires init == Example()
    ensures Outcome(Schedule(SortBy(init, RecordArrival), 2))
  {
    ExampleSorted();
    ExampleSchedule(init);
  }

  /** Reading the printed columns off the returned list. */
  lemma ReadBack(ps: seq<Process>, scheduled: seq<Process>, final: Sched)
    requires Outcome(final) && |ps| == 4
    requires (forall k :: 0 <= k < |final.result| ==> final.result[k] < |ps|) && scheduled == Pick(ps, final.result)
    requires Snaps(ps) == final.procs
    ensures |scheduled| == 4
    ensures [scheduled[0].pid, scheduled[1].pid, scheduled[2].pid, scheduled[3].pid] == [1, 3, 4, 2]
    ensures [scheduled[0].completionTime, scheduled[1].completionTime,
             scheduled[2].completionTime, scheduled[3].completionTime] == [6, 8, 11, 15]
    ensures [scheduled[0].turnaroundTime, scheduled[1].turnaroundTime,
             scheduled[2].turnaroundTime, scheduled[3].turnaroundTime] == [6, 4, 5, 13]
    ensures [scheduled[0].waitingTime, scheduled[1].waitingTime,
             scheduled[2].waitingTime, scheduled[3].waitingTime] == [0, 2, 2, 9]
  {
    assert scheduled[0].Snap() == final.procs[0] && scheduled[1].Snap() == final.procs[2];
    assert scheduled[2].Snap() == final.procs[3] && scheduled[3].Snap() == final.procs[1];
  }

  /** main.py:155-163: the four processes, created at time 0. */
  method NewExample() returns (processes: array<Process>)
    ensures fresh(processes) && processes.Length == 4
    ensures forall i :: 0 <= i < 4 ==> fresh(processes[i])
    ensures Distinct(processes[..]) && Snaps(processes[..]) == Example()
  {
    var p1 := new Process(1, 0, 6, 0);
    var p2 := new Process(2, 2, 4, 0);
    var p3 := new Process(3, 4, 2, 0);
    var p4 := new Process(4, 6, 3, 0);
    processes := new Process[4] [p1, p2, p3, p4];
    assert processes[..] == [p1, p2, p3, p4];
  }

  /** The returned list holds processes 1, 3, 4 and 2 in that order, with the
      completion, turnaround and waiting times main.py prints. */
  method RunExample() returns (pids: seq<int>, completion: seq<int>, turnaround: seq<int>, waiting: seq<int>)
    ensures pids == [1, 3, 4, 2]
    ensures completion == [6, 8, 11, 15]
    ensures turnaround == [6, 4, 5, 13]
    ensures waiting == [0, 2, 2, 9]
  {
    var processes := NewExample();
    ghost var init := Snaps(processes[..]);
    var scheduled := SjfScheduling(processes, 2);
    ExampleFinal(init);
    ReadBack(processes[..], scheduled, Schedule(SortBy(init, RecordArrival), 2));
    pids := [scheduled[0].pid, scheduled[1].pid, scheduled[2].pid, scheduled[3].pid];
    completion := [scheduled[0].completionTime, scheduled[1].completionTime,
                   scheduled[2].completionTime, scheduled[3].completionTime];
    turnaround := [scheduled[0].turnaroundTime, scheduled[1].turnaroundTime,
                   scheduled[2].turnaroundTime, scheduled[3].turnaroundTime];
    waiting := [scheduled[0].waitingTime, scheduled[1].waitingTime,
                scheduled[2].waitingTime, scheduled[3].waitingTime];
  }
}
