/** The process record of main.py: its lifecycle status, the five-entry table
    of time spent in each status, and the two mutators that keep that table up
    to date. The value-level functions (Initial, Charged, Transitioned) say what
    each operation does; the class Process holds the same data in mutable
    fields, and its methods are proved to act as those functions do. */
module ProcessRecord {

  /** The five lifecycle states, in the order the scheduler moves through them. */
  datatype Status = New | Pending | Ready | Processing | Done

  /** The table time_in_states: one counter of ticks per status. */
  datatype TimeInStates = TimeInStates(inNew: int, inPending: int, inReady: int, inProcessing: int, inDone: int)
  {
    function Get(s: Status): int {
      match s
      case New => inNew
      case Pending => inPending
      case Ready => inReady
      case Processing => inProcessing
      case Done => inDone
    }

    /** Overwrites the counter of s and keeps the other four. */
    function Set(s: Status, v: int): (t: TimeInStates)
      ensures t.Get(s) == v
      ensures forall o :: o != s ==> t.Get(o) == Get(o)
    {
      match s
      case New => this.(inNew := v)
      case Pending => this.(inPending := v)
      case Ready => this.(inReady := v)
      case Processing => this.(inProcessing := v)
      case Done => this.(inDone := v)
    }

    function Sum(): int {
      inNew + inPending + inReady + inProcessing + inDone
    }
  }

  const NoTime := TimeInStates(0, 0, 0, 0, 0)

  /** Everything a Process holds, as a value. */
  datatype Record = Record(
    pid: int,
    arrivalTime: int,
    burstTime: int,
    completionTime: int,
    waitingTime: int,
    turnaroundTime: int,
    status: Status,
    remainingTime: int,
    timeInStates: TimeInStates,
    lastStateChange: int,
    creationTime: int)

  /** The record the constructor builds. */
  function Initial(pid: int, arrivalTime: int, burstTime: int, currentTime: int): Record {
    Record(pid, arrivalTime, burstTime, 0, 0, 0, New, burstTime, NoTime, currentTime, currentTime)
  }

  /** update_state_time: the ticks since the last change go to the current status. */
  function Charged(r: Record, currentTime: int): Record {
    var timeSpent := currentTime - r.lastStateChange;
    r.(timeInStates := r.timeInStates.Set(r.status, r.timeInStates.Get(r.status) + timeSpent),
       lastStateChange := currentTime)
  }

  /** change_status: flush the elapsed time, then switch status. */
  function Transitioned(r: Record, newStatus: Status, currentTime: int): Record {
    Charged(r, currentTime).(status := newStatus)
  }

  /** Two records of the same process: the fields the source never assigns
      after construction agree. */
  predicate SameProcess(r: Record, q: Record) {
    r.pid == q.pid && r.arrivalTime == q.arrivalTime && r.burstTime == q.burstTime
    && r.remainingTime == q.remainingTime && r.creationTime == q.creationTime
  }

  /** The accounting rule: the counters add up to the time elapsed between
      creation and the last flush. */
  predicate Accounted(r: Record) {
    r.timeInStates.Sum() == r.lastStateChange - r.creationTime
  }

  lemma InitialAccounted(pid: int, arrivalTime: int, burstTime: int, currentTime: int)
    ensures var r := Initial(pid, arrivalTime, burstTime, currentTime);
      r.status == New && Accounted(r) && r.remainingTime == burstTime
      && forall s :: r.timeInStates.Get(s) == 0
  {
  }

  /** update_state_time adds exactly the elapsed ticks to the current status,
      moves lastStateChange to the given time, and changes nothing else. */
  lemma ChargedEffect(r: Record, currentTime: int)
    ensures var q := Charged(r, currentTime);
      q.timeInStates.Get(r.status) == r.timeInStates.Get(r.status) + (currentTime - r.lastStateChange)
      && (forall s :: s != r.status ==> q.timeInStates.Get(s) == r.timeInStates.Get(s))
      && q.lastStateChange == currentTime
      && q == r.(timeInStates := q.timeInStates, lastStateChange := currentTime)
  {
  }

  /** A second flush at the same time adds nothing. */
  lemma ChargedIdempotent(r: Record, currentTime: int)
    ensures Charged(Charged(r, currentTime), currentTime) == Charged(r, currentTime)
  {
    var q := Charged(r, currentTime);
    assert q.timeInStates.Set(q.status, q.timeInStates.Get(q.status) + 0) == q.timeInStates;
  }

  lemma SetSum(t: TimeInStates, s: Status, v: int)
    ensures t.Set(s, v).Sum() == t.Sum() - t.Get(s) + v
  {
  }

  /** Flushing keeps the accounting rule. */
  lemma ChargedAccounted(r: Record, currentTime: int)
    requires Accounted(r)
    ensures Accounted(Charged(r, currentTime))
  {
    SetSum(r.timeInStates, r.status, r.timeInStates.Get(r.status) + currentTime - r.lastStateChange);
  }

  /** change_status charges the elapsed time to the OLD status, keeps the
      accounting rule, and leaves the record at the new status. */
  lemma TransitionedEffect(r: Record, newStatus: Status, currentTime: int)
    ensures var q := Transitioned(r, newStatus, currentTime);
      q.status == newStatus
      && q.timeInStates.Get(r.status) == r.timeInStates.Get(r.status) + (currentTime - r.lastStateChange)
      && (forall s :: s != r.status ==> q.timeInStates.Get(s) == r.timeInStates.Get(s))
      && q.lastStateChange == currentTime
      && SameProcess(q, r)
      && (Accounted(r) ==> Accounted(q))
  {
    if Accounted(r) {
      ChargedAccounted(r, currentTime);
    }
  }

  /** A process's mutable state, as in main.py. The fields the source never
      reassigns after construction are constants. */
  class Process {
    const pid: int
    const arrivalTime: int
    const burstTime: int
    var completionTime: int
    var waitingTime: int
    var turnaroundTime: int
    var status: Status
    /**  Set to burstTime and never read or changed. */
    const remainingTime: int
    var timeInStates: TimeInStates
    var lastStateChange: int
    const creationTime: int

    /** The fields of this process as a value. */
    function Snap(): Record
      reads this
    {
      Record(pid, arrivalTime, burstTime, completionTime, waitingTime, turnaroundTime,
             status, remainingTime, timeInStates, lastStateChange, creationTime)
    }

    constructor (pid: int, arrivalTime: int, burstTime: int, currentTime: int)
      ensures Snap() == Initial(pid, arrivalTime, burstTime, currentTime)
    {
      this.pid := pid;
      this.arrivalTime := arrivalTime;
      this.burstTime := burstTime;
      this.completionTime := 0;
      this.waitingTime := 0;
      this.turnaroundTime := 0;
      this.status := New;
      this.remainingTime := burstTime;
      this.timeInStates := NoTime;
      this.lastStateChange := currentTime;
      this.creationTime := currentTime;
    }

    method UpdateStateTime(currentTime: int)
      modifies this
      ensures Snap() == Charged(old(Snap()), currentTime)
    {
      var timeSpent := currentTime - lastStateChange;
      timeInStates := timeInStates.Set(status, timeInStates.Get(status) + timeSpent);
      lastStateChange := currentTime;
    }

    method ChangeStatus(newStatus: Status, currentTime: int)
      modifies this
      ensures Snap() == Transitioned(old(Snap()), newStatus, currentTime)
    {
      UpdateStateTime(currentTime);
      status := newStatus;
    }
  }

  /** The records of a sequence of processes, position by position. */
  function Snaps(ps: seq<Process>): (rs: seq<Record>)
    reads ps
    ensures |rs| == |ps|
    ensures forall i :: 0 <= i < |ps| ==> rs[i] == ps[i].Snap()
  {
    seq(|ps|, i requires 0 <= i < |ps| reads ps => ps[i].Snap())
  }
}
