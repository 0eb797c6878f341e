/** The lifecycle states both engines give their processes. */
module Lifecycle {

  /** The six lifecycle states (the strings 'NEW' … 'TERMINATED' of the source). */
  datatype State = New | Ready | Running | Blocked | Zombie | Terminated

  /** The state as the source spells it. */
  function StateName(s: State): (r: string)
    ensures |r| >= 3
  {
    match s
    case New => "NEW"
    case Ready => "READY"
    case Running => "RUNNING"
    case Blocked => "BLOCKED"
    case Zombie => "ZOMBIE"
    case Terminated => "TERMINATED"
  }
}

/** The process record of `src/models/process.py` and its derived queries. */
module ProcessModel {
  import opened Wrappers
  import opened Lifecycle

  /**
   * One simulated process. Only `pid` and `name` are required; every other field has
   * the dataclass default.
   */
  datatype Process = Process(
    pid: int,
    name: string,
    state: State := New,
    totalBurst: int := 0,
    remainingBurst: int := 0,
    priority: int := 0,
    parentPid: Option<int> := None,
    children: seq<int> := [],
    createdTick: int := 0,
    startTick: Option<int> := None,
    endTick: Option<int> := None,
    blockedCount: int := 0,
    preemptCount: int := 0,
    ioRemaining: int := 0,
    waitingForChild: bool := false,
    reaped: bool := false)

  /** `get_turnaround_time`: end minus creation, once the process has ended. */
  function TurnaroundTime(p: Process): Option<int> {
    if p.endTick.Some? then Some(p.endTick.value - p.createdTick) else None
  }

  /** `get_waiting_time`: turnaround minus total burst, once started and ended (no clamp). */
  function WaitingTime(p: Process): Option<int> {
    if p.startTick.Some? && p.endTick.Some? then Some(TurnaroundTime(p).value - p.totalBurst)
    else None
  }

  /** `is_finished`. */
  predicate IsFinished(p: Process) {
    p.state in {Terminated, Zombie}
  }

  /** A record built from a pid and a name alone carries the dataclass defaults. */
  lemma FreshRecordDefaults(pid: int, name: string)
    ensures var p := Process(pid, name);
      && p.state == New && p.parentPid == None && p.children == []
      && p.totalBurst == 0 && p.remainingBurst == 0 && p.priority == 0
      && p.createdTick == 0 && p.startTick == None && p.endTick == None
      && p.blockedCount == 0 && p.preemptCount == 0 && p.ioRemaining == 0
      && !p.waitingForChild && !p.reaped
  {
  }

  /** Turnaround is defined exactly when the end tick is, and measures end minus creation. */
  lemma TurnaroundDefinedIffEnded(p: Process)
    ensures TurnaroundTime(p).Some? <==> p.endTick.Some?
    ensures p.endTick.Some? ==> TurnaroundTime(p).value + p.createdTick == p.endTick.value
  {
  }

  /** Whenever a waiting time exists, so does a turnaround, and they differ by the burst. */
  lemma WaitingImpliesTurnaround(p: Process)
    ensures WaitingTime(p).Some? <==> p.startTick.Some? && p.endTick.Some?
    ensures WaitingTime(p).Some? ==> TurnaroundTime(p).Some?
    ensures WaitingTime(p).Some? ==> WaitingTime(p).value == TurnaroundTime(p).value - p.totalBurst
  {
  }

  /** The waiting time is not clamped: a process that ends before its burst is negative. */
  lemma WaitingTimeMayBeNegative()
    ensures WaitingTime(Process(1, "P1", totalBurst := 10, startTick := Some(1), endTick := Some(5))) == Some(-5)
  {
  }
}
