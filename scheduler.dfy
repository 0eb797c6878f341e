/**
 * The round-robin scheduler of `src/core/scheduler.py`: one FIFO ready queue without
 * duplicates, a running slot, the quantum used by the running process and a count of
 * context switches. Each operation is first a function on the scheduler's fields
 * (`Sched`) and the process table, then a method of `RoundRobinScheduler` proved equal
 * to it.
 */
module RoundRobin {
  import opened Wrappers
  import opened Lists
  import opened ProcessModel
  import opened Lifecycle

  /** The process table the scheduler reads and updates, keyed by pid. */
  type Table = map<int, Process>

  /** The scheduler's fields as a value. */
  datatype Sched = Sched(
    quantum: int,
    ready: seq<int>,
    running: Option<int>,
    quantumUsed: int,
    contextSwitches: int)

  /** The outcome of an operation that may update the table: new fields, new table, success. */
  datatype Transition = Transition(sched: Sched, table: Table, ok: bool)

  /** A freshly constructed scheduler. */
  function Initial(quantum: int): Sched {
    Sched(quantum, [], None, 0, 0)
  }

  /** `add_to_ready`: enqueue at the tail unless already queued. */
  function AddToReadyStep(s: Sched, pid: int): (r: Sched)
    ensures pid in r.ready
    ensures forall q :: q in r.ready <==> q in s.ready || q == pid
    ensures Distinct(s.ready) ==> Distinct(r.ready)
    ensures r.(ready := s.ready) == s
    ensures pid in s.ready ==> r == s
    ensures pid !in s.ready ==> r.ready == s.ready + [pid]
  {
    if pid in s.ready then s else s.(ready := s.ready + [pid])
  }

  /** `remove_from_ready`: drop every occurrence of `pid`, keeping the others in order. */
  function RemoveFromReadyStep(s: Sched, pid: int): (r: Sched)
    ensures pid !in r.ready
    ensures forall q :: q != pid ==> (q in r.ready <==> q in s.ready)
    ensures r.(ready := s.ready) == s
    ensures r.ready == Without(s.ready, pid)
    ensures pid !in s.ready ==> r == s
  {
    if pid in s.ready then s.(ready := Without(s.ready, pid))
    else WithoutAbsent(s.ready, pid); s
  }

  /** `get_next_process`: pop the head of the queue; nothing when it is empty. */
  function GetNextStep(s: Sched): (r: (Sched, Option<int>))
    ensures r.1.None? <==> s.ready == []
    ensures r.1.Some? ==> r.1.value in s.ready && [r.1.value] + r.0.ready == s.ready
    ensures r.0.(ready := s.ready) == s
  {
    if s.ready == [] then (s, None) else (s.(ready := s.ready[1..]), Some(s.ready[0]))
  }

  /**
   * `preempt_current`: once the running process has used its quantum it goes back to
   * the tail of the queue as READY with one more preemption, and the slot is freed.
   */
  function PreemptStep(s: Sched, t: Table): (r: Transition)
    ensures r.ok <==> s.running.Some? && s.quantumUsed >= s.quantum && s.running.value in t
    ensures !r.ok ==> r.sched == s && r.table == t
    ensures r.ok ==> r.sched.running == None && r.sched.quantumUsed == 0
                     && r.sched.contextSwitches == s.contextSwitches + 1
                     && r.sched.quantum == s.quantum
                     && r.sched.ready == AddToReadyStep(s, s.running.value).ready
    ensures r.ok ==> var pid := s.running.value;
                     r.table.Keys == t.Keys
                     && r.table[pid].state == Ready
                     && r.table[pid].preemptCount == t[pid].preemptCount + 1
                     && r.table[pid].(state := t[pid].state, preemptCount := t[pid].preemptCount) == t[pid]
                     && forall k :: k in t && k != pid ==> r.table[k] == t[k]
  {
    if s.running.None? then Transition(s, t, false)
    else if s.quantumUsed >= s.quantum && s.running.value in t then
      var pid := s.running.value;
      var p := t[pid];
      var s' := AddToReadyStep(s, pid);
      Transition(
        s'.(running := None, quantumUsed := 0, contextSwitches := s.contextSwitches + 1),
        t[pid := p.(state := Ready, preemptCount := p.preemptCount + 1)],
        true)
    else Transition(s, t, false)
  }

  /** `set_running`: a known pid becomes RUNNING and current with a fresh quantum. */
  function SetRunningStep(s: Sched, t: Table, pid: int): (r: Transition)
    ensures r.ok <==> pid in t
    ensures !r.ok ==> r.sched == s && r.table == t
    ensures r.ok ==> r.sched.running == Some(pid) && r.sched.quantumUsed == 0
                     && r.sched.contextSwitches == s.contextSwitches + 1
                     && r.sched.ready == s.ready && r.sched.quantum == s.quantum
    ensures r.ok ==> r.table.Keys == t.Keys
                     && r.table[pid].state == Running
                     && r.table[pid].(state := t[pid].state) == t[pid]
                     && forall k :: k in t && k != pid ==> r.table[k] == t[k]
  {
    if pid in t then
      Transition(
        s.(running := Some(pid), quantumUsed := 0, contextSwitches := s.contextSwitches + 1),
        t[pid := t[pid].(state := Running)],
        true)
    else Transition(s, t, false)
  }

  /** `tick`: one more unit of quantum, only while a process is running. */
  function TickStep(s: Sched): (r: Sched)
    ensures s.running.None? ==> r == s
    ensures s.running.Some? ==> r.quantumUsed == s.quantumUsed + 1 && r.(quantumUsed := s.quantumUsed) == s
  {
    if s.running.Some? then s.(quantumUsed := s.quantumUsed + 1) else s
  }

  /** `reset`: empty queue, free slot, counters zero; the quantum stays. */
  function ResetStep(s: Sched): (r: Sched)
    ensures r == Initial(s.quantum)
  {
    s.(ready := [], running := None, quantumUsed := 0, contextSwitches := 0)
  }

  /** `k` consecutive calls of `tick`. */
  function Ticks(s: Sched, k: nat): Sched {
    if k == 0 then s else TickStep(Ticks(s, k - 1))
  }

  /** While a process runs, `k` ticks add exactly `k` to its quantum and touch nothing else. */
  lemma {:induction false} TicksWhileRunning(s: Sched, k: nat)
    requires s.running.Some?
    ensures Ticks(s, k) == s.(quantumUsed := s.quantumUsed + k)
  {
    if k > 0 {
      TicksWhileRunning(s, k - 1);
    }
  }

  /**
   * Quantum preemption: after `set_running(pid)` and `k` ticks, `preempt_current`
   * fires exactly when `k` has reached the quantum, and then re-queues `pid` as READY.
   */
  lemma PreemptFiresAtQuantum(s: Sched, t: Table, pid: int, k: nat)
    requires pid in t
    ensures var run := SetRunningStep(s, t, pid);
            var r := PreemptStep(Ticks(run.sched, k), run.table);
            && (r.ok <==> k >= s.quantum)
            && (r.ok ==> r.table[pid].state == Ready && pid in r.sched.ready
                         && r.table[pid].preemptCount == t[pid].preemptCount + 1
                         && r.sched.contextSwitches == s.contextSwitches + 2)
  {
    var run := SetRunningStep(s, t, pid);
    TicksWhileRunning(run.sched, k);
  }

  /** Adding to the tail never changes which process is dequeued next (FIFO). */
  lemma AddKeepsHead(s: Sched, pid: int)
    requires s.ready != []
    ensures GetNextStep(AddToReadyStep(s, pid)).1 == Some(s.ready[0])
  {
  }

  /** Dequeuing everything returns the queue's pids in the order they were added. */
  function Drain(s: Sched): (r: seq<int>)
    decreases |s.ready|
  {
    var (s', next) := GetNextStep(s);
    if next.None? then [] else [next.value] + Drain(s')
  }

  /** Draining returns exactly the ready queue, head first. */
  lemma {:induction false} DrainIsQueue(s: Sched)
    ensures Drain(s) == s.ready
    decreases |s.ready|
  {
    if s.ready != [] {
      DrainIsQueue(GetNextStep(s).0);
    }
  }

  /** The rebuild loop of `remove_from_ready`: pops every pid and keeps those other than `pid`. */
  method KeepOthers(queue: seq<int>, pid: int) returns (tempQueue: seq<int>)
    ensures tempQueue == Without(queue, pid)
  {
    var rest := queue;
    tempQueue := [];
    while rest != []
      invariant queue[|queue| - |rest|..] == rest
      invariant tempQueue == Without(queue[..|queue| - |rest|], pid)
      decreases |rest|
    {
      var currentPid := rest[0];
      ghost var done := queue[..|queue| - |rest|];
      rest := rest[1..];
      ghost var done' := queue[..|queue| - |rest|];
      assert done'[..|done'| - 1] == done && done'[|done'| - 1] == currentPid;
      if currentPid != pid {
        tempQueue := tempQueue + [currentPid];
      }
    }
    assert queue[..|queue|] == queue;
  }

  /** The scheduler object; its methods update the fields in place. */
  class RoundRobinScheduler {
    var quantum: int
    var readyQueue: seq<int>
    var currentRunningPid: Option<int>
    var currentQuantumUsed: int
    var contextSwitches: int

    /** The fields as a value. */
    function State(): Sched
      reads this
    {
      Sched(quantum, readyQueue, currentRunningPid, currentQuantumUsed, contextSwitches)
    }

    constructor (quantum: int := 3)
      ensures State() == Initial(quantum)
    {
      this.quantum := quantum;
      readyQueue := [];
      currentRunningPid := None;
      currentQuantumUsed := 0;
      contextSwitches := 0;
    }

    method AddToReady(pid: int)
      modifies this
      ensures State() == AddToReadyStep(old(State()), pid)
    {
      if pid !in readyQueue {
        readyQueue := readyQueue + [pid];
      }
    }

    /** Rebuilds the queue by popping every element and keeping those other than `pid`. */
    method RemoveFromReady(pid: int)
      modifies this
      ensures State() == RemoveFromReadyStep(old(State()), pid)
    {
      if pid in readyQueue {
        var tempQueue := KeepOthers(readyQueue, pid);
        readyQueue := tempQueue;
      }
    }

    method GetNextProcess() returns (next: Option<int>)
      modifies this
      ensures (State(), next) == GetNextStep(old(State()))
    {
      if readyQueue != [] {
        next := Some(readyQueue[0]);
        readyQueue := readyQueue[1..];
      } else {
        next := None;
      }
    }

    method PreemptCurrent(table: Table) returns (preempted: bool, table': Table)
      modifies this
      ensures Transition(State(), table', preempted) == PreemptStep(old(State()), table)
    {
      table' := table;
      if currentRunningPid == None {
        return false, table';
      }
      if currentQuantumUsed >= quantum {
        var pid := currentRunningPid.value;
        if pid in table {
          var process := table[pid];
          table' := table[pid := process.(state := Ready, preemptCount := process.preemptCount + 1)];
          AddToReady(pid);
          currentRunningPid := None;
          currentQuantumUsed := 0;
          contextSwitches := contextSwitches + 1;
          return true, table';
        }
      }
      return false, table';
    }

    method SetRunning(pid: int, table: Table) returns (ok: bool, table': Table)
      modifies this
      ensures Transition(State(), table', ok) == SetRunningStep(old(State()), table, pid)
    {
      if pid in table {
        table' := table[pid := table[pid].(state := Running)];
        currentRunningPid := Some(pid);
        currentQuantumUsed := 0;
        contextSwitches := contextSwitches + 1;
        return true, table';
      }
      return false, table;
    }

    method Tick()
      modifies this
      ensures State() == TickStep(old(State()))
    {
      if currentRunningPid != None {
        currentQuantumUsed := currentQuantumUsed + 1;
      }
    }

    method Reset()
      modifies this
      ensures State() == ResetStep(old(State()))
    {
      readyQueue := [];
      currentRunningPid := None;
      currentQuantumUsed := 0;
      contextSwitches := 0;
    }
  }
}
