/**
 * `SimulatorEngine` of `src/core/simulator.py` as a class. Each method updates the
 * fields in place, as the source does, and is proved to leave exactly the state that
 * the matching function of `SimulatorModel` computes from the old state; the class
 * invariant `Valid` is the model's `Consistent` plus the bound on the event log.
 */
module Simulator {
  import opened Wrappers
  import opened Lists
  import opened ProcessModel
  import opened Lifecycle
  import opened RoundRobin
  import opened SimulatorModel
  import opened EventLog
  import Text

  class SimulatorEngine {
    var tick: int
    var pidCounter: int
    var processTable: Table
    const scheduler: RoundRobinScheduler
    var blockedList: seq<int>
    var zombieList: seq<int>
    var cpuBusyTicks: int
    var idleTicks: int
    var autoReapAfter: int
    var eventLogs: seq<LogEntry>

    /** The fields, the scheduler's included, as a value of the model. */
    function State(): Sim
      reads this, scheduler
    {
      Sim(tick, pidCounter, processTable, scheduler.State(), blockedList, zombieList,
          cpuBusyTicks, idleTicks, autoReapAfter)
    }

    /** The class invariant: the model's invariant, and a log of at most 50 entries. */
    ghost predicate Valid()
      reads this, scheduler
    {
      Consistent(State()) && |eventLogs| <= Capacity
    }

    /** `__init__`: the fresh engine, with init created and its creation logged. */
    constructor ()
      ensures State() == Fresh() && Valid()
      ensures fresh(scheduler)
    {
      tick := 0;
      pidCounter := 1;
      processTable := map[];
      scheduler := new RoundRobinScheduler(DefaultQuantum);
      blockedList := [];
      zombieList := [];
      cpuBusyTicks := 0;
      idleTicks := 0;
      autoReapAfter := DefaultAutoReapAfter;
      eventLogs := [];
      new;
      CreateInitProcess();
      FreshConsistent(State());
    }

    /** `_create_init_process`. */
    method CreateInitProcess()
      modifies this
      ensures State() == old(State()).(table := old(processTable)[0 := InitProcess])
      ensures eventLogs == Append(old(eventLogs), LogEntry(tick))
    {
      processTable := processTable[0 := InitProcess];
      LogEvent();
    }

    /** `log_event`: one entry stamped with the current tick; the oldest beyond 50 drops. */
    method LogEvent()
      modifies this
      ensures State() == old(State())
      ensures eventLogs == Append(old(eventLogs), LogEntry(tick))
    {
      eventLogs := Append(eventLogs, LogEntry(tick));
    }

    /** `create_process`; the draws are used only for a missing burst or priority. */
    method CreateProcess(name: Option<string>, burst: Option<int>, parentPid: Option<int>,
                         priority: Option<int>, drawnBurst: int, drawnPriority: int) returns (pid: int)
      requires Valid()
      requires 5 <= drawnBurst <= 15 && 0 <= drawnPriority <= 8
      modifies this
      ensures (State(), pid)
              == SimulatorModel.CreateProcess(old(State()), name, burst, parentPid, priority, drawnBurst, drawnPriority)
      ensures Valid()
    {
      pid := pidCounter;
      pidCounter := pidCounter + 1;
      var n := name.GetOr("P" + Text.IntToString(pid));
      var b := burst.GetOr(drawnBurst);
      var pr := priority.GetOr(drawnPriority);
      var process := Process(pid, n, state := New, totalBurst := b, remainingBurst := b, priority := pr,
                             parentPid := parentPid, createdTick := tick);
      assert process == NewRecord(old(State()), name, burst, parentPid, priority, drawnBurst, drawnPriority);
      processTable := processTable[pid := process];
      if Truthy(parentPid) && parentPid.value in processTable {
        var parent := processTable[parentPid.value];
        processTable := processTable[parentPid.value := parent.(children := parent.children + [pid])];
      }
      assert processTable == Adopt(old(processTable)[pid := process], pid, parentPid);
      assert State() == Admit(old(State()), process);
      LogEvent();
      AppendBounded(old(eventLogs), LogEntry(tick));
      CreatePreserves(old(State()), name, burst, parentPid, priority, drawnBurst, drawnPriority);
    }

    /**
     * `move_new_to_ready`: walks the table in insertion order (ascending pid) and
     * promotes every NEW process; returns how many were promoted.
     */
    method MoveNewToReady() returns (movedCount: int)
      requires Valid()
      modifies this, scheduler
      ensures State() == SimulatorModel.MoveNewToReady(old(State()))
      ensures movedCount == |NewPids(old(processTable), old(pidCounter))|
      ensures Valid()
    {
      movedCount := PromoteNew();
      MovePreserves(old(State()));
    }

    /** The loop of `move_new_to_ready`, over every pid in ascending order. */
    method PromoteNew() returns (movedCount: int)
      requires pidCounter >= 0 && |eventLogs| <= Capacity
      modifies this, scheduler
      ensures State() == PromoteUpTo(old(State()), old(pidCounter))
      ensures movedCount == |NewPids(old(processTable), old(pidCounter))|
      ensures |eventLogs| <= Capacity
    {
      ghost var s := State();
      movedCount := 0;
      var n := pidCounter;
      var pid := 0;
      while pid < n
        invariant 0 <= pid <= n == s.pidCounter
        invariant State() == PromoteUpTo(s, pid)
        invariant movedCount == |NewPids(s.table, pid)|
        invariant |eventLogs| <= Capacity
        decreases n - pid
      {
        PromoteNewStep(s, pid);
        var moved := PromoteIfNew(pid);
        if moved {
          movedCount := movedCount + 1;
        }
        pid := pid + 1;
      }
    }

    /** The body of `move_new_to_ready`'s loop: a NEW process turns READY and is queued. */
    method PromoteIfNew(pid: int) returns (moved: bool)
      requires |eventLogs| <= Capacity
      modifies this, scheduler
      ensures State() == PromoteOne(old(State()), pid)
      ensures moved <==> pid in old(processTable) && old(processTable)[pid].state == New
      ensures |eventLogs| <= Capacity
    {
      moved := false;
      if pid in processTable && processTable[pid].state == New {
        processTable := processTable[pid := processTable[pid].(state := Ready)];
        scheduler.AddToReady(pid);
        moved := true;
        AppendBounded(eventLogs, LogEntry(tick));
        LogEvent();
      }
    }

    /** `force_block_process`; `drawnIo` is used only when no I/O time is given. */
    method ForceBlockProcess(pid: int, ioTime: Option<int>, drawnIo: int) returns (ok: bool)
      requires Valid()
      requires 3 <= drawnIo <= 8
      modifies this, scheduler
      ensures (State(), ok) == ForceBlock(old(State()), pid, ioTime, drawnIo)
      ensures Valid()
    {
      if pid !in processTable || pid == 0 {
        return false;
      }
      var process := processTable[pid];
      if process.state !in {Ready, Running} {
        return false;
      }
      BlockNow(pid, ioTime.GetOr(drawnIo));
      BlockPreserves(old(State()), pid, ioTime, drawnIo);
      return true;
    }

    /** The state change of a forced block: off the CPU, out of the ready queue, onto the blocked list. */
    method BlockNow(pid: int, io: int)
      requires pid in processTable && |eventLogs| <= Capacity
      modifies this, scheduler
      ensures State() == MarkBlocked(old(State()), pid, io)
      ensures |eventLogs| <= Capacity
    {
      ghost var s := State();
      ghost var sc := if s.sched.running == Some(pid) then s.sched.(running := None, quantumUsed := 0) else s.sched;
      var process := processTable[pid];
      if scheduler.currentRunningPid == Some(pid) {
        scheduler.currentRunningPid := None;
        scheduler.currentQuantumUsed := 0;
      }
      assert scheduler.State() == sc;
      scheduler.RemoveFromReady(pid);
      processTable := processTable[pid := process.(state := Blocked, ioRemaining := io,
                                                   blockedCount := process.blockedCount + 1)];
      blockedList := blockedList + [pid];
      assert State() == MarkBlocked(s, pid, io);
      AppendBounded(eventLogs, LogEntry(tick));
      LogEvent();
    }

    /** `_remove_from_queues`. */
    method RemoveFromQueues(pid: int)
      modifies this, scheduler
      ensures State() == SimulatorModel.RemoveFromQueues(old(State()), pid)
      ensures eventLogs == old(eventLogs)
    {
      scheduler.RemoveFromReady(pid);
      if pid in blockedList {
        blockedList := RemoveFirst(blockedList, pid);
      }
      if pid in zombieList {
        zombieList := RemoveFirst(zombieList, pid);
      }
    }

    /**
     * The exit decision that `force_terminate_process` and `_execute_current_process`
     * both apply to a process whose run is over.
     */
    method SettleExit(pid: int)
      requires pid in processTable
      requires |eventLogs| <= Capacity
      modifies this
      ensures State() == Exit(old(State()), pid)
      ensures |eventLogs| <= Capacity
    {
      ghost var s := State();
      var process := processTable[pid];
      if Truthy(process.parentPid) && process.parentPid.value in processTable {
        var parent := processTable[process.parentPid.value];
        if !parent.waitingForChild {
          processTable := processTable[pid := process.(state := Zombie)];
          zombieList := zombieList + [pid];
        } else {
          processTable := processTable[pid := process.(state := Terminated, reaped := true)];
        }
      } else {
        processTable := processTable[pid := process.(state := Terminated)];
      }
      assert State() == Exit(s, pid);
      AppendBounded(eventLogs, LogEntry(tick));
      LogEvent();
    }

    /** `force_terminate_process`. */
    method ForceTerminateProcess(pid: int) returns (ok: bool)
      requires Valid()
      modifies this, scheduler
      ensures (State(), ok) == ForceTerminate(old(State()), pid)
      ensures Valid()
    {
      if pid !in processTable || pid == 0 {
        return false;
      }
      if processTable[pid].state == Terminated {
        return false;
      }
      if scheduler.currentRunningPid == Some(pid) {
        scheduler.currentRunningPid := None;
        scheduler.currentQuantumUsed := 0;
      }
      RemoveFromQueues(pid);
      var process := processTable[pid];
      processTable := processTable[pid := process.(remainingBurst := 0, endTick := Some(tick))];
      assert State() == Detach(old(State()), pid);
      SettleExit(pid);
      TerminatePreserves(old(State()), pid);
      return true;
    }

    /** `wait_for_child`: walks a copy of the parent's children and reaps each ZOMBIE. */
    method WaitForChild(parentPid: int) returns (reapedChildren: seq<int>)
      requires Valid()
      modifies this
      ensures (State(), reapedChildren) == SimulatorModel.WaitForChild(old(State()), parentPid)
      ensures Valid()
    {
      if parentPid !in processTable {
        return [];
      }
      ghost var s := State();
      var kids := processTable[parentPid].children;
      reapedChildren := [];
      var i := 0;
      while i < |kids|
        invariant 0 <= i <= |kids|
        invariant (State(), reapedChildren) == WaitLoop(s, kids[..i])
        invariant |eventLogs| <= Capacity
      {
        reapedChildren := ReapIfZombie(kids[i], reapedChildren);
        WaitLoopStep(s, kids, i);
        i := i + 1;
      }
      assert kids[..|kids|] == kids;
      WaitPreserves(s, parentPid);
    }

    /** The body of `wait_for_child`'s loop: a ZOMBIE child is reaped and collected. */
    method ReapIfZombie(childPid: int, reaped: seq<int>) returns (reaped': seq<int>)
      requires |eventLogs| <= Capacity
      modifies this
      ensures (State(), reaped') == WaitOne(old(State()), reaped, childPid)
      ensures |eventLogs| <= Capacity
    {
      reaped' := reaped;
      if childPid in processTable {
        var child := processTable[childPid];
        if child.state == Zombie {
          processTable := processTable[childPid := child.(state := Terminated, reaped := true)];
          if childPid in zombieList {
            zombieList := RemoveFirst(zombieList, childPid);
          }
          reaped' := reaped + [childPid];
          AppendBounded(eventLogs, LogEntry(tick));
          LogEvent();
        }
      }
    }

    /** `tick_simulation`: the clock advances, then the four phases run in order. */
    method TickSimulation(block: bool, ioTime: int)
      requires Valid()
      requires 2 <= ioTime <= 5
      modifies this, scheduler
      ensures State() == SimulatorModel.TickSimulation(old(State()), block, ioTime)
      ensures Valid()
    {
      tick := tick + 1;
      assert State() == Advance(old(State()));
      HandleBlockedPreserves(State());
      HandleBlockedProcesses();
      MovePreserves(State());
      var _ := MoveNewToReady();
      SchedulePreserves(State(), block, ioTime);
      ScheduleProcesses(block, ioTime);
      if autoReapAfter > 0 {
        AutoReapPreserves(State());
        AutoReapZombies();
      }
    }

    /**
     * `_handle_blocked_processes`: counts down over a copy of the blocked list, then
     * takes every unblocked pid off the list.
     */
    method HandleBlockedProcesses()
      requires |eventLogs| <= Capacity
      modifies this, scheduler
      ensures State() == HandleBlocked(old(State()))
      ensures |eventLogs| <= Capacity
    {
      ghost var s := State();
      var pids := blockedList;
      var unblocked := [];
      var i := 0;
      while i < |pids|
        invariant 0 <= i <= |pids|
        invariant (State(), unblocked) == UnblockLoop(s, pids[..i])
        invariant |eventLogs| <= Capacity
      {
        unblocked := CountDownBlocked(pids[i], unblocked);
        UnblockLoopStep(s, pids, i);
        i := i + 1;
      }
      assert pids[..|pids|] == pids;
      ghost var s1 := State();
      var j := 0;
      while j < |unblocked|
        invariant 0 <= j <= |unblocked|
        invariant State() == s1.(blocked := RemoveAll(s1.blocked, unblocked[..j]))
        invariant |eventLogs| <= Capacity
      {
        assert unblocked[..j + 1][..j] == unblocked[..j] && unblocked[..j + 1][j] == unblocked[j];
        blockedList := RemoveFirst(blockedList, unblocked[j]);
        j := j + 1;
      }
      assert unblocked[..|unblocked|] == unblocked;
    }

    /**
     * The body of `_handle_blocked_processes`' first loop: a positive count drops by one,
     * and a process at zero turns READY, is queued and is collected.
     */
    method CountDownBlocked(pid: int, unblocked: seq<int>) returns (unblocked': seq<int>)
      requires |eventLogs| <= Capacity
      modifies this, scheduler
      ensures (State(), unblocked') == UnblockOne(old(State()), unblocked, pid)
      ensures |eventLogs| <= Capacity
    {
      unblocked' := unblocked;
      if pid in processTable {
        var process := processTable[pid];
        if process.ioRemaining > 0 {
          process := process.(ioRemaining := process.ioRemaining - 1);
        }
        if process.ioRemaining == 0 {
          process := process.(state := Ready);
          processTable := processTable[pid := process];
          scheduler.AddToReady(pid);
          unblocked' := unblocked + [pid];
          AppendBounded(eventLogs, LogEntry(tick));
          LogEvent();
        } else {
          processTable := processTable[pid := process];
        }
      }
    }

    /**
     * `_schedule_processes`: with the CPU free, the head of the queue starts running;
     * then the running process executes, or the tick is idle.
     */
    method ScheduleProcesses(block: bool, ioTime: int)
      requires 2 <= ioTime <= 5
      requires |eventLogs| <= Capacity
      modifies this, scheduler
      ensures State() == SimulatorModel.ScheduleProcesses(old(State()), block, ioTime)
      ensures |eventLogs| <= Capacity
    {
      if scheduler.currentRunningPid.None? {
        var nextPid := scheduler.GetNextProcess();
        if Truthy(nextPid) && nextPid.value in processTable {
          var _, table' := scheduler.SetRunning(nextPid.value, processTable);
          processTable := table';
          var process := processTable[nextPid.value];
          if process.startTick.None? {
            processTable := processTable[nextPid.value := process.(startTick := Some(tick))];
          }
          AppendBounded(eventLogs, LogEntry(tick));
          LogEvent();
        }
      }
      assert State() == Dispatch(old(State()));
      if scheduler.currentRunningPid.Some? {
        ExecuteCurrentProcess(block, ioTime);
      } else {
        idleTicks := idleTicks + 1;
      }
    }

    /**
     * `_execute_current_process`; `block` is the outcome of the block draw and `ioTime`
     * the drawn I/O time.
     */
    method ExecuteCurrentProcess(block: bool, ioTime: int)
      requires scheduler.currentRunningPid.Some?
      requires 2 <= ioTime <= 5
      requires |eventLogs| <= Capacity
      modifies this, scheduler
      ensures State() == ExecuteCurrent(old(State()), block, ioTime)
      ensures |eventLogs| <= Capacity
    {
      var pid := scheduler.currentRunningPid.value;
      if pid !in processTable {
        scheduler.currentRunningPid := None;
        return;
      }
      cpuBusyTicks := cpuBusyTicks + 1;
      scheduler.Tick();
      var process := processTable[pid];
      processTable := processTable[pid := process.(remainingBurst := process.remainingBurst - 1)];
      assert State() == Worked(old(State()));
      if processTable[pid].remainingBurst <= 0 {
        RetireRunning();
        return;
      }
      if block {
        BlockRunning(ioTime);
        return;
      }
      ghost var s1 := State();
      var _, table' := scheduler.PreemptCurrent(processTable);
      processTable := table';
      assert State() == PreemptIfDue(s1);
      if scheduler.currentRunningPid != Some(pid) {
        AppendBounded(eventLogs, LogEntry(tick));
        LogEvent();
      }
    }

    /** A running process whose burst is used up: its end tick is recorded, the CPU freed, and it exits. */
    method RetireRunning()
      requires scheduler.currentRunningPid.Some? && scheduler.currentRunningPid.value in processTable
      requires |eventLogs| <= Capacity
      modifies this, scheduler
      ensures State() == Retire(old(State()))
      ensures |eventLogs| <= Capacity
    {
      var pid := scheduler.currentRunningPid.value;
      var process := processTable[pid];
      processTable := processTable[pid := process.(endTick := Some(tick))];
      scheduler.currentRunningPid := None;
      scheduler.currentQuantumUsed := 0;
      SettleExit(pid);
    }

    /** The running process blocks on I/O for `ioTime` ticks and the CPU is freed. */
    method BlockRunning(ioTime: int)
      requires scheduler.currentRunningPid.Some? && scheduler.currentRunningPid.value in processTable
      requires |eventLogs| <= Capacity
      modifies this, scheduler
      ensures State() == BlockCurrent(old(State()), ioTime)
      ensures |eventLogs| <= Capacity
    {
      var pid := scheduler.currentRunningPid.value;
      var process := processTable[pid];
      processTable := processTable[pid := process.(state := Blocked, ioRemaining := ioTime,
                                                   blockedCount := process.blockedCount + 1)];
      blockedList := blockedList + [pid];
      scheduler.currentRunningPid := None;
      scheduler.currentQuantumUsed := 0;
      AppendBounded(eventLogs, LogEntry(tick));
      LogEvent();
    }

    /** `_auto_reap_zombies`: walks a copy of the zombie list and reaps each zombie that is due. */
    method AutoReapZombies()
      requires |eventLogs| <= Capacity
      modifies this
      ensures State() == SimulatorModel.AutoReapZombies(old(State()))
      ensures |eventLogs| <= Capacity
    {
      ghost var s := State();
      var pids := zombieList;
      var i := 0;
      while i < |pids|
        invariant 0 <= i <= |pids|
        invariant State() == ReapLoop(s, pids[..i])
        invariant |eventLogs| <= Capacity
      {
        ReapIfDue(pids[i]);
        ReapLoopStep(s, pids, i);
        i := i + 1;
      }
      assert pids[..|pids|] == pids;
    }

    /** The body of `_auto_reap_zombies`' loop: a zombie whose age reached the threshold is reaped. */
    method ReapIfDue(pid: int)
      requires |eventLogs| <= Capacity
      modifies this
      ensures State() == ReapOne(old(State()), pid)
      ensures |eventLogs| <= Capacity
    {
      if pid in processTable {
        var process := processTable[pid];
        var zombieAge := tick - process.endTick.GetOr(0);
        if zombieAge >= autoReapAfter {
          processTable := processTable[pid := process.(state := Terminated, reaped := true)];
          zombieList := RemoveFirst(zombieList, pid);
          AppendBounded(eventLogs, LogEntry(tick));
          LogEvent();
        }
      }
    }

    /** `reset`: everything back to a fresh engine; the quantum and the reap threshold stay. */
    method Reset()
      modifies this, scheduler
      ensures State() == ResetEngine(old(State()))
      ensures Valid()
    {
      ghost var s := State();
      tick := 0;
      pidCounter := 1;
      processTable := map[];
      scheduler.Reset();
      assert scheduler.State() == ResetStep(s.sched);
      blockedList := [];
      zombieList := [];
      cpuBusyTicks := 0;
      idleTicks := 0;
      eventLogs := [];
      CreateInitProcess();
      assert processTable == map[0 := InitProcess];
      assert State() == ResetEngine(s);
      FreshConsistent(s);
    }

    /** `set_quantum`: stores `max(1, quantum)`. */
    method SetQuantum(quantum: int)
      requires Valid()
      modifies scheduler
      ensures State() == SimulatorModel.SetQuantum(old(State()), quantum)
      ensures Valid()
    {
      scheduler.quantum := if quantum > 1 then quantum else 1;
      SetQuantumPreserves(old(State()), quantum);
    }
  }
}
