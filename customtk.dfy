/**
 * `SimulatorEngine` of `simulador_procesos_customtk.py` as a class. Each method updates
 * the fields in place, as the source does, and is proved to leave exactly the state
 * that the matching function of `CustomTkModel` computes from the old state; the class
 * invariant `Valid` is the model's `Consistent` plus the bound on the event log.
 */
module CustomTk {
  import opened Wrappers
  import opened Lists
  import opened Lifecycle
  import opened CustomTkModel
  import opened EventLog
  import Text

  class SimulatorEngine {
    var tick: int
    var pidCounter: int
    var processTable: Table
    var readyQueue: seq<int>
    var blockedList: seq<int>
    var zombieList: seq<int>
    var contextSwitches: int
    var cpuBusyTicks: int
    var idleTicks: int
    var quantum: int
    var autoReapAfter: int
    var currentRunningPid: Option<int>
    var currentQuantumUsed: int
    var eventLogs: seq<LogEntry>

    /** The fields as a value of the model. */
    function State(): Sim
      reads this
    {
      Sim(tick, pidCounter, processTable, readyQueue, blockedList, zombieList, contextSwitches,
          cpuBusyTicks, idleTicks, quantum, autoReapAfter, currentRunningPid, currentQuantumUsed)
    }

    /** The class invariant: the model's invariant, and a log of at most 50 entries. */
    ghost predicate Valid()
      reads this
    {
      Consistent(State()) && |eventLogs| <= Capacity
    }

    /** `__init__`: the fresh engine, with init created and its creation logged. */
    constructor ()
      ensures State() == Fresh() && Valid()
    {
      tick := 0;
      pidCounter := 1;
      processTable := map[];
      readyQueue := [];
      blockedList := [];
      zombieList := [];
      contextSwitches := 0;
      cpuBusyTicks := 0;
      idleTicks := 0;
      quantum := DefaultQuantum;
      autoReapAfter := DefaultAutoReapAfter;
      currentRunningPid := None;
      currentQuantumUsed := 0;
      eventLogs := [];
      new;
      CreateInitProcess();
      FreshConsistent();
    }

    /** `_create_init_process`. */
    method CreateInitProcess()
      modifies this
      ensures State() == old(State()).(table := old(processTable)[0 := InitProcess])
      ensures eventLogs == Append(old(eventLogs), LogEntry(tick))
    {
      processTable := processTable[0 := InitProcess];
      LogEvent();
    }

    /** `log_event`: one entry stamped with the current tick; the oldest beyond 50 drops. */
    method LogEvent()
      modifies this
      ensures State() == old(State())
      ensures eventLogs == Append(old(eventLogs), LogEntry(tick))
    {
      eventLogs := Append(eventLogs, LogEntry(tick));
    }

    /** `create_process`; the draw is used only for a missing burst. */
    method CreateProcess(name: Option<string>, burst: Option<int>, parentPid: Option<int>, drawnBurst: int)
      returns (pid: int)
      requires Valid()
      requires 5 <= drawnBurst <= 15
      modifies this
      ensures (State(), pid) == CustomTkModel.CreateProcess(old(State()), name, burst, parentPid, drawnBurst)
      ensures Valid()
    {
      pid := pidCounter;
      pidCounter := pidCounter + 1;
      var n := name.GetOr("P" + Text.IntToString(pid));
      var b := burst.GetOr(drawnBurst);
      var process := Process(pid, n, state := New, totalBurst := b, remainingBurst := b,
                             parentPid := parentPid, createdTick := tick);
      assert process == NewRecord(old(State()), name, burst, parentPid, drawnBurst);
      processTable := processTable[pid := process];
      if Truthy(parentPid) && parentPid.value in processTable {
        var parent := processTable[parentPid.value];
        processTable := processTable[parentPid.value := parent.(children := parent.children + [pid])];
      }
      assert processTable == Adopt(old(processTable)[pid := process], pid, parentPid);
      assert State() == Admit(old(State()), process);
      LogEvent();
      AppendBounded(old(eventLogs), LogEntry(tick));
      CreatePreserves(old(State()), name, burst, parentPid, drawnBurst);
    }

    /**
     * `move_new_to_ready`: walks the table in insertion order (ascending pid) and
     * promotes every NEW process; returns how many were promoted.
     */
    method MoveNewToReady() returns (moved: int)
      requires Valid()
      modifies this
      ensures State() == CustomTkModel.MoveNewToReady(old(State()))
      ensures moved == |NewPids(old(processTable), old(pidCounter))|
      ensures Valid()
    {
      moved := PromoteNew();
      MovePreserves(old(State()));
    }

    /** The loop of `move_new_to_ready`, over every pid in ascending order. */
    method PromoteNew() returns (moved: int)
      requires pidCounter >= 0 && |eventLogs| <= Capacity
      modifies this
      ensures State() == PromoteUpTo(old(State()), old(pidCounter))
      ensures moved == |NewPids(old(processTable), old(pidCounter))|
      ensures |eventLogs| <= Capacity
    {
      ghost var s := State();
      moved := 0;
      var n := pidCounter;
      var pid := 0;
      while pid < n
        invariant 0 <= pid <= n == s.pidCounter
        invariant State() == PromoteUpTo(s, pid)
        invariant moved == |NewPids(s.table, pid)|
        invariant |eventLogs| <= Capacity
        decreases n - pid
      {
        PromoteNewStep(s, pid);
        var promoted := PromoteIfNew(pid);
        if promoted {
          moved := moved + 1;
        }
        pid := pid + 1;
      }
    }

    /** The body of `move_new_to_ready`'s loop: a NEW process turns READY and its pid joins the deque. */
    method PromoteIfNew(pid: int) returns (promoted: bool)
      requires |eventLogs| <= Capacity
      modifies this
      ensures State() == PromoteOne(old(State()), pid)
      ensures promoted <==> pid in old(processTable) && old(processTable)[pid].state == New
      ensures |eventLogs| <= Capacity
    {
      promoted := false;
      if pid in processTable && processTable[pid].state == New {
        var process := processTable[pid];
        processTable := processTable[pid := process.(state := Ready)];
        readyQueue := readyQueue + [process.pid];
        promoted := true;
        AppendBounded(eventLogs, LogEntry(tick));
        LogEvent();
      }
    }

    /** `force_block_process`; `drawnIo` is used only when no I/O time is given. */
    method ForceBlockProcess(pid: int, ioTime: Option<int>, drawnIo: int) returns (ok: bool)
      requires Valid()
      requires 2 <= drawnIo <= 6
      modifies this
      ensures (State(), ok) == ForceBlock(old(State()), pid, ioTime, drawnIo)
      ensures Valid()
    {
      if pid !in processTable {
        return false;
      }
      if processTable[pid].state !in {Ready, Running} {
        return false;
      }
      BlockNow(pid, ioTime.GetOr(drawnIo));
      BlockPreserves(old(State()), pid, ioTime, drawnIo);
      return true;
    }

    /** The state change of a forced block: off the CPU, out of the deque, onto the blocked list. */
    method BlockNow(pid: int, io: int)
      requires pid in processTable && |eventLogs| <= Capacity
      modifies this
      ensures State() == MarkBlocked(old(State()), pid, io)
      ensures |eventLogs| <= Capacity
    {
      ghost var s := State();
      var process := processTable[pid];
      processTable := processTable[pid := process.(state := Blocked, ioRemaining := io,
                                                   blockedCount := process.blockedCount + 1)];
      ReleaseIfRunning(pid);
      DropIfQueued(pid);
      blockedList := blockedList + [pid];
      assert State() == MarkBlocked(s, pid, io);
      AppendBounded(eventLogs, LogEntry(tick));
      LogEvent();
    }

    /** Frees the CPU when `pid` holds it. */
    method ReleaseIfRunning(pid: int)
      modifies this`currentRunningPid, this`currentQuantumUsed
      ensures State() == Release(old(State()), pid)
    {
      if currentRunningPid == Some(pid) {
        currentRunningPid := None;
        currentQuantumUsed := 0;
      }
    }

    /** Removes `pid` from the deque when it is there; the deque is left alone otherwise. */
    method DropIfQueued(pid: int)
      modifies this`readyQueue
      ensures readyQueue == Without(old(readyQueue), pid)
    {
      if pid in readyQueue {
        DropFromReady(pid);
      } else {
        WithoutAbsent(readyQueue, pid);
      }
    }

    /** Drains the deque into a new one that keeps every pid but `pid`, in order. */
    method DropFromReady(pid: int)
      modifies this`readyQueue
      ensures readyQueue == Without(old(readyQueue), pid)
    {
      ghost var q0 := readyQueue;
      var tempQueue := [];
      while readyQueue != []
        invariant Without(q0, pid) == tempQueue + Without(readyQueue, pid)
        decreases |readyQueue|
      {
        var p := readyQueue[0];
        WithoutFront(readyQueue, pid);
        readyQueue := readyQueue[1..];
        if p != pid {
          tempQueue := tempQueue + [p];
        }
      }
      readyQueue := tempQueue;
    }

    /** `_remove_from_queues`. */
    method RemoveFromQueues(pid: int)
      modifies this
      ensures State() == CustomTkModel.RemoveFromQueues(old(State()), pid)
      ensures eventLogs == old(eventLogs)
    {
      DropIfQueued(pid);
      if pid in blockedList {
        blockedList := RemoveFirst(blockedList, pid);
      }
      if pid in zombieList {
        zombieList := RemoveFirst(zombieList, pid);
      }
    }

    /**
     * The exit decision that `force_terminate_process` and `_execute_current_process`
     * both apply to a process whose run is over.
     */
    method SettleExit(pid: int)
      requires pid in processTable
      requires |eventLogs| <= Capacity
      modifies this
      ensures State() == Exit(old(State()), pid)
      ensures |eventLogs| <= Capacity
    {
      ghost var s := State();
      var process := processTable[pid];
      if Truthy(process.parentPid) && process.parentPid.value in processTable {
        var parent := processTable[process.parentPid.value];
        if !parent.waitingForChild {
          processTable := processTable[pid := process.(state := Zombie)];
          zombieList := zombieList + [pid];
        } else {
          processTable := processTable[pid := process.(state := Terminated, reaped := true)];
        }
      } else {
        processTable := processTable[pid := process.(state := Terminated)];
      }
      assert State() == Exit(s, pid);
      AppendBounded(eventLogs, LogEntry(tick));
      LogEvent();
    }

    /** `force_terminate_process`. */
    method ForceTerminateProcess(pid: int) returns (ok: bool)
      requires Valid()
      modifies this
      ensures (State(), ok) == ForceTerminate(old(State()), pid)
      ensures Valid()
    {
      if pid !in processTable || pid == 0 {
        return false;
      }
      if processTable[pid].state == Terminated {
        return false;
      }
      ReleaseIfRunning(pid);
      RemoveFromQueues(pid);
      var process := processTable[pid];
      processTable := processTable[pid := process.(remainingBurst := 0, endTick := Some(tick))];
      assert State() == Detach(old(State()), pid);
      SettleExit(pid);
      TerminatePreserves(old(State()), pid);
      return true;
    }

    /** `wait_for_child`: walks a copy of the parent's children and reaps each ZOMBIE. */
    method WaitForChild(parentPid: int) returns (reapedChildren: seq<int>)
      requires Valid()
      modifies this
      ensures (State(), reapedChildren) == CustomTkModel.WaitForChild(old(State()), parentPid)
      ensures Valid()
    {
      if parentPid !in processTable {
        return [];
      }
      ghost var s := State();
      var kids := processTable[parentPid].children;
      reapedChildren := [];
      var i := 0;
      while i < |kids|
        invariant 0 <= i <= |kids|
        invariant (State(), reapedChildren) == WaitLoop(s, kids[..i])
        invariant |eventLogs| <= Capacity
      {
        reapedChildren := ReapIfZombie(kids[i], reapedChildren);
        WaitLoopStep(s, kids, i);
        i := i + 1;
      }
      assert kids[..|kids|] == kids;
      WaitPreserves(s, parentPid);
    }

    /** The body of `wait_for_child`'s loop: a ZOMBIE child is reaped and collected. */
    method ReapIfZombie(childPid: int, reaped: seq<int>) returns (reaped': seq<int>)
      requires |eventLogs| <= Capacity
      modifies this
      ensures (State(), reaped') == WaitOne(old(State()), reaped, childPid)
      ensures |eventLogs| <= Capacity
    {
      reaped' := reaped;
      if childPid in processTable {
        var child := processTable[childPid];
        if child.state == Zombie {
          processTable := processTable[childPid := child.(state := Terminated, reaped := true)];
          if childPid in zombieList {
            zombieList := RemoveFirst(zombieList, childPid);
          }
          reaped' := reaped + [childPid];
          AppendBounded(eventLogs, LogEntry(tick));
          LogEvent();
        }
      }
    }

    /** `tick_simulation`: the clock advances, then the four phases run in order. */
    method TickSimulation(block: bool, ioTime: int)
      requires Valid()
      requires 2 <= ioTime <= 5
      modifies this
      ensures State() == CustomTkModel.TickSimulation(old(State()), block, ioTime)
      ensures Valid()
    {
      tick := tick + 1;
      assert State() == Advance(old(State()));
      HandleBlockedPreserves(State());
      HandleBlockedProcesses();
      MovePreserves(State());
      var _ := MoveNewToReady();
      SchedulePreserves(State(), block, ioTime);
      ScheduleProcesses(block, ioTime);
      if autoReapAfter > 0 {
        AutoReapPreserves(State());
        AutoReapZombies();
      }
    }

    /**
     * `_handle_blocked_processes`: counts down over a copy of the blocked list, then
     * takes every unblocked pid off the list.
     */
    method HandleBlockedProcesses()
      requires |eventLogs| <= Capacity
      modifies this
      ensures State() == HandleBlocked(old(State()))
      ensures |eventLogs| <= Capacity
    {
      ghost var s := State();
      var pids := blockedList;
      var unblocked := [];
      var i := 0;
      while i < |pids|
        invariant 0 <= i <= |pids|
        invariant (State(), unblocked) == UnblockLoop(s, pids[..i])
        invariant |eventLogs| <= Capacity
      {
        unblocked := CountDownBlocked(pids[i], unblocked);
        UnblockLoopStep(s, pids, i);
        i := i + 1;
      }
      assert pids[..|pids|] == pids;
      ghost var s1 := State();
      var j := 0;
      while j < |unblocked|
        invariant 0 <= j <= |unblocked|
        invariant State() == s1.(blocked := RemoveAll(s1.blocked, unblocked[..j]))
        invariant |eventLogs| <= Capacity
      {
        assert unblocked[..j + 1][..j] == unblocked[..j] && unblocked[..j + 1][j] == unblocked[j];
        blockedList := RemoveFirst(blockedList, unblocked[j]);
        j := j + 1;
      }
      assert unblocked[..|unblocked|] == unblocked;
    }

    /**
     * The body of `_handle_blocked_processes`' first loop: only a positive count drops by
     * one, and a process whose count has just reached zero turns READY, joins the deque
     * and is collected.
     */
    method CountDownBlocked(pid: int, unblocked: seq<int>) returns (unblocked': seq<int>)
      requires |eventLogs| <= Capacity
      modifies this
      ensures (State(), unblocked') == UnblockOne(old(State()), unblocked, pid)
      ensures |eventLogs| <= Capacity
    {
      unblocked' := unblocked;
      if pid in processTable {
        var process := processTable[pid];
        if process.ioRemaining > 0 {
          process := process.(ioRemaining := process.ioRemaining - 1);
          if process.ioRemaining == 0 {
            process := process.(state := Ready);
            processTable := processTable[pid := process];
            readyQueue := readyQueue + [pid];
            unblocked' := unblocked + [pid];
            AppendBounded(eventLogs, LogEntry(tick));
            LogEvent();
          } else {
            processTable := processTable[pid := process];
          }
        }
      }
    }

    /**
     * `_schedule_processes`: with the CPU free, the head of the deque starts running;
     * then the running process executes, or the tick is idle.
     */
    method ScheduleProcesses(block: bool, ioTime: int)
      requires 2 <= ioTime <= 5
      requires |eventLogs| <= Capacity
      modifies this
      ensures State() == CustomTkModel.ScheduleProcesses(old(State()), block, ioTime)
      ensures |eventLogs| <= Capacity
    {
      DispatchNext();
      if currentRunningPid.Some? {
        ExecuteCurrentProcess(block, ioTime);
      } else {
        idleTicks := idleTicks + 1;
      }
    }

    /** The dispatch half of `_schedule_processes`: with the CPU free, pop the head of the deque. */
    method DispatchNext()
      requires |eventLogs| <= Capacity
      modifies this
      ensures State() == Dispatch(old(State()))
      ensures |eventLogs| <= Capacity
    {
      if currentRunningPid.None? && readyQueue != [] {
        ghost var s1 := State().(ready := readyQueue[1..]);
        var pid := readyQueue[0];
        readyQueue := readyQueue[1..];
        assert State() == s1;
        if pid in processTable {
          StartProcess(pid);
        }
      }
    }

    /** The popped process runs: RUNNING, in the slot with a fresh quantum, started now if never before. */
    method StartProcess(pid: int)
      requires pid in processTable && |eventLogs| <= Capacity
      modifies this
      ensures State() == Start(old(State()), pid)
      ensures |eventLogs| <= Capacity
    {
      ghost var s := State();
      var process := processTable[pid];
      process := process.(state := Running);
      currentRunningPid := Some(pid);
      currentQuantumUsed := 0;
      contextSwitches := contextSwitches + 1;
      if process.startTick.None? {
        process := process.(startTick := Some(tick));
      }
      processTable := processTable[pid := process];
      assert State() == Start(s, pid);
      AppendBounded(eventLogs, LogEntry(tick));
      LogEvent();
    }

    /**
     * `_execute_current_process`; `block` is the outcome of the block draw and `ioTime`
     * the drawn I/O time.
     */
    method ExecuteCurrentProcess(block: bool, ioTime: int)
      requires currentRunningPid.Some?
      requires 2 <= ioTime <= 5
      requires |eventLogs| <= Capacity
      modifies this
      ensures State() == ExecuteCurrent(old(State()), block, ioTime)
      ensures |eventLogs| <= Capacity
    {
      var pid := currentRunningPid.value;
      if pid !in processTable {
        currentRunningPid := None;
        return;
      }
      var process := processTable[pid];
      cpuBusyTicks := cpuBusyTicks + 1;
      currentQuantumUsed := currentQuantumUsed + 1;
      processTable := processTable[pid := process.(remainingBurst := process.remainingBurst - 1)];
      assert State() == Worked(old(State()));
      if processTable[pid].remainingBurst <= 0 {
        RetireRunning();
        return;
      }
      if block {
        BlockRunning(ioTime);
        return;
      }
      if currentQuantumUsed >= quantum {
        PreemptRunning();
      }
    }

    /** A running process whose burst is used up: its end tick is recorded, the CPU freed, and it exits. */
    method RetireRunning()
      requires currentRunningPid.Some? && currentRunningPid.value in processTable
      requires |eventLogs| <= Capacity
      modifies this
      ensures State() == Retire(old(State()))
      ensures |eventLogs| <= Capacity
    {
      var pid := currentRunningPid.value;
      var process := processTable[pid];
      processTable := processTable[pid := process.(endTick := Some(tick))];
      currentRunningPid := None;
      currentQuantumUsed := 0;
      SettleExit(pid);
    }

    /** The running process blocks on I/O for `ioTime` ticks and the CPU is freed. */
    method BlockRunning(ioTime: int)
      requires currentRunningPid.Some? && currentRunningPid.value in processTable
      requires |eventLogs| <= Capacity
      modifies this
      ensures State() == BlockCurrent(old(State()), ioTime)
      ensures |eventLogs| <= Capacity
    {
      var pid := currentRunningPid.value;
      var process := processTable[pid];
      processTable := processTable[pid := process.(state := Blocked, ioRemaining := ioTime,
                                                   blockedCount := process.blockedCount + 1)];
      blockedList := blockedList + [pid];
      currentRunningPid := None;
      currentQuantumUsed := 0;
      AppendBounded(eventLogs, LogEntry(tick));
      LogEvent();
    }

    /** The running process used up its quantum: READY again at the tail of the deque. */
    method PreemptRunning()
      requires currentRunningPid.Some? && currentRunningPid.value in processTable
      requires |eventLogs| <= Capacity
      modifies this
      ensures State() == Preempt(old(State()))
      ensures |eventLogs| <= Capacity
    {
      var pid := currentRunningPid.value;
      var process := processTable[pid];
      processTable := processTable[pid := process.(state := Ready, preemptCount := process.preemptCount + 1)];
      readyQueue := readyQueue + [pid];
      currentRunningPid := None;
      currentQuantumUsed := 0;
      contextSwitches := contextSwitches + 1;
      AppendBounded(eventLogs, LogEntry(tick));
      LogEvent();
    }

    /** `_auto_reap_zombies`: walks a copy of the zombie list and reaps each zombie that is due. */
    method AutoReapZombies()
      requires |eventLogs| <= Capacity
      modifies this
      ensures State() == CustomTkModel.AutoReapZombies(old(State()))
      ensures |eventLogs| <= Capacity
    {
      ghost var s := State();
      var pids := zombieList;
      var i := 0;
      while i < |pids|
        invariant 0 <= i <= |pids|
        invariant State() == ReapLoop(s, pids[..i])
        invariant |eventLogs| <= Capacity
      {
        ReapIfDue(pids[i]);
        ReapLoopStep(s, pids, i);
        i := i + 1;
      }
      assert pids[..|pids|] == pids;
    }

    /**
     * The body of `_auto_reap_zombies`' loop: a zombie with a truthy end tick at least
     * the threshold in the past is reaped.
     */
    method ReapIfDue(pid: int)
      requires |eventLogs| <= Capacity
      modifies this
      ensures State() == ReapOne(old(State()), pid)
      ensures |eventLogs| <= Capacity
    {
      if pid in processTable {
        var process := processTable[pid];
        if Truthy(process.endTick) && tick - process.endTick.value >= autoReapAfter {
          processTable := processTable[pid := process.(state := Terminated, reaped := true)];
          zombieList := RemoveFirst(zombieList, pid);
          AppendBounded(eventLogs, LogEntry(tick));
          LogEvent();
        }
      }
    }

    /**
     * `get_metrics`: counts the processes other than init, then sums turnaround and
     * clamped waiting over the TERMINATED ones whose end and creation ticks are truthy.
     */
    method GetMetrics() returns (m: Metrics)
      ensures m == CustomTkModel.GetMetrics(State())
    {
      var terminated := TerminatedBelow(processTable, pidCounter);
      var turnaroundSum, waitingSum, measured := 0, 0, 0;
      var i := 0;
      while i < |terminated|
        invariant 0 <= i <= |terminated|
        invariant (turnaroundSum, waitingSum, measured) == Sums(terminated[..i])
      {
        assert terminated[..i + 1][..i] == terminated[..i];
        var process := terminated[i];
        if Truthy(process.endTick) && process.createdTick != 0 {
          var turnaround := process.endTick.value - process.createdTick;
          turnaroundSum := turnaroundSum + turnaround;
          var waiting := turnaround - process.totalBurst;
          waitingSum := waitingSum + (if waiting > 0 then waiting else 0);
          measured := measured + 1;
        }
        i := i + 1;
      }
      assert terminated[..|terminated|] == terminated;
      m := Metrics(tick, CountOthers(processTable, pidCounter), contextSwitches, |zombieList|,
                   |readyQueue|, |blockedList|, cpuBusyTicks, if tick > 1 then tick else 1,
                   turnaroundSum, waitingSum, measured);
    }
  }
}
