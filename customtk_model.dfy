/**
 * The engine of `simulador_procesos_customtk.py` as functions on its state. This engine
 * keeps its own ready deque, running slot and quantum count instead of a scheduler
 * object, its records carry no priority, and its init process is RUNNING without
 * holding the CPU. Every random draw is a parameter.
 */
module CustomTkModel {
  import opened Wrappers
  import opened Lists
  import opened Lifecycle
  import Text

  /** The burst given to init so that it practically never finishes. */
  const InitBurst: int := 999999
  /** The quantum of a new engine. */
  const DefaultQuantum: int := 3
  /** Ticks a zombie waits before it is reaped automatically. */
  const DefaultAutoReapAfter: int := 10

  /**
   * The `Process` dataclass of this engine. Only `pid` and `name` are required; every
   * other field has the dataclass default.
   */
  datatype Process = Process(
    pid: int,
    name: string,
    state: State := New,
    totalBurst: int := 0,
    remainingBurst: int := 0,
    parentPid: Option<int> := None,
    children: seq<int> := [],
    createdTick: int := 0,
    startTick: Option<int> := None,
    endTick: Option<int> := None,
    blockedCount: int := 0,
    preemptCount: int := 0,
    ioRemaining: int := 0,
    waitingForChild: bool := false,
    reaped: bool := false)

  type Table = map<int, Process>

  /** The engine's fields other than its event log and the two draw probabilities. */
  datatype Sim = Sim(
    tick: int,
    pidCounter: int,
    table: Table,
    ready: seq<int>,
    blocked: seq<int>,
    zombies: seq<int>,
    contextSwitches: int,
    busyTicks: int,
    idleTicks: int,
    quantum: int,
    autoReapAfter: int,
    running: Option<int>,
    quantumUsed: int)

  /** `_create_init_process`: pid 0, RUNNING, with a burst it never exhausts in practice. */
  const InitProcess: Process :=
    Process(0, "init", state := Running, totalBurst := InitBurst, remainingBurst := InitBurst, createdTick := 0)

  /** `__init__`: tick 0, next pid 1, only init in the table, empty lists, nothing running. */
  function Fresh(): Sim {
    Sim(0, 1, map[0 := InitProcess], [], [], [], 0, 0, 0, DefaultQuantum, DefaultAutoReapAfter, None, 0)
  }

  // ----- create_process -----

  /**
   * `create_process`. `drawnBurst` is the draw of `random.randint(5, 15)`, used when no
   * burst is given. The record is stored before the parent is looked up.
   */
  function CreateProcess(s: Sim, name: Option<string>, burst: Option<int>, parentPid: Option<int>,
                         drawnBurst: int): (r: (Sim, int))
    requires 5 <= drawnBurst <= 15
    ensures r.1 == s.pidCounter && r.0.pidCounter == s.pidCounter + 1
    ensures r.0.table.Keys == s.table.Keys + {r.1}
    ensures var p := r.0.table[r.1];
            && p.pid == r.1 && p.state == New && p.parentPid == parentPid
            && p.remainingBurst == p.totalBurst && p.createdTick == s.tick
            && p.totalBurst == (if burst.Some? then burst.value else drawnBurst)
    ensures forall k :: k in s.table && k != r.1 ==>
              r.0.table[k] == s.table[k].(children := r.0.table[k].children)
              && r.0.table[k].children
                 == if Truthy(parentPid) && k == parentPid.value then s.table[k].children + [r.1]
                    else s.table[k].children
  {
    (Admit(s, NewRecord(s, name, burst, parentPid, drawnBurst)), s.pidCounter)
  }

  /** The NEW record `create_process` files under the next pid, stamped with the current tick. */
  function NewRecord(s: Sim, name: Option<string>, burst: Option<int>, parentPid: Option<int>,
                     drawnBurst: int): Process
  {
    var pid := s.pidCounter;
    var b := burst.GetOr(drawnBurst);
    Process(pid, name.GetOr("P" + Text.IntToString(pid)), state := New, totalBurst := b,
            remainingBurst := b, parentPid := parentPid, createdTick := s.tick)
  }

  /** The record is filed under the next pid, the counter advances and the parent adopts it. */
  function Admit(s: Sim, p: Process): Sim {
    s.(pidCounter := s.pidCounter + 1, table := Adopt(s.table[s.pidCounter := p], s.pidCounter, p.parentPid))
  }

  /** The new pid joins its parent's children when the parent pid is truthy and known. */
  function Adopt(t: Table, pid: int, parentPid: Option<int>): Table {
    if Truthy(parentPid) && parentPid.value in t then
      t[parentPid.value := t[parentPid.value].(children := t[parentPid.value].children + [pid])]
    else t
  }

  // ----- move_new_to_ready -----

  /** One iteration of `move_new_to_ready`'s loop: the record's own pid joins the deque. */
  function PromoteOne(s: Sim, k: int): Sim {
    if k in s.table && s.table[k].state == New then
      s.(table := s.table[k := s.table[k].(state := Ready)], ready := s.ready + [s.table[k].pid])
    else s
  }

  /** The loop of `move_new_to_ready` over the pids below `n`, in ascending order. */
  function PromoteUpTo(s: Sim, n: int): (r: Sim)
    ensures r == s.(table := r.table, ready := r.ready)
    ensures r.table.Keys == s.table.Keys
    decreases n
  {
    if n <= 0 then s else PromoteOne(PromoteUpTo(s, n - 1), n - 1)
  }

  /** The NEW pids below `n`, ascending. */
  function NewPids(t: Table, n: int): (r: seq<int>)
    ensures forall x :: x in r <==> 0 <= x < n && x in t && t[x].state == New
    decreases n
  {
    if n <= 0 then []
    else NewPids(t, n - 1) + (if n - 1 in t && t[n - 1].state == New then [n - 1] else [])
  }

  /** `move_new_to_ready`: the table's values in insertion order, which is ascending pid. */
  function MoveNewToReady(s: Sim): Sim {
    PromoteUpTo(s, s.pidCounter)
  }

  // ----- force_block_process -----

  /**
   * `force_block_process`; `drawnIo` is the draw of `random.randint(2, 6)`, used only when
   * no I/O time is given. Unlike the other engine there is no guard for init.
   */
  function ForceBlock(s: Sim, pid: int, ioTime: Option<int>, drawnIo: int): (r: (Sim, bool))
    requires 2 <= drawnIo <= 6
  {
    if pid !in s.table then (s, false)
    else if s.table[pid].state !in {Ready, Running} then (s, false)
    else (MarkBlocked(s, pid, ioTime.GetOr(drawnIo)), true)
  }

  /** A blocked process leaves the CPU and the deque and joins the blocked list. */
  function MarkBlocked(s: Sim, pid: int, io: int): Sim
    requires pid in s.table
  {
    var p := s.table[pid];
    s.(table := s.table[pid := p.(state := Blocked, ioRemaining := io, blockedCount := p.blockedCount + 1)],
       running := if s.running == Some(pid) then None else s.running,
       quantumUsed := if s.running == Some(pid) then 0 else s.quantumUsed,
       ready := Without(s.ready, pid),
       blocked := s.blocked + [pid])
  }

  // ----- force_terminate_process -----

  /** `_remove_from_queues`: out of the deque (every copy), the blocked list and the zombie list. */
  function RemoveFromQueues(s: Sim, pid: int): Sim {
    s.(ready := Without(s.ready, pid), blocked := RemoveFirst(s.blocked, pid), zombies := RemoveFirst(s.zombies, pid))
  }

  /**
   * The exit decision of termination and burst exhaustion: a process with a truthy parent
   * present in the table becomes ZOMBIE (and joins the zombie list) unless that parent is
   * waiting, in which case it is TERMINATED and reaped; any other process is TERMINATED.
   */
  function Exit(s: Sim, pid: int): Sim
    requires pid in s.table
  {
    var p := s.table[pid];
    if Truthy(p.parentPid) && p.parentPid.value in s.table then
      if !s.table[p.parentPid.value].waitingForChild then
        s.(table := s.table[pid := p.(state := Zombie)], zombies := s.zombies + [pid])
      else
        s.(table := s.table[pid := p.(state := Terminated, reaped := true)])
    else
      s.(table := s.table[pid := p.(state := Terminated)])
  }

  /** `force_terminate_process`: fails for an unknown pid, for init and when already TERMINATED. */
  function ForceTerminate(s: Sim, pid: int): (r: (Sim, bool))
  {
    if pid !in s.table || pid == 0 then (s, false)
    else if s.table[pid].state == Terminated then (s, false)
    else (Exit(Detach(s, pid), pid), true)
  }

  /** The CPU is freed when `pid` holds it. */
  function Release(s: Sim, pid: int): Sim {
    if s.running == Some(pid) then s.(running := None, quantumUsed := 0) else s
  }

  /** Termination before the exit decision: slot freed, out of every list, burst zeroed, end tick set. */
  function Detach(s: Sim, pid: int): Sim
    requires pid in s.table
  {
    var s1 := RemoveFromQueues(Release(s, pid), pid);
    s1.(table := s.table[pid := s.table[pid].(remainingBurst := 0, endTick := Some(s.tick))])
  }

  // ----- wait_for_child -----

  /** One iteration of `wait_for_child`'s loop: a ZOMBIE child is reaped and collected. */
  function WaitOne(s: Sim, reaped: seq<int>, c: int): (Sim, seq<int>) {
    if c in s.table && s.table[c].state == Zombie then
      (s.(table := s.table[c := s.table[c].(state := Terminated, reaped := true)],
          zombies := RemoveFirst(s.zombies, c)),
       reaped + [c])
    else (s, reaped)
  }

  /** The loop of `wait_for_child` over `kids`. */
  function WaitLoop(s: Sim, kids: seq<int>): (r: (Sim, seq<int>))
    ensures r.0 == s.(table := r.0.table, zombies := r.0.zombies)
    ensures r.0.table.Keys == s.table.Keys
  {
    if kids == [] then (s, [])
    else
      var (s1, reaped) := WaitLoop(s, kids[..|kids| - 1]);
      WaitOne(s1, reaped, kids[|kids| - 1])
  }

  /** `wait_for_child`: an unknown parent reaps nothing. */
  function WaitForChild(s: Sim, parentPid: int): (Sim, seq<int>)
  {
    if parentPid !in s.table then (s, []) else WaitLoop(s, s.table[parentPid].children)
  }

  // ----- _handle_blocked_processes -----

  /**
   * One iteration of `_handle_blocked_processes`: only a positive count goes down, and
   * only a count that has just reached zero unblocks the process.
   */
  function UnblockOne(s: Sim, unblocked: seq<int>, pid: int): (Sim, seq<int>) {
    if pid !in s.table || s.table[pid].ioRemaining <= 0 then (s, unblocked)
    else
      var p := s.table[pid].(ioRemaining := s.table[pid].ioRemaining - 1);
      if p.ioRemaining == 0 then
        (s.(table := s.table[pid := p.(state := Ready)], ready := s.ready + [pid]), unblocked + [pid])
      else (s.(table := s.table[pid := p]), unblocked)
  }

  /** The first loop of `_handle_blocked_processes`, over a copy of the blocked list. */
  function UnblockLoop(s: Sim, pids: seq<int>): (r: (Sim, seq<int>))
    ensures r.0 == s.(table := r.0.table, ready := r.0.ready)
    ensures r.0.table.Keys == s.table.Keys
  {
    if pids == [] then (s, [])
    else
      var (s1, unblocked) := UnblockLoop(s, pids[..|pids| - 1]);
      UnblockOne(s1, unblocked, pids[|pids| - 1])
  }

  /** `_handle_blocked_processes`: the countdown loop, then every unblocked pid leaves the list. */
  function HandleBlocked(s: Sim): Sim {
    var (s1, unblocked) := UnblockLoop(s, s.blocked);
    s1.(blocked := RemoveAll(s1.blocked, unblocked))
  }

  // ----- _schedule_processes and _execute_current_process -----

  /** The popped pid runs: a fresh quantum, one more context switch, a start tick if it had none. */
  function Start(s: Sim, pid: int): Sim
    requires pid in s.table
  {
    var p := s.table[pid];
    s.(table := s.table[pid := p.(state := Running, startTick := if p.startTick.None? then Some(s.tick) else p.startTick)],
       running := Some(pid), quantumUsed := 0, contextSwitches := s.contextSwitches + 1)
  }

  /** The dispatch half of `_schedule_processes`: with the CPU free, pop the head of the deque. */
  function Dispatch(s: Sim): Sim {
    if s.running.None? && s.ready != [] then
      var pid := s.ready[0];
      var s1 := s.(ready := s.ready[1..]);
      if pid in s.table then Start(s1, pid) else s1
    else s
  }

  /** One unit of work: a busy tick, one more quantum unit, one less burst unit. */
  function Worked(s: Sim): Sim
    requires s.running.Some? && s.running.value in s.table
  {
    var pid := s.running.value;
    s.(busyTicks := s.busyTicks + 1, quantumUsed := s.quantumUsed + 1,
       table := s.table[pid := s.table[pid].(remainingBurst := s.table[pid].remainingBurst - 1)])
  }

  /** A running process whose burst is used up: end tick recorded, slot freed, then the exit decision. */
  function Retire(s: Sim): Sim
    requires s.running.Some? && s.running.value in s.table
  {
    var pid := s.running.value;
    Exit(s.(table := s.table[pid := s.table[pid].(endTick := Some(s.tick))], running := None, quantumUsed := 0), pid)
  }

  /** The running process goes BLOCKED for `ioTime` ticks and the slot is freed. */
  function BlockCurrent(s: Sim, ioTime: int): Sim
    requires s.running.Some? && s.running.value in s.table
  {
    var pid := s.running.value;
    var p := s.table[pid];
    s.(table := s.table[pid := p.(state := Blocked, ioRemaining := ioTime, blockedCount := p.blockedCount + 1)],
       blocked := s.blocked + [pid], running := None, quantumUsed := 0)
  }

  /** The running process used up its quantum: READY again at the tail of the deque. */
  function Preempt(s: Sim): Sim
    requires s.running.Some? && s.running.value in s.table
  {
    var pid := s.running.value;
    var p := s.table[pid];
    s.(table := s.table[pid := p.(state := Ready, preemptCount := p.preemptCount + 1)],
       ready := s.ready + [pid], running := None, quantumUsed := 0, contextSwitches := s.contextSwitches + 1)
  }

  /**
   * `_execute_current_process`; `block` is the outcome of `random.random() < p_block` and
   * `ioTime` the draw of `random.randint(2, 5)`. An unknown running pid only clears the slot.
   */
  function ExecuteCurrent(s: Sim, block: bool, ioTime: int): Sim
    requires s.running.Some?
    requires 2 <= ioTime <= 5
  {
    var pid := s.running.value;
    if pid !in s.table then s.(running := None)
    else
      var s1 := Worked(s);
      if s1.table[pid].remainingBurst <= 0 then Retire(s1)
      else if block then BlockCurrent(s1, ioTime)
      else if s1.quantumUsed >= s1.quantum then Preempt(s1)
      else s1
  }

  /** `_schedule_processes`: dispatch, then execute when a process holds the CPU, else count idle. */
  function ScheduleProcesses(s: Sim, block: bool, ioTime: int): Sim
    requires 2 <= ioTime <= 5
  {
    var s1 := Dispatch(s);
    if s1.running.Some? then ExecuteCurrent(s1, block, ioTime) else s1.(idleTicks := s1.idleTicks + 1)
  }

  // ----- _auto_reap_zombies -----

  /** The reap test of this engine: the end tick must be truthy, so an end tick of 0 never qualifies. */
  predicate DueForReap(s: Sim, p: Process) {
    Truthy(p.endTick) && s.tick - p.endTick.value >= s.autoReapAfter
  }

  /** One iteration of `_auto_reap_zombies`' loop. */
  function ReapOne(s: Sim, pid: int): Sim {
    if pid in s.table && DueForReap(s, s.table[pid]) then
      s.(table := s.table[pid := s.table[pid].(state := Terminated, reaped := true)],
         zombies := RemoveFirst(s.zombies, pid))
    else s
  }

  /** The loop of `_auto_reap_zombies` over a copy of the zombie list. */
  function ReapLoop(s: Sim, pids: seq<int>): (r: Sim)
    ensures r == s.(table := r.table, zombies := r.zombies)
    ensures r.table.Keys == s.table.Keys
  {
    if pids == [] then s else ReapOne(ReapLoop(s, pids[..|pids| - 1]), pids[|pids| - 1])
  }

  /** `_auto_reap_zombies`. */
  function AutoReapZombies(s: Sim): Sim {
    ReapLoop(s, s.zombies)
  }

  // ----- tick_simulation -----

  /** The first phase of a tick: the clock advances by one. */
  function Advance(s: Sim): Sim {
    s.(tick := s.tick + 1)
  }

  /** The last phase of a tick: auto-reap, when enabled. */
  function ReapPhase(s: Sim): Sim {
    if s.autoReapAfter > 0 then AutoReapZombies(s) else s
  }

  /** `tick_simulation`: advance, unblock, admit, schedule, then auto-reap. */
  function TickSimulation(s: Sim, block: bool, ioTime: int): Sim
    requires 2 <= ioTime <= 5
  {
    ReapPhase(ScheduleProcesses(MoveNewToReady(HandleBlocked(Advance(s))), block, ioTime))
  }

  // ----- get_metrics -----

  /**
   * The integer content of `get_metrics`. CPU utilisation is `busyTicks` over
   * `elapsedTicks` (that is `max(tick, 1)`), and each average is a sum over `measured`
   * (zero when nothing is measured).
   */
  datatype Metrics = Metrics(
    tick: int,
    totalProcesses: int,
    contextSwitches: int,
    zombiesCount: int,
    readyQueueSize: int,
    blockedCount: int,
    busyTicks: int,
    elapsedTicks: int,
    turnaroundSum: int,
    waitingSum: int,
    measured: int)

  /** The number of processes below pid `n` whose record is not init's. */
  function CountOthers(t: Table, n: int): (c: nat)
    ensures c <= (if n > 0 then n else 0)
    decreases n
  {
    if n <= 0 then 0 else CountOthers(t, n - 1) + (if n - 1 in t && t[n - 1].pid != 0 then 1 else 0)
  }

  /** The number of processes below pid `n` in state `st`. */
  function CountState(t: Table, n: int, st: State): (c: nat)
    ensures c <= (if n > 0 then n else 0)
    decreases n
  {
    if n <= 0 then 0 else CountState(t, n - 1, st) + (if n - 1 in t && t[n - 1].state == st then 1 else 0)
  }

  /** The TERMINATED processes other than init, in table order. */
  function TerminatedBelow(t: Table, n: int): (r: seq<Process>)
    ensures forall p :: p in r ==> p.state == Terminated && p.pid != 0
    ensures |r| <= CountState(t, n, Terminated)
    decreases n
  {
    if n <= 0 then []
    else
      var k := n - 1;
      TerminatedBelow(t, n - 1) + (if k in t && t[k].state == Terminated && t[k].pid != 0 then [t[k]] else [])
  }

  /** Every TERMINATED process below `n` other than init is among `TerminatedBelow(t, n)`. */
  lemma {:induction false} TerminatedBelowComplete(t: Table, n: int, k: int)
    requires 0 <= k < n && k in t && t[k].state == Terminated && t[k].pid != 0
    ensures t[k] in TerminatedBelow(t, n)
    decreases n
  {
    if k < n - 1 {
      TerminatedBelowComplete(t, n - 1, k);
    }
  }

  /**
   * The number of keys below `n` whose process is TERMINATED, is not init and is
   * measured, counted key by key over the table.
   */
  function CountMeasured(t: Table, n: int): (c: nat)
    ensures c <= CountState(t, n, Terminated)
    decreases n
  {
    if n <= 0 then 0
    else
      var k := n - 1;
      CountMeasured(t, n - 1) + (if k in t && t[k].state == Terminated && t[k].pid != 0 && Measured(t[k]) then 1 else 0)
  }

  /** A process enters the averages only when both its end tick and its creation tick are truthy. */
  predicate Measured(p: Process) {
    Truthy(p.endTick) && p.createdTick != 0
  }

  /** The waiting time of a measured process: turnaround minus total burst, clamped at zero. */
  function ClampedWaiting(p: Process): (w: int)
    requires Measured(p)
    ensures w >= 0 && w >= p.endTick.value - p.createdTick - p.totalBurst
    ensures w == 0 || w == p.endTick.value - p.createdTick - p.totalBurst
  {
    var waiting := p.endTick.value - p.createdTick - p.totalBurst;
    if waiting > 0 then waiting else 0
  }

  /** The turnaround sum, the waiting sum and the number of measured processes of `ps`. */
  function Sums(ps: seq<Process>): (r: (int, int, nat))
    ensures r.2 <= |ps| && r.1 >= 0
  {
    if ps == [] then (0, 0, 0)
    else
      var (tSum, wSum, count) := Sums(ps[..|ps| - 1]);
      var p := ps[|ps| - 1];
      if Measured(p) then (tSum + p.endTick.value - p.createdTick, wSum + ClampedWaiting(p), count + 1)
      else (tSum, wSum, count)
  }

  /** `get_metrics`, on the engine's state; init is left out of the process count. */
  function GetMetrics(s: Sim): (m: Metrics)
    ensures m.elapsedTicks >= 1 && (s.tick >= 1 ==> m.elapsedTicks == s.tick)
    ensures m.readyQueueSize == |s.ready| && m.blockedCount == |s.blocked| && m.zombiesCount == |s.zombies|
    ensures m.waitingSum >= 0
    ensures m.measured <= CountState(s.table, s.pidCounter, Terminated)
  {
    var (tSum, wSum, count) := Sums(TerminatedBelow(s.table, s.pidCounter));
    Metrics(s.tick, CountOthers(s.table, s.pidCounter), s.contextSwitches, |s.zombies|, |s.ready|,
            |s.blocked|, s.busyTicks, if s.tick > 1 then s.tick else 1, tSum, wSum, count)
  }

  // ----- The loops in closed form -----

  /** One more pid considered by `move_new_to_ready`'s loop. */
  lemma PromoteUpToStep(s: Sim, n: int)
    requires n > 0
    ensures PromoteUpTo(s, n) == PromoteOne(PromoteUpTo(s, n - 1), n - 1)
  {
  }

  /** The loop below `n` leaves the pids from `n` on untouched. */
  lemma {:induction false} PromoteKeeps(s: Sim, n: int, x: int)
    requires x >= n && x in s.table
    ensures PromoteUpTo(s, n).table[x] == s.table[x]
    decreases n
  {
    if n > 0 {
      PromoteKeeps(s, n - 1, x);
    }
  }

  /** One more pid adds it at the end exactly when it is NEW. */
  lemma NewPidsStep(t: Table, n: int)
    requires n > 0
    ensures NewPids(t, n) == NewPids(t, n - 1) + (if n - 1 in t && t[n - 1].state == New then [n - 1] else [])
  {
  }

  /**
   * One more pid considered by `move_new_to_ready`'s loop: the state takes one more step,
   * and the pid is counted exactly when the loop so far left it NEW.
   */
  lemma PromoteNewStep(s: Sim, n: int)
    requires n >= 0
    ensures PromoteUpTo(s, n + 1) == PromoteOne(PromoteUpTo(s, n), n)
    ensures var t := PromoteUpTo(s, n).table;
            NewPids(s.table, n + 1) == NewPids(s.table, n) + (if n in t && t[n].state == New then [n] else [])
  {
    PromoteUpToStep(s, n + 1);
    NewPidsStep(s.table, n + 1);
    if n in s.table {
      PromoteKeeps(s, n, n);
    }
  }

  /** `move_new_to_ready`'s loop on the table: every NEW pid below `n` turns READY. */
  lemma {:induction false} PromoteTable(s: Sim, n: int)
    ensures forall k :: k in s.table ==>
              PromoteUpTo(s, n).table[k] == if 0 <= k < n && s.table[k].state == New
                                            then s.table[k].(state := Ready) else s.table[k]
    decreases n
  {
    if n > 0 {
      PromoteTable(s, n - 1);
      var r1, r := PromoteUpTo(s, n - 1), PromoteUpTo(s, n);
      forall k | k in s.table
        ensures r.table[k] == if 0 <= k < n && s.table[k].state == New then s.table[k].(state := Ready)
                              else s.table[k]
      {
        if k != n - 1 {
          assert r.table[k] == r1.table[k];
        }
      }
    }
  }

  /**
   * `move_new_to_ready`'s loop on the deque: when every record is filed under its own
   * pid, the NEW pids below `n` join the tail in ascending order.
   */
  lemma {:induction false} PromoteQueue(s: Sim, n: int)
    requires forall k :: k in s.table ==> s.table[k].pid == k
    ensures PromoteUpTo(s, n).ready == s.ready + NewPids(s.table, n)
    decreases n
  {
    if n > 0 {
      PromoteQueue(s, n - 1);
      var r1 := PromoteUpTo(s, n - 1);
      var x := n - 1;
      var front := NewPids(s.table, x);
      assert r1.ready == s.ready + front;
      if x in s.table && s.table[x].state == New {
        PromoteKeeps(s, x, x);
        assert r1.table[x].pid == x;
        assert PromoteOne(r1, x).ready == r1.ready + [x];
        assert r1.ready + [x] == s.ready + (front + [x]);
      } else {
        if x in s.table {
          PromoteKeeps(s, x, x);
        } else {
          assert x !in r1.table.Keys;
        }
        assert !(x in r1.table && r1.table[x].state == New);
      }
      NewPidsStep(s.table, n);
      PromoteUpToStep(s, n);
    }
  }

  /**
   * `move_new_to_ready` in closed form: every NEW pid below `n` turns READY and joins
   * the tail of the deque in ascending order; nothing else changes.
   */
  lemma PromoteEffect(s: Sim, n: int)
    requires forall k :: k in s.table ==> s.table[k].pid == k
    ensures var r := PromoteUpTo(s, n);
            && r.ready == s.ready + NewPids(s.table, n)
            && forall k :: k in s.table ==>
                 r.table[k] == if 0 <= k < n && s.table[k].state == New then s.table[k].(state := Ready)
                               else s.table[k]
  {
    PromoteTable(s, n);
    PromoteQueue(s, n);
  }

  /** A blocked process after one countdown: only a positive count drops, and READY once it hits zero. */
  function Unblocked(p: Process): (q: Process)
    ensures p.ioRemaining <= 0 ==> q == p
    ensures p.ioRemaining > 0 ==> q.ioRemaining == p.ioRemaining - 1
    ensures q.state == (if p.ioRemaining == 1 then Ready else p.state)
    ensures q == p.(ioRemaining := q.ioRemaining, state := q.state)
  {
    if p.ioRemaining <= 0 then p
    else
      var q := p.(ioRemaining := p.ioRemaining - 1);
      if q.ioRemaining == 0 then q.(state := Ready) else q
  }

  /** The pids of `pids` whose positive count reaches zero now, in order. */
  function ReachedZero(t: Table, pids: seq<int>): (r: seq<int>)
    ensures forall x :: x in r <==> x in pids && x in t && t[x].ioRemaining == 1
    ensures Distinct(pids) ==> Distinct(r)
  {
    if pids == [] then []
    else
      var x := pids[|pids| - 1];
      ReachedZero(t, pids[..|pids| - 1]) + (if x in t && t[x].ioRemaining == 1 then [x] else [])
  }

  /** One more pid considered by the countdown loop. */
  lemma UnblockLoopStep(s: Sim, pids: seq<int>, i: int)
    requires 0 <= i < |pids|
    ensures UnblockLoop(s, pids[..i + 1]) == UnblockOne(UnblockLoop(s, pids[..i]).0, UnblockLoop(s, pids[..i]).1, pids[i])
  {
    assert pids[..i + 1][..i] == pids[..i];
  }

  /** The countdown loop's effect on the table: each listed process counts down once. */
  lemma {:induction false} UnblockTable(s: Sim, pids: seq<int>)
    requires Distinct(pids)
    ensures forall k :: k in s.table ==>
              UnblockLoop(s, pids).0.table[k] == if k in pids then Unblocked(s.table[k]) else s.table[k]
  {
    if pids != [] {
      var pre, x := pids[..|pids| - 1], pids[|pids| - 1];
      DistinctInit(pids);
      UnblockTable(s, pre);
      var s1 := UnblockLoop(s, pre).0;
      var r := UnblockLoop(s, pids).0;
      forall k | k in s.table
        ensures r.table[k] == if k in pids then Unblocked(s.table[k]) else s.table[k]
      {
        if k != x {
          assert r.table[k] == s1.table[k];
        }
      }
    }
  }

  /** The countdown loop's effect on the deque: the pids reaching zero join it in list order. */
  lemma {:induction false} UnblockQueue(s: Sim, pids: seq<int>)
    requires Distinct(pids)
    ensures UnblockLoop(s, pids).1 == ReachedZero(s.table, pids)
    ensures UnblockLoop(s, pids).0.ready == s.ready + ReachedZero(s.table, pids)
  {
    if pids != [] {
      var pre, x := pids[..|pids| - 1], pids[|pids| - 1];
      DistinctInit(pids);
      UnblockQueue(s, pre);
      UnblockTable(s, pre);
      var (s1, unblocked1) := UnblockLoop(s, pre);
      assert x in s1.table <==> x in s.table;
      assert x in s.table ==> s1.table[x] == s.table[x];
      assert UnblockLoop(s, pids) == UnblockOne(s1, unblocked1, x);
      UnblockStep(s1, unblocked1, x);
    }
  }

  /** One iteration of the countdown: the pid is collected and queued exactly when its count is 1. */
  lemma UnblockStep(s: Sim, unblocked: seq<int>, x: int)
    ensures var r := UnblockOne(s, unblocked, x);
            var z := if x in s.table && s.table[x].ioRemaining == 1 then [x] else [];
            r.1 == unblocked + z && r.0.ready == s.ready + z
  {
  }

  /**
   * The countdown loop in closed form: each listed process counts down, those reaching
   * zero turn READY and join the tail of the deque in list order.
   */
  lemma UnblockEffect(s: Sim, pids: seq<int>)
    requires Distinct(pids)
    ensures UnblockLoop(s, pids).1 == ReachedZero(s.table, pids)
    ensures UnblockLoop(s, pids).0.ready == s.ready + ReachedZero(s.table, pids)
    ensures forall k :: k in s.table ==>
              UnblockLoop(s, pids).0.table[k] == if k in pids then Unblocked(s.table[k]) else s.table[k]
  {
    UnblockTable(s, pids);
    UnblockQueue(s, pids);
  }

  /** The children of `kids` that are ZOMBIE in `t`, in order. */
  function ZombieKids(t: Table, kids: seq<int>): (r: seq<int>)
    ensures forall x :: x in r <==> x in kids && x in t && t[x].state == Zombie
  {
    if kids == [] then []
    else
      var x := kids[|kids| - 1];
      ZombieKids(t, kids[..|kids| - 1]) + (if x in t && t[x].state == Zombie then [x] else [])
  }

  /** One more child considered by `wait_for_child`'s loop. */
  lemma WaitLoopStep(s: Sim, kids: seq<int>, i: int)
    requires 0 <= i < |kids|
    ensures WaitLoop(s, kids[..i + 1]) == WaitOne(WaitLoop(s, kids[..i]).0, WaitLoop(s, kids[..i]).1, kids[i])
  {
    assert kids[..i + 1][..i] == kids[..i];
  }

  /**
   * `wait_for_child`'s loop on the table: exactly the listed ZOMBIE children are reaped.
   * A child listed twice is reaped once, its second visit finding it TERMINATED.
   */
  lemma {:induction false} WaitTable(s: Sim, kids: seq<int>)
    ensures forall k :: k in s.table ==>
              WaitLoop(s, kids).0.table[k] == if k in kids && s.table[k].state == Zombie
                                               then s.table[k].(state := Terminated, reaped := true)
                                               else s.table[k]
  {
    if kids != [] {
      var pre, x := kids[..|kids| - 1], kids[|kids| - 1];
      WaitTable(s, pre);
      var r1, r := WaitLoop(s, pre).0, WaitLoop(s, kids).0;
      assert kids == pre + [x];
      forall k | k in s.table
        ensures r.table[k] == if k in kids && s.table[k].state == Zombie
                              then s.table[k].(state := Terminated, reaped := true)
                              else s.table[k]
      {
        if k != x {
          assert r.table[k] == r1.table[k];
        }
      }
    }
  }

  /** `wait_for_child`'s loop on its result and the zombie list, for a duplicate-free children list. */
  lemma {:induction false} WaitReaped(s: Sim, kids: seq<int>)
    requires Distinct(kids)
    ensures var (r, reaped) := WaitLoop(s, kids);
            reaped == ZombieKids(s.table, kids) && r.zombies == RemoveAll(s.zombies, reaped)
  {
    if kids != [] {
      var pre, x := kids[..|kids| - 1], kids[|kids| - 1];
      DistinctInit(kids);
      WaitReaped(s, pre);
      WaitTable(s, pre);
      var (r1, reaped1) := WaitLoop(s, pre);
      assert x in s.table ==> r1.table[x] == s.table[x];
      assert WaitLoop(s, kids) == WaitOne(r1, reaped1, x);
      if x in s.table && s.table[x].state == Zombie {
        assert ZombieKids(s.table, kids) == reaped1 + [x];
        assert (reaped1 + [x])[..|reaped1|] == reaped1;
      } else {
        assert ZombieKids(s.table, kids) == reaped1;
      }
    }
  }

  /** The pids of `pids` due for reaping in `s`, in order. */
  function DuePids(s: Sim, pids: seq<int>): (r: seq<int>)
    ensures forall x :: x in r <==> x in pids && x in s.table && DueForReap(s, s.table[x])
    ensures Distinct(pids) ==> Distinct(r)
  {
    if pids == [] then []
    else
      var x := pids[|pids| - 1];
      DuePids(s, pids[..|pids| - 1]) + (if x in s.table && DueForReap(s, s.table[x]) then [x] else [])
  }

  /** One more zombie considered by the auto-reap loop. */
  lemma ReapLoopStep(s: Sim, pids: seq<int>, i: int)
    requires 0 <= i < |pids|
    ensures ReapLoop(s, pids[..i + 1]) == ReapOne(ReapLoop(s, pids[..i]), pids[i])
  {
    assert pids[..i + 1][..i] == pids[..i];
  }

  /** `_auto_reap_zombies`' loop on the table: exactly the listed processes that are due are reaped. */
  lemma {:induction false} ReapTable(s: Sim, pids: seq<int>)
    requires Distinct(pids)
    ensures forall k :: k in s.table ==>
              ReapLoop(s, pids).table[k] == if k in pids && DueForReap(s, s.table[k])
                                            then s.table[k].(state := Terminated, reaped := true)
                                            else s.table[k]
  {
    if pids != [] {
      var pre, x := pids[..|pids| - 1], pids[|pids| - 1];
      DistinctInit(pids);
      ReapTable(s, pre);
      var r1, r := ReapLoop(s, pre), ReapLoop(s, pids);
      forall k | k in s.table
        ensures r.table[k] == if k in pids && DueForReap(s, s.table[k])
                              then s.table[k].(state := Terminated, reaped := true)
                              else s.table[k]
      {
        if k != x {
          assert r.table[k] == r1.table[k];
        }
      }
    }
  }

  /** `_auto_reap_zombies`' loop on the zombie list: the due pids leave it. */
  lemma {:induction false} ReapZombies(s: Sim, pids: seq<int>)
    requires Distinct(pids)
    ensures ReapLoop(s, pids).zombies == RemoveAll(s.zombies, DuePids(s, pids))
  {
    if pids != [] {
      var pre, x := pids[..|pids| - 1], pids[|pids| - 1];
      DistinctInit(pids);
      ReapZombies(s, pre);
      ReapTable(s, pre);
      var d := DuePids(s, pre);
      assert ReapLoop(s, pre).table.Keys == s.table.Keys;
      if x in s.table && DueForReap(s, s.table[x]) {
        assert DuePids(s, pids) == d + [x];
        assert (d + [x])[..|d + [x]| - 1] == d;
      } else {
        assert DuePids(s, pids) == d;
      }
    }
  }

  /** `_auto_reap_zombies`' loop in closed form. */
  lemma ReapEffect(s: Sim, pids: seq<int>)
    requires Distinct(pids)
    ensures var r := ReapLoop(s, pids);
            && r.zombies == RemoveAll(s.zombies, DuePids(s, pids))
            && forall k :: k in s.table ==>
                 r.table[k] == if k in pids && DueForReap(s, s.table[k])
                               then s.table[k].(state := Terminated, reaped := true)
                               else s.table[k]
  {
    ReapTable(s, pids);
    ReapZombies(s, pids);
  }

  /** `wait_for_child`'s loop in closed form, for a duplicate-free children list. */
  lemma WaitEffect(s: Sim, kids: seq<int>)
    requires Distinct(kids)
    ensures var (r, reaped) := WaitLoop(s, kids);
            && reaped == ZombieKids(s.table, kids)
            && r.zombies == RemoveAll(s.zombies, reaped)
            && forall k :: k in s.table ==>
                 r.table[k] == if k in kids && s.table[k].state == Zombie
                               then s.table[k].(state := Terminated, reaped := true)
                               else s.table[k]
  {
    WaitTable(s, kids);
    WaitReaped(s, kids);
  }

  // ----- The engine's invariant -----

  /** The table holds exactly the pids handed out so far, each filed under its own pid. */
  ghost predicate Dense(s: Sim) {
    && s.pidCounter >= 1
    && (forall k :: k in s.table <==> 0 <= k < s.pidCounter)
    && (forall k :: k in s.table ==> s.table[k].pid == k)
  }

  /** Children lists hold known pids without duplicates. */
  ghost predicate ChildrenKnown(t: Table) {
    && (forall p :: p in t ==> Distinct(t[p].children))
    && (forall p, c :: p in t && c in t[p].children ==> c in t)
  }

  /** The lists and the running slot name known pids. */
  ghost predicate Known(s: Sim) {
    && (forall k :: k in s.ready ==> k in s.table)
    && (forall k :: k in s.blocked ==> k in s.table)
    && (forall k :: k in s.zombies ==> k in s.table)
    && (s.running.Some? ==> s.running.value in s.table)
  }

  /**
   * Every process is where its state says: READY exactly when queued, BLOCKED exactly
   * when in the blocked list, ZOMBIE exactly when in the zombie list; the process in the
   * running slot is RUNNING, and so is no other process but init, which starts RUNNING
   * without the slot.
   */
  ghost predicate Placed(s: Sim) {
    forall k :: k in s.table ==> PlacedAt(s, k)
  }

  /** Process `k` is where its state says. */
  ghost predicate PlacedAt(s: Sim, k: int)
    requires k in s.table
  {
    && (k in s.ready <==> s.table[k].state == Ready)
    && (k in s.blocked <==> s.table[k].state == Blocked)
    && (k in s.zombies <==> s.table[k].state == Zombie)
    && (s.running == Some(k) ==> s.table[k].state == Running)
    && (s.table[k].state == Running && k != 0 ==> s.running == Some(k))
  }

  /** `r` places every process other than `pid` as `s` does, and has no other new pid. */
  ghost predicate SamePlaceBut(s: Sim, r: Sim, pid: int) {
    && (forall k :: k in r.table ==> k in s.table || k == pid)
    && forall k :: k in s.table && k != pid ==>
         && k in r.table && r.table[k].state == s.table[k].state
         && (k in r.ready <==> k in s.ready)
         && (k in r.blocked <==> k in s.blocked)
         && (k in r.zombies <==> k in s.zombies)
         && (r.running == Some(k) <==> s.running == Some(k))
  }

  /** Placement carries over when only `pid` moved and `pid` is placed. */
  lemma PlacedBut(s: Sim, r: Sim, pid: int)
    requires Placed(s) && SamePlaceBut(s, r, pid)
    requires pid in r.table ==> PlacedAt(r, pid)
    ensures Placed(r)
  {
  }

  /** The invariant every engine operation preserves. */
  ghost predicate Consistent(s: Sim) {
    && Dense(s)
    && ChildrenKnown(s.table)
    && Distinct(s.ready) && Distinct(s.blocked) && Distinct(s.zombies)
    && Known(s)
    && Placed(s)
  }

  /** Tables that agree on keys, pids and children lists. */
  ghost predicate SameShape(t: Table, t': Table) {
    && t'.Keys == t.Keys
    && forall k :: k in t ==> t'[k].pid == t[k].pid && t'[k].children == t[k].children
  }

  /** Changing only states and counters keeps the key layout and the children lists. */
  lemma ShapeKept(s: Sim, s': Sim)
    requires Dense(s) && ChildrenKnown(s.table)
    requires SameShape(s.table, s'.table) && s'.pidCounter == s.pidCounter
    ensures Dense(s') && ChildrenKnown(s'.table)
  {
  }

  /** The invariant of a successor with the same shape, from its lists and placement. */
  lemma Rebuilt(s: Sim, r: Sim)
    requires Consistent(s)
    requires SameShape(s.table, r.table) && r.pidCounter == s.pidCounter
    requires Distinct(r.ready) && Distinct(r.blocked) && Distinct(r.zombies)
    requires Known(r) && Placed(r)
    ensures Consistent(r)
  {
    ShapeKept(s, r);
  }

  /**
   * Each process is in at most one of the deque, the two lists and the running slot;
   * init too, for this engine lets it be blocked and queued like any other.
   */
  lemma AtMostOnePlace(s: Sim, k: int)
    requires Consistent(s) && k in s.table
    ensures (if k in s.ready then 1 else 0) + (if k in s.blocked then 1 else 0)
            + (if k in s.zombies then 1 else 0) + (if s.running == Some(k) then 1 else 0) <= 1
  {
    assert PlacedAt(s, k);
  }

  /** A new engine satisfies the invariant. */
  lemma FreshConsistent()
    ensures Consistent(Fresh())
  {
    var s := Fresh();
    assert Placed(s) by {
      forall k | k in s.table
        ensures PlacedAt(s, k)
      {
        assert k == 0;
      }
    }
  }

  /** Registering a fresh pid with its parent keeps children lists known and duplicate-free. */
  lemma AdoptKeepsChildren(t: Table, pid: int, rec: Process)
    requires ChildrenKnown(t) && pid !in t && rec.children == []
    ensures ChildrenKnown(Adopt(t[pid := rec], pid, rec.parentPid))
  {
    var t1 := t[pid := rec];
    assert ChildrenKnown(t1);
    if Truthy(rec.parentPid) && rec.parentPid.value in t1 {
      var q := rec.parentPid.value;
      assert pid !in t1[q].children;
      DistinctConcat(t1[q].children, [pid]);
    }
  }

  /** Adoption changes only a children list. */
  lemma AdoptOnlyChildren(t: Table, pid: int, parentPid: Option<int>)
    ensures var t' := Adopt(t, pid, parentPid);
            && t'.Keys == t.Keys
            && forall k :: k in t ==> t'[k] == t[k].(children := t'[k].children)
  {
  }

  /** Admitting a NEW record under the next pid keeps the invariant. */
  lemma AdmitPreserves(s: Sim, rec: Process)
    requires Consistent(s)
    requires rec.pid == s.pidCounter && rec.state == New && rec.children == []
    ensures Consistent(Admit(s, rec))
  {
    var pid := s.pidCounter;
    var r := Admit(s, rec);
    AdoptKeepsChildren(s.table, pid, rec);
    AdoptOnlyChildren(s.table[pid := rec], pid, rec.parentPid);
    assert r.table[pid].state == New;
    assert SamePlaceBut(s, r, pid);
    PlacedBut(s, r, pid);
    assert Dense(r);
  }

  lemma CreatePreserves(s: Sim, name: Option<string>, burst: Option<int>, parentPid: Option<int>, drawnBurst: int)
    requires Consistent(s)
    requires 5 <= drawnBurst <= 15
    ensures Consistent(CreateProcess(s, name, burst, parentPid, drawnBurst).0)
  {
    AdmitPreserves(s, NewRecord(s, name, burst, parentPid, drawnBurst));
  }

  /** Promotion keeps the lists duplicate-free and known. */
  lemma MoveLists(s: Sim)
    requires Consistent(s)
    ensures var r := MoveNewToReady(s);
            SameShape(s.table, r.table) && r.pidCounter == s.pidCounter
            && Distinct(r.ready) && Distinct(r.blocked) && Distinct(r.zombies) && Known(r)
  {
    PromoteEffect(s, s.pidCounter);
    NewPidsAscending(s.table, s.pidCounter);
    DistinctConcat(s.ready, NewPids(s.table, s.pidCounter));
  }

  /** The NEW pids come in strictly ascending order, so without duplicates. */
  lemma {:induction false} NewPidsAscending(t: Table, n: int)
    ensures Distinct(NewPids(t, n))
    decreases n
  {
    if n > 0 {
      NewPidsAscending(t, n - 1);
      DistinctConcat(NewPids(t, n - 1), if n - 1 in t && t[n - 1].state == New then [n - 1] else []);
    }
  }

  /** Promotion places every NEW process in the deque. */
  lemma MovePlaced(s: Sim)
    requires Consistent(s)
    ensures Placed(MoveNewToReady(s))
  {
    PromoteEffect(s, s.pidCounter);
    var r := MoveNewToReady(s);
    forall k | k in r.table
      ensures PlacedAt(r, k)
    {
      assert PlacedAt(s, k);
    }
  }

  lemma MovePreserves(s: Sim)
    requires Consistent(s)
    ensures Consistent(MoveNewToReady(s))
  {
    MoveLists(s);
    MovePlaced(s);
    Rebuilt(s, MoveNewToReady(s));
  }

  /** Blocking a READY or RUNNING process keeps the invariant. */
  lemma MarkBlockedPreserves(s: Sim, pid: int, io: int)
    requires Consistent(s) && pid in s.table && s.table[pid].state in {Ready, Running}
    ensures Consistent(MarkBlocked(s, pid, io))
  {
    var r := MarkBlocked(s, pid, io);
    ShapeKept(s, r);
    assert PlacedAt(s, pid);
    assert pid !in s.blocked;
    DistinctConcat(s.blocked, [pid]);
    WithoutDistinct(s.ready, pid);
    assert Known(r);
    assert SamePlaceBut(s, r, pid);
    PlacedBut(s, r, pid);
  }

  lemma BlockPreserves(s: Sim, pid: int, ioTime: Option<int>, drawnIo: int)
    requires Consistent(s)
    requires 2 <= drawnIo <= 6
    ensures Consistent(ForceBlock(s, pid, ioTime, drawnIo).0)
  {
    if pid in s.table && s.table[pid].state in {Ready, Running} {
      MarkBlockedPreserves(s, pid, ioTime.GetOr(drawnIo));
    }
  }

  lemma TerminatePreserves(s: Sim, pid: int)
    requires Consistent(s)
    ensures Consistent(ForceTerminate(s, pid).0)
  {
    if pid in s.table && pid != 0 && s.table[pid].state != Terminated {
      DetachLeavesOpen(s, pid);
      ExitPreserves(Detach(s, pid), pid);
    }
  }

  /** Detaching takes `pid` out of every list and keeps the lists duplicate-free. */
  lemma DetachLists(s: Sim, pid: int)
    requires Consistent(s) && pid in s.table
    ensures var r := Detach(s, pid);
            && SameShape(s.table, r.table) && r.pidCounter == s.pidCounter
            && Distinct(r.ready) && Distinct(r.blocked) && Distinct(r.zombies) && Known(r)
            && (forall k :: k != pid ==> (k in r.ready <==> k in s.ready))
            && (forall k :: k != pid ==> (k in r.blocked <==> k in s.blocked))
            && (forall k :: k != pid ==> (k in r.zombies <==> k in s.zombies))
            && pid !in r.ready && pid !in r.blocked && pid !in r.zombies && r.running != Some(pid)
  {
    WithoutDistinct(s.ready, pid);
    RemoveFirstKeepsDistinct(s.blocked, pid);
    RemoveFirstKeepsDistinct(s.zombies, pid);
  }

  /** A detached process is in no list and not running; everything else stays placed. */
  lemma DetachLeavesOpen(s: Sim, pid: int)
    requires Consistent(s) && pid in s.table
    ensures var r := Detach(s, pid);
            && ConsistentBut(r, pid)
            && pid !in r.ready && pid !in r.blocked && pid !in r.zombies && r.running != Some(pid)
  {
    var r := Detach(s, pid);
    DetachLists(s, pid);
    ShapeKept(s, r);
    forall k | k in r.table && k != pid
      ensures PlacedAt(r, k)
    {
      assert PlacedAt(s, k);
    }
  }

  /** The invariant with the placement of `pid` left open. */
  ghost predicate ConsistentBut(s: Sim, pid: int) {
    && pid in s.table
    && Dense(s) && ChildrenKnown(s.table)
    && Distinct(s.ready) && Distinct(s.blocked) && Distinct(s.zombies) && Known(s)
    && forall k :: k in s.table && k != pid ==> PlacedAt(s, k)
  }

  /** A process in no list and not running settles as ZOMBIE (listed) or TERMINATED. */
  lemma Settle(s: Sim, pid: int, state: State, reaped: bool)
    requires ConsistentBut(s, pid)
    requires pid !in s.ready && pid !in s.blocked && pid !in s.zombies && s.running != Some(pid)
    requires state in {Zombie, Terminated}
    ensures Consistent(s.(table := s.table[pid := s.table[pid].(state := state, reaped := reaped)],
                          zombies := if state == Zombie then s.zombies + [pid] else s.zombies))
  {
    var r := s.(table := s.table[pid := s.table[pid].(state := state, reaped := reaped)],
                zombies := if state == Zombie then s.zombies + [pid] else s.zombies);
    ShapeKept(s, r);
    DistinctConcat(s.zombies, [pid]);
    assert Known(r);
    assert Placed(r);
  }

  /** The exit decision restores the invariant for a process in no list and not running. */
  lemma ExitPreserves(s: Sim, pid: int)
    requires ConsistentBut(s, pid)
    requires pid !in s.ready && pid !in s.blocked && pid !in s.zombies && s.running != Some(pid)
    ensures Consistent(Exit(s, pid))
  {
    var p := s.table[pid];
    if Truthy(p.parentPid) && p.parentPid.value in s.table {
      if !s.table[p.parentPid.value].waitingForChild {
        Settle(s, pid, Zombie, p.reaped);
        assert p.(state := Zombie, reaped := p.reaped) == p.(state := Zombie);
      } else {
        Settle(s, pid, Terminated, true);
      }
    } else {
      Settle(s, pid, Terminated, p.reaped);
      assert p.(state := Terminated, reaped := p.reaped) == p.(state := Terminated);
    }
  }

  /** Reaping children keeps the lists duplicate-free and known. */
  lemma WaitLists(s: Sim, kids: seq<int>)
    requires Consistent(s) && Distinct(kids)
    ensures var r := WaitLoop(s, kids).0;
            SameShape(s.table, r.table) && r.pidCounter == s.pidCounter
            && Distinct(r.ready) && Distinct(r.blocked) && Distinct(r.zombies) && Known(r)
  {
    WaitEffect(s, kids);
    RemoveAllDistinct(s.zombies, WaitLoop(s, kids).1);
  }

  /** Reaped children leave the zombie list as they become TERMINATED. */
  lemma WaitPlaced(s: Sim, kids: seq<int>)
    requires Consistent(s) && Distinct(kids)
    ensures Placed(WaitLoop(s, kids).0)
  {
    WaitEffect(s, kids);
    var (r, reaped) := WaitLoop(s, kids);
    RemoveAllDistinct(s.zombies, reaped);
    forall k | k in r.table
      ensures PlacedAt(r, k)
    {
      assert PlacedAt(s, k);
    }
  }

  lemma WaitPreserves(s: Sim, parentPid: int)
    requires Consistent(s)
    ensures Consistent(WaitForChild(s, parentPid).0)
  {
    if parentPid in s.table {
      var kids := s.table[parentPid].children;
      WaitLists(s, kids);
      WaitPlaced(s, kids);
      Rebuilt(s, WaitLoop(s, kids).0);
    }
  }

  /** `_handle_blocked_processes` in closed form, on a consistent state. */
  lemma HandleBlockedEffect(s: Sim)
    requires Consistent(s)
    ensures var r := HandleBlocked(s);
            var z := ReachedZero(s.table, s.blocked);
            && r == s.(table := r.table, ready := s.ready + z, blocked := RemoveAll(s.blocked, z))
            && r.table.Keys == s.table.Keys
            && forall k :: k in s.table ==>
                 r.table[k] == if k in s.blocked then Unblocked(s.table[k]) else s.table[k]
  {
    UnblockEffect(s, s.blocked);
  }

  /** The countdown keeps the lists duplicate-free and known. */
  lemma HandleBlockedLists(s: Sim)
    requires Consistent(s)
    ensures var r := HandleBlocked(s);
            SameShape(s.table, r.table) && r.pidCounter == s.pidCounter
            && Distinct(r.ready) && Distinct(r.blocked) && Distinct(r.zombies) && Known(r)
  {
    HandleBlockedEffect(s);
    var z := ReachedZero(s.table, s.blocked);
    forall x | x in s.ready
      ensures x !in z
    {
      assert PlacedAt(s, x);
    }
    DistinctConcat(s.ready, z);
    RemoveAllDistinct(s.blocked, z);
  }

  /** A process whose positive countdown reaches zero moves from the blocked list to the deque. */
  lemma HandleBlockedPlaced(s: Sim)
    requires Consistent(s)
    ensures Placed(HandleBlocked(s))
  {
    HandleBlockedEffect(s);
    var r := HandleBlocked(s);
    RemoveAllDistinct(s.blocked, ReachedZero(s.table, s.blocked));
    forall k | k in r.table
      ensures PlacedAt(r, k)
    {
      assert PlacedAt(s, k);
    }
  }

  lemma HandleBlockedPreserves(s: Sim)
    requires Consistent(s)
    ensures Consistent(HandleBlocked(s))
  {
    HandleBlockedLists(s);
    HandleBlockedPlaced(s);
    Rebuilt(s, HandleBlocked(s));
  }

  /** Auto-reaping keeps the lists duplicate-free and known. */
  lemma AutoReapLists(s: Sim)
    requires Consistent(s)
    ensures var r := AutoReapZombies(s);
            SameShape(s.table, r.table) && r.pidCounter == s.pidCounter
            && Distinct(r.ready) && Distinct(r.blocked) && Distinct(r.zombies) && Known(r)
  {
    ReapEffect(s, s.zombies);
    RemoveAllDistinct(s.zombies, DuePids(s, s.zombies));
  }

  /** Reaped zombies leave the zombie list as they become TERMINATED. */
  lemma AutoReapPlaced(s: Sim)
    requires Consistent(s)
    ensures Placed(AutoReapZombies(s))
  {
    ReapEffect(s, s.zombies);
    var r := AutoReapZombies(s);
    RemoveAllDistinct(s.zombies, DuePids(s, s.zombies));
    forall k | k in r.table
      ensures PlacedAt(r, k)
    {
      assert PlacedAt(s, k);
    }
  }

  lemma AutoReapPreserves(s: Sim)
    requires Consistent(s)
    ensures Consistent(AutoReapZombies(s))
  {
    AutoReapLists(s);
    AutoReapPlaced(s);
    Rebuilt(s, AutoReapZombies(s));
  }

  /** A unit of work changes no placement. */
  lemma WorkedPreserves(s: Sim)
    requires Consistent(s) && s.running.Some?
    ensures Consistent(Worked(s))
  {
    var pid := s.running.value;
    var r := Worked(s);
    ShapeKept(s, r);
    PlacedBut(s, r, pid);
  }

  /** Retiring the running process keeps the invariant. */
  lemma RetirePreserves(s: Sim)
    requires Consistent(s) && s.running.Some?
    ensures Consistent(Retire(s))
  {
    var pid := s.running.value;
    var s2 := s.(table := s.table[pid := s.table[pid].(endTick := Some(s.tick))], running := None, quantumUsed := 0);
    ShapeKept(s, s2);
    assert PlacedAt(s, pid);
    assert pid !in s.ready && pid !in s.blocked && pid !in s.zombies;
    assert ConsistentBut(s2, pid);
    ExitPreserves(s2, pid);
  }

  /** Blocking the running process keeps the invariant. */
  lemma BlockCurrentPreserves(s: Sim, ioTime: int)
    requires Consistent(s) && s.running.Some?
    ensures Consistent(BlockCurrent(s, ioTime))
  {
    var pid := s.running.value;
    var r := BlockCurrent(s, ioTime);
    ShapeKept(s, r);
    assert PlacedAt(s, pid);
    assert pid !in s.blocked;
    DistinctConcat(s.blocked, [pid]);
    assert Known(r);
    PlacedBut(s, r, pid);
  }

  /** Preempting the running process keeps the invariant. */
  lemma PreemptPreserves(s: Sim)
    requires Consistent(s) && s.running.Some?
    ensures Consistent(Preempt(s))
  {
    var pid := s.running.value;
    var r := Preempt(s);
    ShapeKept(s, r);
    assert PlacedAt(s, pid);
    assert pid !in s.ready;
    DistinctConcat(s.ready, [pid]);
    assert Known(r);
    PlacedBut(s, r, pid);
  }

  lemma ExecutePreserves(s: Sim, block: bool, ioTime: int)
    requires Consistent(s) && s.running.Some?
    requires 2 <= ioTime <= 5
    ensures Consistent(ExecuteCurrent(s, block, ioTime))
  {
    var pid := s.running.value;
    WorkedPreserves(s);
    var s1 := Worked(s);
    if s1.table[pid].remainingBurst <= 0 {
      RetirePreserves(s1);
    } else if block {
      BlockCurrentPreserves(s1, ioTime);
    } else if s1.quantumUsed >= s1.quantum {
      PreemptPreserves(s1);
    }
  }

  lemma DispatchPreserves(s: Sim)
    requires Consistent(s)
    ensures Consistent(Dispatch(s))
  {
    if s.running.None? && s.ready != [] {
      var h := s.ready[0];
      assert h in s.ready;
      assert h in s.table && PlacedAt(s, h);
      var s1 := Dispatch(s);
      ShapeKept(s, s1);
      assert h !in s.ready[1..];
      assert Known(s1);
      assert SamePlaceBut(s, s1, h);
      PlacedBut(s, s1, h);
    }
  }

  lemma SchedulePreserves(s: Sim, block: bool, ioTime: int)
    requires Consistent(s)
    requires 2 <= ioTime <= 5
    ensures Consistent(ScheduleProcesses(s, block, ioTime))
  {
    DispatchPreserves(s);
    if Dispatch(s).running.Some? {
      ExecutePreserves(Dispatch(s), block, ioTime);
    }
  }

  /** The first three phases of a tick (unblock, admit, schedule) keep the invariant. */
  lemma PhasesPreserve(s: Sim, block: bool, ioTime: int)
    requires Consistent(s)
    requires 2 <= ioTime <= 5
    ensures Consistent(ScheduleProcesses(MoveNewToReady(HandleBlocked(Advance(s))), block, ioTime))
  {
    var s1 := HandleBlocked(Advance(s));
    HandleBlockedPreserves(Advance(s));
    MovePreserves(s1);
    SchedulePreserves(MoveNewToReady(s1), block, ioTime);
  }

  /** The last phase of a tick (auto-reap when enabled) keeps the invariant. */
  lemma ReapPhasePreserves(s: Sim)
    requires Consistent(s)
    ensures Consistent(ReapPhase(s))
  {
    if s.autoReapAfter > 0 {
      AutoReapPreserves(s);
    }
  }

  /** A whole `tick_simulation` keeps the invariant. */
  lemma TickPreserves(s: Sim, block: bool, ioTime: int)
    requires Consistent(s)
    requires 2 <= ioTime <= 5
    ensures Consistent(TickSimulation(s, block, ioTime))
  {
    PhasesPreserve(s, block, ioTime);
    ReapPhasePreserves(ScheduleProcesses(MoveNewToReady(HandleBlocked(Advance(s))), block, ioTime));
  }

  // ----- What each operation promises -----

  /** `create_process` hands out a pid that is positive, unused and above every pid in use. */
  lemma CreateFreshPid(s: Sim, name: Option<string>, burst: Option<int>, parentPid: Option<int>, drawnBurst: int)
    requires Consistent(s)
    requires 5 <= drawnBurst <= 15
    ensures var (r, pid) := CreateProcess(s, name, burst, parentPid, drawnBurst);
            && pid >= 1 && pid !in s.table && (forall k :: k in s.table ==> k < pid)
            && r.pidCounter > pid
  {
  }

  /**
   * The exit decision: ZOMBIE exactly when the parent pid is truthy, in the table and
   * not waiting; otherwise TERMINATED, and reaped as well when the parent was waiting.
   */
  lemma ExitDecision(s: Sim, pid: int)
    requires pid in s.table
    ensures var p, r := s.table[pid], Exit(s, pid).table[pid];
            var parentKnown := Truthy(p.parentPid) && p.parentPid.value in s.table;
            && (r.state == Zombie <==> parentKnown && !s.table[p.parentPid.value].waitingForChild)
            && (r.state != Zombie ==> r.state == Terminated)
            && (parentKnown && s.table[p.parentPid.value].waitingForChild ==> r.reaped)
            && r == p.(state := r.state, reaped := r.reaped)
  {
  }

  /**
   * `force_block_process` succeeds exactly for a known process that is READY or
   * RUNNING, init included; it then holds the CPU no longer, is out of the deque, is
   * BLOCKED with the I/O time and one more block, and is the last entry of the blocked list.
   */
  lemma BlockOutcome(s: Sim, pid: int, ioTime: Option<int>, drawnIo: int)
    requires 2 <= drawnIo <= 6
    ensures var (r, ok) := ForceBlock(s, pid, ioTime, drawnIo);
            && (ok <==> pid in s.table && s.table[pid].state in {Ready, Running})
            && (!ok ==> r == s)
            && (ok ==> && r.table[pid].state == Blocked
                       && r.table[pid].ioRemaining == ioTime.GetOr(drawnIo)
                       && r.table[pid].blockedCount == s.table[pid].blockedCount + 1
                       && pid !in r.ready && r.running != Some(pid)
                       && r.blocked == s.blocked + [pid])
            && (ok ==> && r.ready == Without(s.ready, pid)
                       && (s.running == Some(pid) ==> r.quantumUsed == 0)
                       && (s.running != Some(pid) ==> r.running == s.running && r.quantumUsed == s.quantumUsed)
                       && r.contextSwitches == s.contextSwitches && r.quantum == s.quantum
                       && r.zombies == s.zombies && r.tick == s.tick && r.pidCounter == s.pidCounter
                       && r.busyTicks == s.busyTicks && r.idleTicks == s.idleTicks
                       && r.autoReapAfter == s.autoReapAfter)
            && (ok ==> && r.table.Keys == s.table.Keys
                       && r.table[pid].(state := s.table[pid].state, ioRemaining := s.table[pid].ioRemaining,
                                        blockedCount := s.table[pid].blockedCount) == s.table[pid]
                       && forall k :: k in s.table && k != pid ==> r.table[k] == s.table[k])
  {
  }

  /** On a new engine init, RUNNING without the CPU, can be blocked. */
  lemma InitCanBeBlocked(ioTime: Option<int>, drawnIo: int)
    requires 2 <= drawnIo <= 6
    ensures var (r, ok) := ForceBlock(Fresh(), 0, ioTime, drawnIo);
            ok && r.table[0].state == Blocked && r.blocked == [0]
  {
  }

  /**
   * `force_terminate_process` succeeds exactly for a known process other than init that
   * is not TERMINATED; it then has no burst left, ends at the current tick, holds the CPU
   * no longer and is in no list but the zombie list, which it is in exactly as a ZOMBIE.
   */
  lemma TerminateOutcome(s: Sim, pid: int)
    requires Consistent(s)
    ensures var (r, ok) := ForceTerminate(s, pid);
            && (ok <==> pid in s.table && pid != 0 && s.table[pid].state != Terminated)
            && (!ok ==> r == s)
            && (ok ==> && r.table[pid].remainingBurst == 0 && r.table[pid].endTick == Some(s.tick)
                       && r.table[pid].state in {Zombie, Terminated}
                       && pid !in r.ready && pid !in r.blocked && r.running != Some(pid)
                       && (pid in r.zombies <==> r.table[pid].state == Zombie))
  {
    TerminatePreserves(s, pid);
    var (r, ok) := ForceTerminate(s, pid);
    if ok {
      ExitDecision(Detach(s, pid), pid);
      assert PlacedAt(r, pid);
    }
  }

  /**
   * A successful `force_terminate_process` takes the process out of the deque and the
   * blocked list and re-appends it to the zombie list exactly as a ZOMBIE.
   */
  lemma TerminateLists(s: Sim, pid: int)
    requires Distinct(s.blocked) && Distinct(s.zombies)
    ensures var (r, ok) := ForceTerminate(s, pid);
            && (ok ==> && r.ready == Without(s.ready, pid)
                       && r.blocked == Without(s.blocked, pid)
                       && r.zombies == Without(s.zombies, pid) + (if r.table[pid].state == Zombie then [pid] else []))
  {
    var (r, ok) := ForceTerminate(s, pid);
    if ok {
      var d := Detach(s, pid);
      assert r == Exit(d, pid);
      DetachEffect(s, pid);
      ExitEffect(d, pid);
      RemoveFirstDistinct(s.blocked, pid);
      RemoveFirstDistinct(s.zombies, pid);
    }
  }

  /**
   * A successful `force_terminate_process` frees the CPU only if the process held it and
   * changes no other process, counter or field of its record.
   */
  lemma TerminateEffect(s: Sim, pid: int)
    ensures var (r, ok) := ForceTerminate(s, pid);
            && (ok ==> && (s.running == Some(pid) ==> r.quantumUsed == 0)
                       && (s.running != Some(pid) ==> r.running == s.running && r.quantumUsed == s.quantumUsed)
                       && r.contextSwitches == s.contextSwitches && r.quantum == s.quantum
                       && r.tick == s.tick && r.pidCounter == s.pidCounter
                       && r.busyTicks == s.busyTicks && r.idleTicks == s.idleTicks
                       && r.autoReapAfter == s.autoReapAfter)
            && (ok ==> && r.table.Keys == s.table.Keys
                       && r.table[pid].(state := s.table[pid].state, reaped := s.table[pid].reaped,
                                        remainingBurst := s.table[pid].remainingBurst,
                                        endTick := s.table[pid].endTick) == s.table[pid]
                       && forall k :: k in s.table && k != pid ==> r.table[k] == s.table[k])
  {
    var (r, ok) := ForceTerminate(s, pid);
    if ok {
      var d := Detach(s, pid);
      assert r == Exit(d, pid);
      DetachEffect(s, pid);
      ExitEffect(d, pid);
      ExitDecision(d, pid);
      assert d.table[pid] == s.table[pid].(remainingBurst := 0, endTick := Some(s.tick));
    }
  }

  /** The exit decision touches only the exiting record and, for a ZOMBIE, the zombie list's tail. */
  lemma ExitEffect(s: Sim, pid: int)
    requires pid in s.table
    ensures var r := Exit(s, pid);
            && r == s.(table := r.table, zombies := r.zombies)
            && r.zombies == s.zombies + (if r.table[pid].state == Zombie then [pid] else [])
            && r.table.Keys == s.table.Keys
            && forall k :: k in s.table && k != pid ==> r.table[k] == s.table[k]
  {
  }

  /** Detaching frees the slot it holds, takes it off every list and closes its record; nothing else. */
  lemma DetachEffect(s: Sim, pid: int)
    requires pid in s.table
    ensures var r := Detach(s, pid);
            && r == s.(running := r.running, quantumUsed := r.quantumUsed, table := r.table,
                       ready := r.ready, blocked := r.blocked, zombies := r.zombies)
            && r.ready == Without(s.ready, pid)
            && (s.running == Some(pid) ==> r.running == None && r.quantumUsed == 0)
            && (s.running != Some(pid) ==> r.running == s.running && r.quantumUsed == s.quantumUsed)
            && r.blocked == RemoveFirst(s.blocked, pid) && r.zombies == RemoveFirst(s.zombies, pid)
            && r.table == s.table[pid := s.table[pid].(remainingBurst := 0, endTick := Some(s.tick))]
  {
  }

  /**
   * `wait_for_child` returns, in children order, exactly the children that were ZOMBIE;
   * each is now TERMINATED, reaped and off the zombie list, and no other process changes.
   * An unknown parent reaps nothing.
   */
  lemma WaitOutcome(s: Sim, parentPid: int)
    requires Consistent(s)
    ensures var (r, reaped) := WaitForChild(s, parentPid);
            && reaped == (if parentPid in s.table then ZombieKids(s.table, s.table[parentPid].children) else [])
            && (forall c :: c in reaped ==> r.table[c].state == Terminated && r.table[c].reaped && c !in r.zombies)
            && (forall k :: k in s.table && k !in reaped ==> r.table[k] == s.table[k])
  {
    if parentPid in s.table {
      var kids := s.table[parentPid].children;
      WaitEffect(s, kids);
      RemoveAllDistinct(s.zombies, WaitLoop(s, kids).1);
    }
  }

  /**
   * After `move_new_to_ready` no process is NEW: the former NEW processes are READY and
   * have joined the tail of the deque in ascending pid order.
   */
  lemma MoveOutcome(s: Sim)
    requires Consistent(s)
    ensures var r := MoveNewToReady(s);
            && r.ready == s.ready + NewPids(s.table, s.pidCounter)
            && (forall k :: k in r.table ==> r.table[k].state != New)
            && (forall k :: k in s.table && s.table[k].state == New ==> r.table[k].state == Ready)
  {
    PromoteEffect(s, s.pidCounter);
  }

  /**
   * One unit of work on the running process: its burst drops by one and the busy count
   * rises by one. Then a used-up burst retires it (ZOMBIE or TERMINATED, ending at the
   * current tick); otherwise a block draw blocks it for `ioTime`; otherwise it keeps the
   * CPU until its quantum is used, when it goes back to the deque as READY.
   */
  lemma ExecuteOutcome(s: Sim, block: bool, ioTime: int)
    requires Consistent(s) && s.running.Some?
    requires 2 <= ioTime <= 5
    ensures var pid, r := s.running.value, ExecuteCurrent(s, block, ioTime);
            var p, q := s.table[pid], r.table[pid];
            && r.busyTicks == s.busyTicks + 1 && r.idleTicks == s.idleTicks
            && q.remainingBurst == p.remainingBurst - 1
            && (p.remainingBurst <= 1 ==>
                  && q.state in {Zombie, Terminated} && q.endTick == Some(s.tick) && r.running == None
                  && r.zombies == s.zombies + (if q.state == Zombie then [pid] else []))
            && (p.remainingBurst > 1 && block ==>
                  && q.state == Blocked && q.ioRemaining == ioTime && q.blockedCount == p.blockedCount + 1
                  && r.blocked == s.blocked + [pid] && r.running == None)
            && (p.remainingBurst > 1 && !block ==>
                  && (q.state == Ready <==> s.quantumUsed + 1 >= s.quantum)
                  && (q.state == Ready ==> && r.ready == s.ready + [pid] && r.running == None
                                           && q.preemptCount == p.preemptCount + 1
                                           && r.contextSwitches == s.contextSwitches + 1)
                  && (q.state != Ready ==> && q.state == Running && r.running == Some(pid)
                                           && r.quantumUsed == s.quantumUsed + 1))
  {
    var pid := s.running.value;
    assert PlacedAt(s, pid);
    var s1 := Worked(s);
    if s1.table[pid].remainingBurst <= 0 {
      var s2 := s1.(table := s1.table[pid := s1.table[pid].(endTick := Some(s1.tick))], running := None, quantumUsed := 0);
      ExitDecision(s2, pid);
    }
  }

  /**
   * `_handle_blocked_processes`: a blocked process with a positive count counts down
   * once; one whose count then reaches zero is READY, queued and off the blocked list,
   * any other stays BLOCKED there.
   */
  lemma HandleBlockedOutcome(s: Sim)
    requires Consistent(s)
    ensures var r := HandleBlocked(s);
            forall k :: k in s.blocked ==>
              && r.table[k].ioRemaining == (if s.table[k].ioRemaining > 0 then s.table[k].ioRemaining - 1
                                            else s.table[k].ioRemaining)
              && (s.table[k].ioRemaining == 1 ==> r.table[k].state == Ready && k in r.ready && k !in r.blocked)
              && (s.table[k].ioRemaining != 1 ==> r.table[k].state == Blocked && k in r.blocked)
  {
    HandleBlockedEffect(s);
    HandleBlockedPreserves(s);
    var r := HandleBlocked(s);
    forall k | k in s.blocked
      ensures s.table[k].ioRemaining != 1 ==> r.table[k].state == Blocked
    {
      assert PlacedAt(s, k);
    }
    forall k | k in s.blocked
      ensures PlacedAt(r, k)
    {
    }
  }

  /**
   * A process blocked with a count of zero or less is never unblocked: every tick leaves
   * its record and its place in the blocked list as they were.
   */
  lemma NonPositiveIoStaysBlocked(s: Sim, k: int)
    requires Consistent(s) && k in s.blocked && s.table[k].ioRemaining <= 0
    ensures var r := HandleBlocked(s);
            r.table[k] == s.table[k] && k in r.blocked && k !in r.ready
  {
    HandleBlockedEffect(s);
    HandleBlockedPreserves(s);
    assert PlacedAt(s, k);
    assert PlacedAt(HandleBlocked(s), k);
  }

  /**
   * The dispatch step: with the CPU free and the deque non-empty, the head leaves the
   * deque and runs, with one more context switch and a fresh quantum; its start tick is
   * set only when it had none. With the CPU busy nothing changes.
   */
  lemma DispatchOutcome(s: Sim)
    requires Consistent(s)
    ensures var r := Dispatch(s);
            && (s.running.Some? ==> r == s)
            && (s.running.None? && s.ready == [] ==> r == s)
            && (s.running.None? && s.ready != [] ==>
                  var h := s.ready[0];
                  && r.running == Some(h) && r.ready == s.ready[1..]
                  && r.quantumUsed == 0 && r.contextSwitches == s.contextSwitches + 1
                  && r.table[h].state == Running
                  && r.table[h].startTick == (if s.table[h].startTick.None? then Some(s.tick) else s.table[h].startTick))
  {
    if s.running.None? && s.ready != [] {
      assert s.ready[0] in s.ready;
    }
  }

  /** Dispatching touches neither the clock, the counters nor the set of pids. */
  lemma DispatchFrame(s: Sim)
    ensures var r := Dispatch(s);
            && r.tick == s.tick && r.busyTicks == s.busyTicks && r.idleTicks == s.idleTicks
            && r.pidCounter == s.pidCounter && r.table.Keys == s.table.Keys
  {
  }

  /** Executing touches neither the clock nor the set of pids. */
  lemma ExecuteFrame(s: Sim, block: bool, ioTime: int)
    requires s.running.Some? && s.running.value in s.table
    requires 2 <= ioTime <= 5
    ensures var r := ExecuteCurrent(s, block, ioTime);
            && r.tick == s.tick && r.pidCounter == s.pidCounter && r.table.Keys == s.table.Keys
            && forall k :: k in s.table && k != s.running.value ==> r.table[k] == s.table[k]
  {
  }

  /** A scheduling step counts the tick exactly once and keeps the clock and the pids. */
  lemma ScheduleCountsOnce(s: Sim, block: bool, ioTime: int)
    requires Consistent(s)
    requires 2 <= ioTime <= 5
    ensures var r := ScheduleProcesses(s, block, ioTime);
            && r.tick == s.tick
            && r.busyTicks + r.idleTicks == s.busyTicks + s.idleTicks + 1
            && r.pidCounter == s.pidCounter && r.table.Keys == s.table.Keys
  {
    DispatchPreserves(s);
    DispatchFrame(s);
    var s1 := Dispatch(s);
    if s1.running.Some? {
      ExecuteOutcome(s1, block, ioTime);
      ExecuteFrame(s1, block, ioTime);
    }
  }

  /**
   * Every tick counts exactly once, as busy or as idle, and advances the clock by
   * exactly one; no pid is handed out or withdrawn.
   */
  lemma TickOutcome(s: Sim, block: bool, ioTime: int)
    requires Consistent(s)
    requires 2 <= ioTime <= 5
    ensures var r := TickSimulation(s, block, ioTime);
            && r.tick == s.tick + 1
            && r.busyTicks + r.idleTicks == s.busyTicks + s.idleTicks + 1
            && r.pidCounter == s.pidCounter && r.table.Keys == s.table.Keys
  {
    var s1 := MoveNewToReady(HandleBlocked(Advance(s)));
    HandleBlockedPreserves(Advance(s));
    MovePreserves(HandleBlocked(Advance(s)));
    ScheduleCountsOnce(s1, block, ioTime);
  }

  /**
   * `_auto_reap_zombies`: every zombie due for reaping is TERMINATED and reaped, and
   * every process left on the zombie list is a ZOMBIE not yet due.
   */
  lemma AutoReapOutcome(s: Sim)
    requires Consistent(s)
    ensures var r := AutoReapZombies(s);
            && (forall k :: k in s.zombies && DueForReap(s, s.table[k]) ==>
                  r.table[k].state == Terminated && r.table[k].reaped && k !in r.zombies)
            && (forall k :: k in r.zombies ==> k in r.table && r.table[k].state == Zombie && !DueForReap(r, r.table[k]))
  {
    ReapEffect(s, s.zombies);
    RemoveAllDistinct(s.zombies, DuePids(s, s.zombies));
    AutoReapPreserves(s);
  }

  /**
   * A zombie that ended at tick 0 (or has no end tick) is never reaped automatically,
   * however late the clock: the end-tick test is a truthiness test.
   */
  lemma EndTickZeroNeverReaped(s: Sim, k: int)
    requires Consistent(s) && k in s.zombies && s.table[k].endTick.GetOr(0) == 0
    ensures var r := ReapPhase(s);
            r.table[k] == s.table[k] && k in r.zombies
  {
    if s.autoReapAfter > 0 {
      ReapEffect(s, s.zombies);
      RemoveAllDistinct(s.zombies, DuePids(s, s.zombies));
    }
  }

  // ----- What the metrics report -----

  /** Under dense pids every pid but 0 is counted. */
  lemma {:induction false} CountOthersDense(t: Table, n: int)
    requires forall k :: 0 <= k < n ==> k in t && t[k].pid == k
    ensures CountOthers(t, n) == if n > 0 then n - 1 else 0
    decreases n
  {
    if n > 1 {
      CountOthersDense(t, n - 1);
    }
  }

  /**
   * A duplicate-free list holding exactly the processes below `n` in state `st` is as
   * long as their count.
   */
  lemma {:induction false} CountMatchesList(t: Table, n: int, st: State, list: seq<int>)
    requires Distinct(list)
    requires forall k :: k in list <==> 0 <= k < n && k in t && t[k].state == st
    ensures |list| == CountState(t, n, st)
    decreases n
  {
    if n <= 0 {
      DistinctSetSize(list);
      assert (set x | x in list) == {};
    } else {
      var rest := RemoveFirst(list, n - 1);
      RemoveFirstKeepsDistinct(list, n - 1);
      CountMatchesList(t, n - 1, st, rest);
    }
  }

  /** A list holding exactly the known processes in state `st` has their count as length. */
  lemma ListCount(s: Sim, st: State, list: seq<int>)
    requires Dense(s) && Distinct(list)
    requires forall k :: k in list ==> k in s.table
    requires forall k :: k in s.table ==> (k in list <==> s.table[k].state == st)
    ensures |list| == CountState(s.table, s.pidCounter, st)
  {
    CountMatchesList(s.table, s.pidCounter, st, list);
  }

  /** The deque holds exactly the READY processes. */
  lemma ReadyCount(s: Sim)
    requires Consistent(s)
    ensures |s.ready| == CountState(s.table, s.pidCounter, Ready)
  {
    forall k | k in s.table
      ensures k in s.ready <==> s.table[k].state == Ready
    {
      assert PlacedAt(s, k);
    }
    ListCount(s, Ready, s.ready);
  }

  /** The blocked list holds exactly the BLOCKED processes. */
  lemma BlockedCount(s: Sim)
    requires Consistent(s)
    ensures |s.blocked| == CountState(s.table, s.pidCounter, Blocked)
  {
    forall k | k in s.table
      ensures k in s.blocked <==> s.table[k].state == Blocked
    {
      assert PlacedAt(s, k);
    }
    ListCount(s, Blocked, s.blocked);
  }

  /** The zombie list holds exactly the ZOMBIE processes. */
  lemma ZombieCount(s: Sim)
    requires Consistent(s)
    ensures |s.zombies| == CountState(s.table, s.pidCounter, Zombie)
  {
    forall k | k in s.table
      ensures k in s.zombies <==> s.table[k].state == Zombie
    {
      assert PlacedAt(s, k);
    }
    ListCount(s, Zombie, s.zombies);
  }

  /**
   * On a consistent engine the reported sizes agree with the states: the process count
   * is every pid but init's, and the deque, the blocked list and the zombie list hold
   * exactly the READY, BLOCKED and ZOMBIE processes.
   */
  lemma MetricsMatchStates(s: Sim)
    requires Consistent(s)
    ensures var m := GetMetrics(s);
            && m.totalProcesses == s.pidCounter - 1
            && m.readyQueueSize == CountState(s.table, s.pidCounter, Ready)
            && m.blockedCount == CountState(s.table, s.pidCounter, Blocked)
            && m.zombiesCount == CountState(s.table, s.pidCounter, Zombie)
  {
    CountOthersDense(s.table, s.pidCounter);
    ReadyCount(s);
    BlockedCount(s);
    ZombieCount(s);
  }

  /** Appending one process adds its contribution to the sums, and only when it is measured. */
  lemma SumsSnoc(ps: seq<Process>, p: Process)
    ensures Sums(ps + [p]).2 == Sums(ps).2 + (if Measured(p) then 1 else 0)
  {
    assert (ps + [p])[..|ps|] == ps;
  }

  /**
   * The averages range over every TERMINATED process other than init: the number of
   * averaged processes is the number of such processes that are measured, counted over
   * the whole table.
   */
  lemma {:induction false} MeasuredOverTable(t: Table, n: int)
    ensures Sums(TerminatedBelow(t, n)).2 == CountMeasured(t, n)
    decreases n
  {
    if n > 0 {
      var k := n - 1;
      MeasuredOverTable(t, n - 1);
      if k in t && t[k].state == Terminated && t[k].pid != 0 {
        SumsSnoc(TerminatedBelow(t, n - 1), t[k]);
      } else {
        assert TerminatedBelow(t, n) == TerminatedBelow(t, n - 1) + [];
        assert TerminatedBelow(t, n - 1) + [] == TerminatedBelow(t, n - 1);
      }
    }
  }

  /** `get_metrics` averages over exactly the measured TERMINATED processes other than init. */
  lemma MetricsMeasureAll(s: Sim)
    ensures GetMetrics(s).measured == CountMeasured(s.table, s.pidCounter)
  {
    MeasuredOverTable(s.table, s.pidCounter);
  }

  /** Only measured processes enter the sums: processes created at tick 0 never do. */
  lemma {:induction false} UnmeasuredIgnored(ps: seq<Process>)
    requires forall p :: p in ps ==> p.createdTick == 0 || !Truthy(p.endTick)
    ensures Sums(ps) == (0, 0, 0)
  {
    if ps != [] {
      UnmeasuredIgnored(ps[..|ps| - 1]);
      assert ps[|ps| - 1] in ps;
    }
  }

  /**
   * For processes that end no earlier than they were created and have no negative burst,
   * the waiting sum never exceeds the turnaround sum.
   */
  lemma {:induction false} WaitingBoundedByTurnaround(ps: seq<Process>)
    requires forall p :: p in ps ==> p.totalBurst >= 0 && (p.endTick.Some? ==> p.endTick.value >= p.createdTick)
    ensures 0 <= Sums(ps).1 <= Sums(ps).0
  {
    if ps != [] {
      WaitingBoundedByTurnaround(ps[..|ps| - 1]);
      assert ps[|ps| - 1] in ps;
    }
  }

  /** A new engine reports no process, no measured process and an elapsed time of 1. */
  lemma FreshMetrics()
    ensures GetMetrics(Fresh()) == Metrics(0, 0, 0, 0, 0, 0, 0, 1, 0, 0, 0)
  {
    assert TerminatedBelow(Fresh().table, 1) == [];
  }
}
