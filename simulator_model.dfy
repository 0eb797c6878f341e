/**
 * The engine of `src/core/simulator.py` as functions on its state. The scheduler the
 * engine drives is the round-robin scheduler of `RoundRobin`, through exactly the
 * operations the engine calls. Every random draw is a parameter.
 */
module SimulatorModel {
  import opened Wrappers
  import opened Lists
  import opened ProcessModel
  import opened Lifecycle
  import opened RoundRobin
  import Text
  import TreeFormatter

  /** The burst given to init so that it never finishes. */
  const InitBurst: int := 999999
  /** Ticks a zombie waits before it is reaped automatically. */
  const DefaultAutoReapAfter: int := 10
  /** The quantum of a freshly constructed scheduler. */
  const DefaultQuantum: int := 3

  /** The engine's fields other than its event log. */
  datatype Sim = Sim(
    tick: int,
    pidCounter: int,
    table: Table,
    sched: Sched,
    blocked: seq<int>,
    zombies: seq<int>,
    busyTicks: int,
    idleTicks: int,
    autoReapAfter: int)

  /** `_create_init_process`: pid 0, RUNNING, a burst it never exhausts, top priority. */
  const InitProcess: Process :=
    Process(0, "init", state := Running, totalBurst := InitBurst, remainingBurst := InitBurst,
            priority := 0, createdTick := 0)

  /** `__init__`: tick 0, next pid 1, only init in the table, empty lists and counters. */
  function Fresh(): Sim {
    Sim(0, 1, map[0 := InitProcess], Initial(DefaultQuantum), [], [], 0, 0, DefaultAutoReapAfter)
  }

  /**
   * `create_process`. `drawnBurst` and `drawnPriority` are the draws of
   * `random.randint(5, 15)` and `random.randint(0, 8)`, used when no value is given.
   * The record is stored before the parent is looked up.
   */
  function CreateProcess(s: Sim, name: Option<string>, burst: Option<int>, parentPid: Option<int>,
                         priority: Option<int>, drawnBurst: int, drawnPriority: int): (r: (Sim, int))
    requires 5 <= drawnBurst <= 15 && 0 <= drawnPriority <= 8
    ensures r.1 == s.pidCounter && r.0.pidCounter == s.pidCounter + 1
    ensures r.0.table.Keys == s.table.Keys + {r.1}
    ensures var p := r.0.table[r.1];
            && p.pid == r.1 && p.state == New && p.parentPid == parentPid
            && p.remainingBurst == p.totalBurst && p.createdTick == s.tick
            && (burst.Some? ==> p.totalBurst == burst.value)
    ensures forall k :: k in s.table && k != r.1 ==>
              r.0.table[k] == s.table[k].(children := r.0.table[k].children)
              && r.0.table[k].children
                 == if Truthy(parentPid) && k == parentPid.value then s.table[k].children + [r.1]
                    else s.table[k].children
    ensures r.0 == s.(pidCounter := r.0.pidCounter, table := r.0.table)
  {
    (Admit(s, NewRecord(s, name, burst, parentPid, priority, drawnBurst, drawnPriority)), s.pidCounter)
  }

  /** The NEW record `create_process` files under the next pid, stamped with the current tick. */
  function NewRecord(s: Sim, name: Option<string>, burst: Option<int>, parentPid: Option<int>,
                     priority: Option<int>, drawnBurst: int, drawnPriority: int): Process
  {
    var pid := s.pidCounter;
    var b := burst.GetOr(drawnBurst);
    Process(pid, name.GetOr("P" + Text.IntToString(pid)), state := New, totalBurst := b,
            remainingBurst := b, priority := priority.GetOr(drawnPriority),
            parentPid := parentPid, createdTick := s.tick)
  }

  /** The record is filed under the next pid, the counter advances and the parent adopts it. */
  function Admit(s: Sim, p: Process): Sim {
    s.(pidCounter := s.pidCounter + 1, table := Adopt(s.table[s.pidCounter := p], s.pidCounter, p.parentPid))
  }

  /** The new pid joins its parent's children when the parent pid is truthy and known. */
  function Adopt(t: Table, pid: int, parentPid: Option<int>): Table {
    if Truthy(parentPid) && parentPid.value in t then
      t[parentPid.value := t[parentPid.value].(children := t[parentPid.value].children + [pid])]
    else t
  }

  // ----- move_new_to_ready -----

  /** One iteration of `move_new_to_ready`'s loop. */
  function PromoteOne(s: Sim, pid: int): Sim {
    if pid in s.table && s.table[pid].state == New then
      s.(table := s.table[pid := s.table[pid].(state := Ready)], sched := AddToReadyStep(s.sched, pid))
    else s
  }

  /** The loop of `move_new_to_ready` over the pids below `n`, in ascending order. */
  function PromoteUpTo(s: Sim, n: int): (r: Sim)
    ensures r == s.(table := r.table, sched := s.sched.(ready := r.sched.ready))
    ensures r.table.Keys == s.table.Keys
    decreases n
  {
    if n <= 0 then s else PromoteOne(PromoteUpTo(s, n - 1), n - 1)
  }

  /** The NEW pids below `n`, ascending. */
  function NewPids(t: Table, n: int): (r: seq<int>)
    ensures forall x :: x in r <==> 0 <= x < n && x in t && t[x].state == New
    decreases n
  {
    if n <= 0 then []
    else NewPids(t, n - 1) + (if n - 1 in t && t[n - 1].state == New then [n - 1] else [])
  }

  /** The promoted pids come in strictly ascending order, so none repeats. */
  lemma {:induction false} NewPidsAscending(t: Table, n: int)
    ensures forall i, j :: 0 <= i < j < |NewPids(t, n)| ==> NewPids(t, n)[i] < NewPids(t, n)[j]
    ensures Distinct(NewPids(t, n))
    decreases n
  {
    if n > 0 {
      NewPidsAscending(t, n - 1);
      var front := NewPids(t, n - 1);
      forall i | 0 <= i < |front|
        ensures front[i] < n - 1
      {
        assert front[i] in front;
      }
    }
  }

  /**
   * `move_new_to_ready`: the table's keys are exactly the pids below the counter and
   * the table is iterated in insertion order, i.e. ascending pid.
   */
  function MoveNewToReady(s: Sim): Sim {
    PromoteUpTo(s, s.pidCounter)
  }

  // ----- force_block_process -----

  /**
   * `force_block_process`; `drawnIo` is the draw of `random.randint(3, 8)` used when no
   * I/O time is given. Fails for an unknown pid, for init, and outside READY/RUNNING.
   */
  function ForceBlock(s: Sim, pid: int, ioTime: Option<int>, drawnIo: int): (r: (Sim, bool))
    requires 3 <= drawnIo <= 8
  {
    if pid !in s.table || pid == 0 then (s, false)
    else if s.table[pid].state !in {Ready, Running} then (s, false)
    else (MarkBlocked(s, pid, ioTime.GetOr(drawnIo)), true)
  }

  /** A blocked process leaves the CPU and the ready queue and joins the blocked list. */
  function MarkBlocked(s: Sim, pid: int, io: int): Sim
    requires pid in s.table
  {
    var p := s.table[pid];
    var sc := if s.sched.running == Some(pid) then s.sched.(running := None, quantumUsed := 0) else s.sched;
    s.(sched := RemoveFromReadyStep(sc, pid),
       table := s.table[pid := p.(state := Blocked, ioRemaining := io, blockedCount := p.blockedCount + 1)],
       blocked := s.blocked + [pid])
  }

  // ----- force_terminate_process -----

  /** `_remove_from_queues`: out of the ready queue, the blocked list and the zombie list. */
  function RemoveFromQueues(s: Sim, pid: int): Sim {
    s.(sched := RemoveFromReadyStep(s.sched, pid),
       blocked := RemoveFirst(s.blocked, pid),
       zombies := RemoveFirst(s.zombies, pid))
  }

  /**
   * The exit decision shared by termination and burst exhaustion: a process with a
   * truthy parent present in the table becomes ZOMBIE (and joins the zombie list)
   * unless that parent is waiting, in which case it is TERMINATED and reaped; any
   * other process is TERMINATED.
   */
  function Exit(s: Sim, pid: int): Sim
    requires pid in s.table
  {
    var p := s.table[pid];
    if Truthy(p.parentPid) && p.parentPid.value in s.table then
      if !s.table[p.parentPid.value].waitingForChild then
        s.(table := s.table[pid := p.(state := Zombie)], zombies := s.zombies + [pid])
      else
        s.(table := s.table[pid := p.(state := Terminated, reaped := true)])
    else
      s.(table := s.table[pid := p.(state := Terminated)])
  }

  /** `force_terminate_process`: fails for an unknown pid, for init and when already TERMINATED. */
  function ForceTerminate(s: Sim, pid: int): (r: (Sim, bool))
  {
    if pid !in s.table || pid == 0 then (s, false)
    else if s.table[pid].state == Terminated then (s, false)
    else (Exit(Detach(s, pid), pid), true)
  }

  /** Termination before the exit decision: slot freed, out of every list, burst zeroed, end tick set. */
  function Detach(s: Sim, pid: int): Sim
    requires pid in s.table
  {
    var s1 := if s.sched.running == Some(pid) then s.(sched := s.sched.(running := None, quantumUsed := 0)) else s;
    var s2 := RemoveFromQueues(s1, pid);
    s2.(table := s2.table[pid := s2.table[pid].(remainingBurst := 0, endTick := Some(s.tick))])
  }

  // ----- wait_for_child -----

  /** One iteration of `wait_for_child`'s loop: a ZOMBIE child is reaped and collected. */
  function WaitOne(s: Sim, reaped: seq<int>, c: int): (Sim, seq<int>) {
    if c in s.table && s.table[c].state == Zombie then
      (s.(table := s.table[c := s.table[c].(state := Terminated, reaped := true)],
          zombies := RemoveFirst(s.zombies, c)),
       reaped + [c])
    else (s, reaped)
  }

  /** The loop of `wait_for_child` over `kids`: every ZOMBIE child is reaped and collected. */
  function WaitLoop(s: Sim, kids: seq<int>): (r: (Sim, seq<int>))
    ensures r.0 == s.(table := r.0.table, zombies := r.0.zombies)
    ensures r.0.table.Keys == s.table.Keys
  {
    if kids == [] then (s, [])
    else
      var (s1, reaped) := WaitLoop(s, kids[..|kids| - 1]);
      WaitOne(s1, reaped, kids[|kids| - 1])
  }

  /** `wait_for_child`: an unknown parent reaps nothing. */
  function WaitForChild(s: Sim, parentPid: int): (r: (Sim, seq<int>))
  {
    if parentPid !in s.table then (s, []) else WaitLoop(s, s.table[parentPid].children)
  }

  // ----- tick_simulation -----

  /** The I/O countdown of one blocked process: a positive count drops by one. */
  function CountDown(p: Process): Process {
    if p.ioRemaining > 0 then p.(ioRemaining := p.ioRemaining - 1) else p
  }

  /** One iteration of `_handle_blocked_processes`: count down, and unblock at zero. */
  function UnblockOne(s: Sim, unblocked: seq<int>, pid: int): (Sim, seq<int>) {
    if pid !in s.table then (s, unblocked)
    else
      var p := CountDown(s.table[pid]);
      if p.ioRemaining == 0 then
        (s.(table := s.table[pid := p.(state := Ready)], sched := AddToReadyStep(s.sched, pid)),
         unblocked + [pid])
      else (s.(table := s.table[pid := p]), unblocked)
  }

  /** The first loop of `_handle_blocked_processes`, over a copy of the blocked list. */
  function UnblockLoop(s: Sim, pids: seq<int>): (r: (Sim, seq<int>))
    ensures r.0 == s.(table := r.0.table, sched := s.sched.(ready := r.0.sched.ready))
    ensures r.0.table.Keys == s.table.Keys
  {
    if pids == [] then (s, [])
    else
      var (s1, unblocked) := UnblockLoop(s, pids[..|pids| - 1]);
      UnblockOne(s1, unblocked, pids[|pids| - 1])
  }

  /** `_handle_blocked_processes`: the countdown loop, then every unblocked pid leaves the list. */
  function HandleBlocked(s: Sim): Sim {
    var (s1, unblocked) := UnblockLoop(s, s.blocked);
    s1.(blocked := RemoveAll(s1.blocked, unblocked))
  }

  /** The running process after one unit of work, before the outcome is decided. */
  function Worked(s: Sim): Sim
    requires s.sched.running.Some? && s.sched.running.value in s.table
  {
    var pid := s.sched.running.value;
    s.(busyTicks := s.busyTicks + 1, sched := TickStep(s.sched),
       table := s.table[pid := s.table[pid].(remainingBurst := s.table[pid].remainingBurst - 1)])
  }

  /** A running process whose burst is used up: end tick recorded, slot freed, then the exit decision. */
  function Retire(s: Sim): Sim
    requires s.sched.running.Some? && s.sched.running.value in s.table
  {
    var pid := s.sched.running.value;
    Exit(s.(table := s.table[pid := s.table[pid].(endTick := Some(s.tick))],
            sched := s.sched.(running := None, quantumUsed := 0)), pid)
  }

  /** The running process goes BLOCKED for `ioTime` ticks and the slot is freed. */
  function BlockCurrent(s: Sim, ioTime: int): Sim
    requires s.sched.running.Some? && s.sched.running.value in s.table
  {
    var pid := s.sched.running.value;
    var p := s.table[pid];
    s.(table := s.table[pid := p.(state := Blocked, ioRemaining := ioTime, blockedCount := p.blockedCount + 1)],
       blocked := s.blocked + [pid],
       sched := s.sched.(running := None, quantumUsed := 0))
  }

  /** The scheduler's quantum check, applied to the engine's table. */
  function PreemptIfDue(s: Sim): Sim {
    var tr := PreemptStep(s.sched, s.table);
    s.(sched := tr.sched, table := tr.table)
  }

  /**
   * `_execute_current_process`; `block` is the outcome of `random.random() < p_block`
   * and `ioTime` the draw of `random.randint(2, 5)`. An unknown running pid only
   * clears the slot.
   */
  function ExecuteCurrent(s: Sim, block: bool, ioTime: int): Sim
    requires s.sched.running.Some?
    requires 2 <= ioTime <= 5
  {
    var pid := s.sched.running.value;
    if pid !in s.table then s.(sched := s.sched.(running := None))
    else
      var s1 := Worked(s);
      if s1.table[pid].remainingBurst <= 0 then Retire(s1)
      else if block then BlockCurrent(s1, ioTime)
      else PreemptIfDue(s1)
  }

  /** The dispatch half of `_schedule_processes`: with the CPU free, start the head of the queue. */
  function Dispatch(s: Sim): Sim {
    if s.sched.running.None? then
      var (sc, next) := GetNextStep(s.sched);
      if Truthy(next) && next.value in s.table then
        var tr := SetRunningStep(sc, s.table, next.value);
        var p := tr.table[next.value];
        s.(sched := tr.sched,
           table := tr.table[next.value := if p.startTick.None? then p.(startTick := Some(s.tick)) else p])
      else s.(sched := sc)
    else s
  }

  /**
   * `_schedule_processes`: with the slot free, the head of the queue is dequeued and,
   * when it is a truthy pid in the table, set running (its start tick recorded the first
   * time); then the running process executes, or the tick counts as idle.
   */
  function ScheduleProcesses(s: Sim, block: bool, ioTime: int): Sim
    requires 2 <= ioTime <= 5
  {
    var s1 := Dispatch(s);
    if s1.sched.running.Some? then ExecuteCurrent(s1, block, ioTime)
    else s1.(idleTicks := s1.idleTicks + 1)
  }

  /** A zombie whose age `tick - (end_tick or 0)` has reached the threshold. */
  predicate DueForReap(s: Sim, p: Process) {
    s.tick - p.endTick.GetOr(0) >= s.autoReapAfter
  }

  /** One iteration of `_auto_reap_zombies`' loop: a zombie that is due is reaped. */
  function ReapOne(s: Sim, pid: int): Sim {
    if pid in s.table && DueForReap(s, s.table[pid]) then
      s.(table := s.table[pid := s.table[pid].(state := Terminated, reaped := true)],
         zombies := RemoveFirst(s.zombies, pid))
    else s
  }

  /** The loop of `_auto_reap_zombies` over a copy of the zombie list. */
  function ReapLoop(s: Sim, pids: seq<int>): (r: Sim)
    ensures r == s.(table := r.table, zombies := r.zombies)
    ensures r.table.Keys == s.table.Keys
  {
    if pids == [] then s else ReapOne(ReapLoop(s, pids[..|pids| - 1]), pids[|pids| - 1])
  }

  /** `_auto_reap_zombies`. */
  function AutoReapZombies(s: Sim): Sim {
    ReapLoop(s, s.zombies)
  }

  /** The first phase of a tick: the clock advances by one. */
  function Advance(s: Sim): (r: Sim)
    ensures r.tick == s.tick + 1
    ensures r.(tick := s.tick) == s
  {
    s.(tick := s.tick + 1)
  }

  /** The last phase of a tick: auto-reap only when enabled. */
  function ReapPhase(s: Sim): Sim {
    if s.autoReapAfter > 0 then AutoReapZombies(s) else s
  }

  /**
   * `tick_simulation`: the clock advances, then blocked processes count down, NEW
   * processes are promoted, one scheduling step runs and, when enabled, zombies are reaped.
   */
  function TickSimulation(s: Sim, block: bool, ioTime: int): Sim
    requires 2 <= ioTime <= 5
  {
    ReapPhase(ScheduleProcesses(MoveNewToReady(HandleBlocked(Advance(s))), block, ioTime))
  }

  /** `reset`: back to the initial state; the quantum and the reap threshold are kept. */
  function ResetEngine(s: Sim): (r: Sim)
    ensures r == Fresh().(sched := Initial(s.sched.quantum), autoReapAfter := s.autoReapAfter)
  {
    Sim(0, 1, map[0 := InitProcess], ResetStep(s.sched), [], [], 0, 0, s.autoReapAfter)
  }

  /** `set_quantum`: the quantum is at least 1. */
  function SetQuantum(s: Sim, quantum: int): (r: Sim)
    ensures r.sched.quantum >= 1 && (quantum >= 1 ==> r.sched.quantum == quantum)
    ensures quantum < 1 ==> r.sched.quantum == 1
    ensures r == s.(sched := s.sched.(quantum := r.sched.quantum))
  {
    s.(sched := s.sched.(quantum := if quantum > 1 then quantum else 1))
  }

  // ----- get_process_tree -----

  /**
   * `_build_subtree`: the empty dict for an unknown pid, otherwise the process and a
   * subtree for each listed child, keyed by child pid in list order.
   */
  function BuildSubtree(t: Table, k: int): (r: TreeFormatter.Subtree)
    requires TreeFormatter.ParentLinked(t)
    requires k in t ==> !TreeFormatter.IsSelfParent(t, k)
    ensures r.Missing? <==> k !in t
    ensures k in t ==> r.process == t[k] && |r.children| == |t[k].children|
                       && forall i :: 0 <= i < |r.children| ==> r.children[i].0 == t[k].children[i]
    decreases TreeFormatter.Above(t, k), 1
  {
    if k !in t then TreeFormatter.Missing
    else TreeFormatter.Node(t[k], BuildKids(t, k, t[k].children))
  }

  /** The loop over `process.children` in `_build_subtree`. */
  function BuildKids(t: Table, k: int, kids: seq<int>): (r: seq<(int, TreeFormatter.Subtree)>)
    requires TreeFormatter.ParentLinked(t) && k in t && !TreeFormatter.IsSelfParent(t, k)
    requires forall c :: c in kids ==> c in t[k].children
    ensures |r| == |kids| && forall i :: 0 <= i < |r| ==> r[i].0 == kids[i]
    decreases TreeFormatter.Above(t, k), 0, |kids|
  {
    if kids == [] then []
    else
      var c := kids[|kids| - 1];
      var front := BuildKids(t, k, kids[..|kids| - 1]);
      if c in t then
        assert c > k && c in TreeFormatter.Above(t, k) && c !in TreeFormatter.Above(t, c);
        front + [(c, BuildSubtree(t, c))]
      else front + [(c, TreeFormatter.Missing)]
  }

  /**
   * Each entry of the loop over `kids` is the subtree of that child: the empty dict for an
   * unknown child, otherwise the child's own subtree.
   */
  lemma {:induction false} BuildKidsEntries(t: Table, k: int, kids: seq<int>)
    requires TreeFormatter.ParentLinked(t) && k in t && !TreeFormatter.IsSelfParent(t, k)
    requires forall c :: c in kids ==> c in t[k].children
    ensures var r := BuildKids(t, k, kids);
            forall i :: 0 <= i < |r| ==>
              && (r[i].1.Missing? <==> kids[i] !in t)
              && (kids[i] in t ==> !TreeFormatter.IsSelfParent(t, kids[i]) && r[i].1 == BuildSubtree(t, kids[i]))
    decreases |kids|
  {
    if kids != [] {
      var front := kids[..|kids| - 1];
      BuildKidsEntries(t, k, front);
      var c := kids[|kids| - 1];
      if c in t {
        assert c > k && t[c].parentPid == Some(k);
      }
    }
  }

  /**
   * `_build_subtree` all the way down: under a known process, the entry of each listed child
   * is the empty dict when the child is unknown, and otherwise the child's own subtree,
   * holding the child's record.
   */
  lemma SubtreeChildren(t: Table, k: int)
    requires TreeFormatter.ParentLinked(t) && k in t && !TreeFormatter.IsSelfParent(t, k)
    ensures var r := BuildSubtree(t, k);
            forall i :: 0 <= i < |r.children| ==>
              var c := t[k].children[i];
              && r.children[i].0 == c
              && (r.children[i].1.Missing? <==> c !in t)
              && (c in t ==> !TreeFormatter.IsSelfParent(t, c) && r.children[i].1 == BuildSubtree(t, c)
                             && r.children[i].1.process == t[c])
  {
    BuildKidsEntries(t, k, t[k].children);
  }

  /** The roots among the pids below `n`, ascending: no parent, or a parent not in the table. */
  function RootsBelow(t: Table, n: int): (r: seq<int>)
    ensures forall k :: k in r <==> 0 <= k < n && k in t && TreeFormatter.IsRoot(t, k)
    decreases n
  {
    if n <= 0 then []
    else RootsBelow(t, n - 1) + (if n - 1 in t && TreeFormatter.IsRoot(t, n - 1) then [n - 1] else [])
  }

  /**
   * `get_process_tree`: a subtree for every root, keyed by its pid, in the table's
   * iteration order (ascending pid, as the table's keys are the pids below the counter).
   */
  function GetProcessTree(s: Sim): (r: seq<(int, TreeFormatter.Subtree)>)
    requires TreeFormatter.ParentLinked(s.table)
    ensures forall k :: (exists i :: 0 <= i < |r| && r[i].0 == k) <==>
              0 <= k < s.pidCounter && k in s.table && TreeFormatter.IsRoot(s.table, k)
    ensures forall i :: 0 <= i < |r| ==> r[i].1.Node? && r[i].1.process == s.table[r[i].0]
    ensures forall i :: 0 <= i < |r| ==>
              r[i].0 in s.table && TreeFormatter.IsRoot(s.table, r[i].0) && r[i].1 == BuildSubtree(s.table, r[i].0)
  {
    var roots := RootsBelow(s.table, s.pidCounter);
    var r := seq(|roots|, i requires 0 <= i < |roots| => (roots[i], BuildSubtree(s.table, roots[i])));
    assert forall k :: k in roots ==> exists i :: 0 <= i < |r| && r[i].0 == k by {
      forall k | k in roots
        ensures exists i :: 0 <= i < |r| && r[i].0 == k
      {
        var i := TreeFormatter.IndexOf(roots, k);
        assert r[i].0 == k;
      }
    }
    r
  }

  /** The roots come in strictly ascending pid order. */
  lemma {:induction false} RootsAscending(t: Table, n: int)
    ensures forall i, j :: 0 <= i < j < |RootsBelow(t, n)| ==> RootsBelow(t, n)[i] < RootsBelow(t, n)[j]
    decreases n
  {
    if n > 0 {
      RootsAscending(t, n - 1);
      var front := RootsBelow(t, n - 1);
      forall i | 0 <= i < |front|
        ensures front[i] < n - 1
      {
        assert front[i] in front;
      }
    }
  }

  /** The roots below `n` are those the hierarchy builder finds when iterating `0 .. n-1`. */
  lemma {:induction false} RootsMatchHierarchy(t: Table, n: int)
    requires forall k :: 0 <= k < n ==> k in t
    ensures TreeFormatter.RootKeys(t, PidOrder(n)) == RootsBelow(t, n)
    decreases n
  {
    if n <= 0 {
      assert PidOrder(n) == [];
    } else {
      RootsMatchHierarchy(t, n - 1);
      TreeFormatter.RootKeysStep(t, PidOrder(n - 1), n - 1);
    }
  }

  /** In the engine's tree, init is the first root. */
  lemma InitFirstRoot(s: Sim)
    requires Consistent(s)
    ensures var tree := GetProcessTree(s);
            tree != [] && tree[0] == (0, BuildSubtree(s.table, 0))
  {
    RootsAscending(s.table, s.pidCounter);
    var roots := RootsBelow(s.table, s.pidCounter);
    assert 0 in roots;
    var j := TreeFormatter.IndexOf(roots, 0);
  }

  /**
   * A process created with parent 0 is in neither tree: 0 is a known pid, so the process
   * is no root, and the falsy parent never adopted it, so no process lists it as a child.
   */
  lemma ParentZeroOutsideTree(s: Sim, k: int)
    requires Consistent(s) && k in s.table && s.table[k].parentPid == Some(0)
    ensures forall i :: 0 <= i < |GetProcessTree(s)| ==> GetProcessTree(s)[i].0 != k
    ensures forall p :: p in s.table ==> k !in s.table[p].children
  {
  }

  /**
   * The engine's tree lists its roots in the same order, with the same pids, as the
   * nodes of `get_process_hierarchy` on the same table.
   */
  lemma TreeRootsMatchHierarchy(s: Sim, rank: map<int, nat>)
    requires Dense(s) && TreeFormatter.ParentLinked(s.table) && TreeFormatter.Ranked(s.table, rank)
    ensures var tree := GetProcessTree(s);
            var h := TreeFormatter.GetProcessHierarchy(s.table, rank, PidOrder(s.pidCounter));
            |tree| == |h| && forall i :: 0 <= i < |tree| ==> tree[i].0 == h[i].pid
  {
    var t, n := s.table, s.pidCounter;
    RootsMatchHierarchy(t, n);
    var roots := RootsBelow(t, n);
    var h := TreeFormatter.GetProcessHierarchy(t, rank, PidOrder(n));
    var tree := GetProcessTree(s);
    assert |tree| == |roots| == |h|;
    forall i | 0 <= i < |tree|
      ensures tree[i].0 == h[i].pid
    {
      assert tree[i].0 == roots[i];
      assert h[i] == TreeFormatter.BuildNode(t, rank, roots[i]);
    }
  }

  // ----- get_metrics -----

  /**
   * The integer content of `get_metrics`. CPU utilisation is `busyTicks` over
   * `elapsedTicks` (that is `max(1, tick)`), and each average is a sum over a count
   * (zero when the count is zero).
   */
  datatype Metrics = Metrics(
    tick: int,
    totalProcesses: int,
    running: int,
    ready: int,
    blocked: int,
    zombie: int,
    terminated: int,
    contextSwitches: int,
    busyTicks: int,
    elapsedTicks: int,
    turnaroundSum: int,
    turnaroundCount: int,
    waitingSum: int,
    waitingCount: int)

  /** The number of processes below pid `n` in state `st`. */
  function CountState(t: Table, n: int, st: State): (c: nat)
    ensures c <= (if n > 0 then n else 0)
    decreases n
  {
    if n <= 0 then 0 else CountState(t, n - 1, st) + (if n - 1 in t && t[n - 1].state == st then 1 else 0)
  }

  /** The finished processes other than init, in table order. */
  function FinishedBelow(t: Table, n: int): (r: seq<Process>)
    ensures forall p :: p in r ==> IsFinished(p) && p.pid != 0
    decreases n
  {
    if n <= 0 then []
    else
      var k := n - 1;
      FinishedBelow(t, n - 1) + (if k in t && IsFinished(t[k]) && t[k].pid != 0 then [t[k]] else [])
  }

  /** Every finished process below `n` other than init is among `FinishedBelow(t, n)`. */
  lemma {:induction false} FinishedBelowComplete(t: Table, n: int, k: int)
    requires 0 <= k < n && k in t && IsFinished(t[k]) && t[k].pid != 0
    ensures t[k] in FinishedBelow(t, n)
    decreases n
  {
    if k < n - 1 {
      FinishedBelowComplete(t, n - 1, k);
    }
  }

  /** The sum and the number of the defined values of `f` over `ps`. */
  function Totals(ps: seq<Process>, f: Process -> Option<int>): (r: (int, nat))
    ensures r.1 <= |ps|
    ensures (forall p :: p in ps ==> f(p).None?) ==> r == (0, 0)
  {
    if ps == [] then (0, 0)
    else
      var (sum, count) := Totals(ps[..|ps| - 1], f);
      var v := f(ps[|ps| - 1]);
      if v.Some? then (sum + v.value, count + 1) else (sum, count)
  }

  /** `get_metrics`, on the engine's state. */
  function GetMetrics(s: Sim): (m: Metrics)
    ensures m.elapsedTicks >= 1 && (s.tick >= 1 ==> m.elapsedTicks == s.tick)
    ensures m.ready == |s.sched.ready| && m.blocked == |s.blocked| && m.zombie == |s.zombies|
  {
    var finished := FinishedBelow(s.table, s.pidCounter);
    var (tSum, tCount) := Totals(finished, TurnaroundTime);
    var (wSum, wCount) := Totals(finished, WaitingTime);
    Metrics(s.tick, |s.table|, CountState(s.table, s.pidCounter, Running), |s.sched.ready|,
            |s.blocked|, |s.zombies|, CountState(s.table, s.pidCounter, Terminated),
            s.sched.contextSwitches, s.busyTicks, if s.tick > 1 then s.tick else 1,
            tSum, tCount, wSum, wCount)
  }

  /**
   * A duplicate-free list holding exactly the processes below `n` in state `st` is as
   * long as their count.
   */
  lemma {:induction false} CountMatchesList(t: Table, n: int, st: State, list: seq<int>)
    requires Distinct(list)
    requires forall k :: k in list <==> 0 <= k < n && k in t && t[k].state == st
    ensures |list| == CountState(t, n, st)
    decreases n
  {
    if n <= 0 {
      DistinctSetSize(list);
      assert (set x | x in list) == {};
    } else {
      var rest := RemoveFirst(list, n - 1);
      RemoveFirstKeepsDistinct(list, n - 1);
      CountMatchesList(t, n - 1, st, rest);
    }
  }

  /** A list holding exactly the known processes in state `st` has their count as length. */
  lemma ListCount(s: Sim, st: State, list: seq<int>)
    requires Dense(s) && Distinct(list)
    requires forall k :: k in list ==> k in s.table
    requires forall k :: k in s.table ==> (k in list <==> s.table[k].state == st)
    ensures |list| == CountState(s.table, s.pidCounter, st)
  {
    CountMatchesList(s.table, s.pidCounter, st, list);
  }

  /** The queue holds exactly the READY processes. */
  lemma ReadyCount(s: Sim)
    requires Consistent(s)
    ensures |s.sched.ready| == CountState(s.table, s.pidCounter, Ready)
  {
    forall k | k in s.table
      ensures k in s.sched.ready <==> s.table[k].state == Ready
    {
      assert PlacedAt(s, k);
    }
    ListCount(s, Ready, s.sched.ready);
  }

  /** The blocked list holds exactly the BLOCKED processes. */
  lemma BlockedCount(s: Sim)
    requires Consistent(s)
    ensures |s.blocked| == CountState(s.table, s.pidCounter, Blocked)
  {
    forall k | k in s.table
      ensures k in s.blocked <==> s.table[k].state == Blocked
    {
      assert PlacedAt(s, k);
    }
    ListCount(s, Blocked, s.blocked);
  }

  /** The zombie list holds exactly the ZOMBIE processes. */
  lemma ZombieCount(s: Sim)
    requires Consistent(s)
    ensures |s.zombies| == CountState(s.table, s.pidCounter, Zombie)
  {
    forall k | k in s.table
      ensures k in s.zombies <==> s.table[k].state == Zombie
    {
      assert PlacedAt(s, k);
    }
    ListCount(s, Zombie, s.zombies);
  }

  /** The RUNNING processes are init and the process holding the CPU. */
  lemma RunningCount(s: Sim)
    requires Consistent(s)
    ensures CountState(s.table, s.pidCounter, Running) == 1 + (if s.sched.running.Some? then 1 else 0)
  {
    var holders := [0] + (if s.sched.running.Some? then [s.sched.running.value] else []);
    forall k | k in s.table
      ensures k in holders <==> s.table[k].state == Running
    {
      assert PlacedAt(s, k);
    }
    ListCount(s, Running, holders);
  }

  /** The table holds exactly the pids below the counter. */
  lemma TableSize(s: Sim)
    requires Dense(s)
    ensures |s.table| == s.pidCounter
  {
    DistinctSetSize(PidOrder(s.pidCounter));
    assert s.table.Keys == set k | k in PidOrder(s.pidCounter);
    assert |s.table| == |s.table.Keys|;
  }

  /**
   * On a consistent engine the counts agree with the lists: the queue, the blocked list
   * and the zombie list hold exactly the READY, BLOCKED and ZOMBIE processes, and the
   * RUNNING ones are init plus the process holding the CPU.
   */
  lemma MetricsMatchStates(s: Sim)
    requires Consistent(s)
    ensures var m := GetMetrics(s);
            && m.totalProcesses == s.pidCounter
            && m.ready == CountState(s.table, s.pidCounter, Ready)
            && m.blocked == CountState(s.table, s.pidCounter, Blocked)
            && m.zombie == CountState(s.table, s.pidCounter, Zombie)
            && m.running == 1 + (if s.sched.running.Some? then 1 else 0)
  {
    TableSize(s);
    ReadyCount(s);
    BlockedCount(s);
    ZombieCount(s);
    RunningCount(s);
  }

  /** A waiting time is only counted for a process whose turnaround is counted too. */
  lemma {:induction false} WaitingCountedWithTurnaround(ps: seq<Process>)
    ensures Totals(ps, WaitingTime).1 <= Totals(ps, TurnaroundTime).1
  {
    if ps != [] {
      WaitingCountedWithTurnaround(ps[..|ps| - 1]);
      WaitingImpliesTurnaround(ps[|ps| - 1]);
    }
  }

  /** A new engine reports one RUNNING process (init), nothing else, and no finished process. */
  lemma FreshMetrics()
    ensures GetMetrics(Fresh()) == Metrics(0, 1, 1, 0, 0, 0, 0, 0, 0, 1, 0, 0, 0, 0)
  {
    assert FinishedBelow(Fresh().table, 1) == [];
  }

  // ----- The loops in closed form -----

  /** A blocked process after one countdown: READY once its count is zero. */
  function Unblocked(p: Process): (q: Process)
    ensures q.ioRemaining == (if p.ioRemaining > 0 then p.ioRemaining - 1 else p.ioRemaining)
    ensures q.state == (if q.ioRemaining == 0 then Ready else p.state)
    ensures q == p.(ioRemaining := q.ioRemaining, state := q.state)
  {
    var q := CountDown(p);
    if q.ioRemaining == 0 then q.(state := Ready) else q
  }

  /** The pids of `pids` whose countdown reaches zero, in order. */
  function ReachedZero(t: Table, pids: seq<int>): (r: seq<int>)
    ensures forall x :: x in r <==> x in pids && x in t && CountDown(t[x]).ioRemaining == 0
    ensures Distinct(pids) ==> Distinct(r)
  {
    if pids == [] then []
    else
      var x := pids[|pids| - 1];
      ReachedZero(t, pids[..|pids| - 1]) + (if x in t && CountDown(t[x]).ioRemaining == 0 then [x] else [])
  }

  /** The children of `kids` that are ZOMBIE in `t`, in order. */
  function ZombieKids(t: Table, kids: seq<int>): (r: seq<int>)
    ensures forall x :: x in r <==> x in kids && x in t && t[x].state == Zombie
    ensures Distinct(kids) ==> Distinct(r)
  {
    if kids == [] then []
    else
      var x := kids[|kids| - 1];
      ZombieKids(t, kids[..|kids| - 1]) + (if x in t && t[x].state == Zombie then [x] else [])
  }

  /** The pids of `pids` due for reaping in `s`, in order. */
  function DuePids(s: Sim, pids: seq<int>): (r: seq<int>)
    ensures forall x :: x in r <==> x in pids && x in s.table && DueForReap(s, s.table[x])
    ensures Distinct(pids) ==> Distinct(r)
  {
    if pids == [] then []
    else
      var x := pids[|pids| - 1];
      DuePids(s, pids[..|pids| - 1]) + (if x in s.table && DueForReap(s, s.table[x]) then [x] else [])
  }

  /** `move_new_to_ready`'s loop on the table: every NEW pid below `n` turns READY. */
  lemma {:induction false} PromoteTable(s: Sim, n: int)
    ensures forall k :: k in s.table ==>
              PromoteUpTo(s, n).table[k] == if 0 <= k < n && s.table[k].state == New
                                            then s.table[k].(state := Ready) else s.table[k]
    decreases n
  {
    if n > 0 {
      PromoteTable(s, n - 1);
      var r1, r := PromoteUpTo(s, n - 1), PromoteUpTo(s, n);
      forall k | k in s.table
        ensures r.table[k] == if 0 <= k < n && s.table[k].state == New then s.table[k].(state := Ready)
                              else s.table[k]
      {
        if k != n - 1 {
          assert r.table[k] == r1.table[k];
        }
      }
    }
  }

  /** `move_new_to_ready`'s loop on the queue: the NEW pids below `n` join it in ascending order. */
  lemma {:induction false} PromoteQueue(s: Sim, n: int)
    requires forall k :: k in s.table && s.table[k].state == New ==> k !in s.sched.ready
    ensures PromoteUpTo(s, n).sched.ready == s.sched.ready + NewPids(s.table, n)
    decreases n
  {
    if n > 0 {
      PromoteQueue(s, n - 1);
      var r1 := PromoteUpTo(s, n - 1);
      var x := n - 1;
      var front := NewPids(s.table, x);
      assert r1.sched.ready == s.sched.ready + front;
      if x in s.table && s.table[x].state == New {
        assert x !in front && x !in s.sched.ready;
        NotInConcat(s.sched.ready, front, x);
        PromoteKeeps(s, x, x);
        PromoteStep(r1, x);
        assert r1.sched.ready + [x] == s.sched.ready + (front + [x]);
      } else {
        if x in s.table {
          PromoteKeeps(s, x, x);
        } else {
          assert x !in r1.table.Keys;
        }
        assert !(x in r1.table && r1.table[x].state == New);
      }
      NewPidsStep(s.table, n);
      PromoteUpToStep(s, n);
    }
  }

  /** One more child considered by `wait_for_child`'s loop. */
  lemma WaitLoopStep(s: Sim, kids: seq<int>, i: int)
    requires 0 <= i < |kids|
    ensures WaitLoop(s, kids[..i + 1]) == WaitOne(WaitLoop(s, kids[..i]).0, WaitLoop(s, kids[..i]).1, kids[i])
  {
    assert kids[..i + 1][..i] == kids[..i];
  }

  /** One more pid considered by the countdown loop. */
  lemma UnblockLoopStep(s: Sim, pids: seq<int>, i: int)
    requires 0 <= i < |pids|
    ensures UnblockLoop(s, pids[..i + 1]) == UnblockOne(UnblockLoop(s, pids[..i]).0, UnblockLoop(s, pids[..i]).1, pids[i])
  {
    assert pids[..i + 1][..i] == pids[..i];
  }

  /** One more zombie considered by the auto-reap loop. */
  lemma ReapLoopStep(s: Sim, pids: seq<int>, i: int)
    requires 0 <= i < |pids|
    ensures ReapLoop(s, pids[..i + 1]) == ReapOne(ReapLoop(s, pids[..i]), pids[i])
  {
    assert pids[..i + 1][..i] == pids[..i];
  }

  /** One more pid considered by `move_new_to_ready`'s loop. */
  lemma PromoteUpToStep(s: Sim, n: int)
    requires n > 0
    ensures PromoteUpTo(s, n) == PromoteOne(PromoteUpTo(s, n - 1), n - 1)
  {
  }

  /** The loop below `n` leaves the pids from `n` on untouched. */
  lemma {:induction false} PromoteKeeps(s: Sim, n: int, x: int)
    requires x >= n && x in s.table
    ensures PromoteUpTo(s, n).table[x] == s.table[x]
    decreases n
  {
    if n > 0 {
      PromoteKeeps(s, n - 1, x);
    }
  }

  /**
   * One more pid considered by `move_new_to_ready`'s loop: the state takes one more step,
   * and the pid is counted exactly when the loop so far left it NEW.
   */
  lemma PromoteNewStep(s: Sim, n: int)
    requires n >= 0
    ensures PromoteUpTo(s, n + 1) == PromoteOne(PromoteUpTo(s, n), n)
    ensures var t := PromoteUpTo(s, n).table;
            NewPids(s.table, n + 1) == NewPids(s.table, n) + (if n in t && t[n].state == New then [n] else [])
  {
    PromoteUpToStep(s, n + 1);
    NewPidsStep(s.table, n + 1);
    if n in s.table {
      PromoteKeeps(s, n, n);
    }
  }

  /** One iteration of `move_new_to_ready` on a NEW pid that is not queued appends it. */
  lemma PromoteStep(s: Sim, x: int)
    requires x in s.table && s.table[x].state == New ==> x !in s.sched.ready
    ensures PromoteOne(s, x).sched.ready
            == s.sched.ready + (if x in s.table && s.table[x].state == New then [x] else [])
  {
  }

  /** One more pid considered adds it at the end exactly when it is NEW. */
  lemma NewPidsStep(t: Table, n: int)
    requires n > 0
    ensures NewPids(t, n) == NewPids(t, n - 1) + (if n - 1 in t && t[n - 1].state == New then [n - 1] else [])
  {
  }

  /**
   * `move_new_to_ready` in closed form: every NEW pid below `n` turns READY and joins
   * the tail of the queue in ascending order; nothing else changes.
   */
  lemma PromoteEffect(s: Sim, n: int)
    requires forall k :: k in s.table && s.table[k].state == New ==> k !in s.sched.ready
    ensures var r := PromoteUpTo(s, n);
            && r.sched.ready == s.sched.ready + NewPids(s.table, n)
            && forall k :: k in s.table ==>
                 r.table[k] == if 0 <= k < n && s.table[k].state == New then s.table[k].(state := Ready)
                               else s.table[k]
  {
    PromoteTable(s, n);
    PromoteQueue(s, n);
  }

  /** One iteration of the countdown on a listed process that is not queued. */
  lemma UnblockStep(s: Sim, unblocked: seq<int>, x: int)
    requires x in s.table && x !in s.sched.ready
    ensures var r := UnblockOne(s, unblocked, x);
            && r.1 == unblocked + (if CountDown(s.table[x]).ioRemaining == 0 then [x] else [])
            && r.0.sched.ready == s.sched.ready + (if CountDown(s.table[x]).ioRemaining == 0 then [x] else [])
  {
  }

  /** The countdown loop's effect on the table: each listed process counts down once. */
  lemma {:induction false} UnblockTable(s: Sim, pids: seq<int>)
    requires Distinct(pids)
    ensures forall k :: k in s.table ==>
              UnblockLoop(s, pids).0.table[k] == if k in pids then Unblocked(s.table[k]) else s.table[k]
  {
    if pids != [] {
      var pre, x := pids[..|pids| - 1], pids[|pids| - 1];
      DistinctInit(pids);
      UnblockTable(s, pre);
      var s1 := UnblockLoop(s, pre).0;
      var r := UnblockLoop(s, pids).0;
      forall k | k in s.table
        ensures r.table[k] == if k in pids then Unblocked(s.table[k]) else s.table[k]
      {
        if k != x {
          assert r.table[k] == s1.table[k];
        }
      }
    }
  }

  /** The countdown loop's effect on the queue: the pids reaching zero join it in list order. */
  lemma {:induction false} UnblockQueue(s: Sim, pids: seq<int>)
    requires Distinct(pids)
    requires forall k :: k in pids ==> k in s.table && k !in s.sched.ready
    ensures UnblockLoop(s, pids).1 == ReachedZero(s.table, pids)
    ensures UnblockLoop(s, pids).0.sched.ready == s.sched.ready + ReachedZero(s.table, pids)
  {
    if pids != [] {
      var pre, x := pids[..|pids| - 1], pids[|pids| - 1];
      DistinctInit(pids);
      UnblockQueue(s, pre);
      UnblockTable(s, pre);
      var (s1, unblocked1) := UnblockLoop(s, pre);
      assert s1.table[x] == s.table[x];
      assert x !in ReachedZero(s.table, pre);
      UnblockStep(s1, unblocked1, x);
    }
  }

  /**
   * The countdown loop in closed form: each listed process counts down, those reaching
   * zero turn READY and join the tail of the queue in list order.
   */
  lemma UnblockEffect(s: Sim, pids: seq<int>)
    requires Distinct(pids)
    requires forall k :: k in pids ==> k in s.table && k !in s.sched.ready
    ensures UnblockLoop(s, pids).1 == ReachedZero(s.table, pids)
    ensures UnblockLoop(s, pids).0.sched.ready == s.sched.ready + ReachedZero(s.table, pids)
    ensures forall k :: k in s.table ==>
              UnblockLoop(s, pids).0.table[k] == if k in pids then Unblocked(s.table[k]) else s.table[k]
  {
    UnblockTable(s, pids);
    UnblockQueue(s, pids);
  }

  /** `wait_for_child`'s loop on the table: exactly the listed ZOMBIE children are reaped. */
  lemma {:induction false} WaitTable(s: Sim, kids: seq<int>)
    requires Distinct(kids)
    ensures forall k :: k in s.table ==>
              WaitLoop(s, kids).0.table[k] == if k in kids && s.table[k].state == Zombie
                                               then s.table[k].(state := Terminated, reaped := true)
                                               else s.table[k]
  {
    if kids != [] {
      var pre, x := kids[..|kids| - 1], kids[|kids| - 1];
      DistinctInit(kids);
      WaitTable(s, pre);
      var r1, r := WaitLoop(s, pre).0, WaitLoop(s, kids).0;
      forall k | k in s.table
        ensures r.table[k] == if k in kids && s.table[k].state == Zombie
                              then s.table[k].(state := Terminated, reaped := true)
                              else s.table[k]
      {
        if k != x {
          assert r.table[k] == r1.table[k];
        }
      }
    }
  }

  /** `wait_for_child`'s loop on its result and the zombie list. */
  lemma {:induction false} WaitReaped(s: Sim, kids: seq<int>)
    requires Distinct(kids)
    ensures var (r, reaped) := WaitLoop(s, kids);
            reaped == ZombieKids(s.table, kids) && r.zombies == RemoveAll(s.zombies, reaped)
  {
    if kids != [] {
      var pre, x := kids[..|kids| - 1], kids[|kids| - 1];
      DistinctInit(kids);
      WaitReaped(s, pre);
      WaitTable(s, pre);
      var (r1, reaped1) := WaitLoop(s, pre);
      assert x in s.table ==> r1.table[x] == s.table[x];
      assert WaitLoop(s, kids) == WaitOne(r1, reaped1, x);
      if x in s.table && s.table[x].state == Zombie {
        assert ZombieKids(s.table, kids) == reaped1 + [x];
        assert (reaped1 + [x])[..|reaped1|] == reaped1;
      } else {
        assert ZombieKids(s.table, kids) == reaped1;
      }
    }
  }

  /**
   * `wait_for_child`'s loop in closed form: exactly the ZOMBIE children are reaped,
   * returned in children order and taken off the zombie list.
   */
  lemma WaitEffect(s: Sim, kids: seq<int>)
    requires Distinct(kids)
    ensures var (r, reaped) := WaitLoop(s, kids);
            && reaped == ZombieKids(s.table, kids)
            && r.zombies == RemoveAll(s.zombies, reaped)
            && forall k :: k in s.table ==>
                 r.table[k] == if k in kids && s.table[k].state == Zombie
                               then s.table[k].(state := Terminated, reaped := true)
                               else s.table[k]
  {
    WaitTable(s, kids);
    WaitReaped(s, kids);
  }

  /** `_auto_reap_zombies`' loop on the table: exactly the listed processes that are due are reaped. */
  lemma {:induction false} ReapTable(s: Sim, pids: seq<int>)
    requires Distinct(pids)
    ensures forall k :: k in s.table ==>
              ReapLoop(s, pids).table[k] == if k in pids && DueForReap(s, s.table[k])
                                            then s.table[k].(state := Terminated, reaped := true)
                                            else s.table[k]
  {
    if pids != [] {
      var pre, x := pids[..|pids| - 1], pids[|pids| - 1];
      DistinctInit(pids);
      ReapTable(s, pre);
      var r1, r := ReapLoop(s, pre), ReapLoop(s, pids);
      forall k | k in s.table
        ensures r.table[k] == if k in pids && DueForReap(s, s.table[k])
                              then s.table[k].(state := Terminated, reaped := true)
                              else s.table[k]
      {
        if k != x {
          assert r.table[k] == r1.table[k];
        }
      }
    }
  }

  /** `_auto_reap_zombies`' loop on the zombie list: the due pids leave it. */
  lemma {:induction false} ReapZombies(s: Sim, pids: seq<int>)
    requires Distinct(pids)
    ensures ReapLoop(s, pids).zombies == RemoveAll(s.zombies, DuePids(s, pids))
  {
    if pids != [] {
      var pre, x := pids[..|pids| - 1], pids[|pids| - 1];
      DistinctInit(pids);
      ReapZombies(s, pre);
      ReapTable(s, pre);
      var d := DuePids(s, pre);
      assert ReapLoop(s, pre).table.Keys == s.table.Keys;
      if x in s.table && DueForReap(s, s.table[x]) {
        assert DuePids(s, pids) == d + [x];
        assert (d + [x])[..|d + [x]| - 1] == d;
      } else {
        assert DuePids(s, pids) == d;
      }
    }
  }

  /**
   * `_auto_reap_zombies`' loop in closed form: exactly the listed processes that are
   * due are TERMINATED, marked reaped and taken off the zombie list.
   */
  lemma ReapEffect(s: Sim, pids: seq<int>)
    requires Distinct(pids)
    ensures var r := ReapLoop(s, pids);
            && r.zombies == RemoveAll(s.zombies, DuePids(s, pids))
            && forall k :: k in s.table ==>
                 r.table[k] == if k in pids && DueForReap(s, s.table[k])
                               then s.table[k].(state := Terminated, reaped := true)
                               else s.table[k]
  {
    ReapTable(s, pids);
    ReapZombies(s, pids);
  }

  // ----- The engine's invariant -----

  /** The table holds exactly the pids handed out so far, each filed under its own pid. */
  ghost predicate Dense(s: Sim) {
    && s.pidCounter >= 1
    && (forall k :: k in s.table <==> 0 <= k < s.pidCounter)
    && TreeFormatter.PidsMatchKeys(s.table)
  }

  /**
   * Children lists hold known pids without duplicates; a listed child names its lister
   * as parent and has a pid no smaller.
   */
  ghost predicate TreeShaped(t: Table) {
    && TreeFormatter.ParentLinked(t)
    && (forall p :: p in t ==> Distinct(t[p].children))
    && (forall p, c :: p in t && c in t[p].children ==> c in t)
  }

  /** The lists and the running slot name known pids; the slot never holds init. */
  ghost predicate Known(s: Sim) {
    && (forall k :: k in s.sched.ready ==> k in s.table)
    && (forall k :: k in s.blocked ==> k in s.table)
    && (forall k :: k in s.zombies ==> k in s.table)
    && (s.sched.running.Some? ==> s.sched.running.value in s.table && s.sched.running.value != 0)
  }

  /**
   * Every process is where its state says: READY exactly when queued, BLOCKED exactly
   * when in the blocked list, ZOMBIE exactly when in the zombie list, RUNNING exactly
   * for init and the process in the running slot.
   */
  ghost predicate Placed(s: Sim) {
    forall k :: k in s.table ==> PlacedAt(s, k)
  }

  /** Process `k` is where its state says. */
  ghost predicate PlacedAt(s: Sim, k: int)
    requires k in s.table
  {
    && (k in s.sched.ready <==> s.table[k].state == Ready)
    && (k in s.blocked <==> s.table[k].state == Blocked)
    && (k in s.zombies <==> s.table[k].state == Zombie)
    && (s.table[k].state == Running <==> k == 0 || s.sched.running == Some(k))
  }

  /** `r` places every process other than `pid` as `s` does, and has no other new pid. */
  ghost predicate SamePlaceBut(s: Sim, r: Sim, pid: int) {
    && (forall k :: k in r.table ==> k in s.table || k == pid)
    && forall k :: k in s.table && k != pid ==>
         && k in r.table && r.table[k].state == s.table[k].state
         && (k in r.sched.ready <==> k in s.sched.ready)
         && (k in r.blocked <==> k in s.blocked)
         && (k in r.zombies <==> k in s.zombies)
         && (r.sched.running == Some(k) <==> s.sched.running == Some(k))
  }

  /** Placement carries over when only `pid` moved and `pid` is placed. */
  lemma PlacedBut(s: Sim, r: Sim, pid: int)
    requires Placed(s) && SamePlaceBut(s, r, pid)
    requires pid in r.table ==> PlacedAt(r, pid)
    ensures Placed(r)
  {
  }

  /** The invariant every engine operation preserves. */
  ghost predicate Consistent(s: Sim) {
    && Dense(s)
    && 0 in s.table && s.table[0] == InitProcess
    && TreeShaped(s.table)
    && Distinct(s.sched.ready) && Distinct(s.blocked) && Distinct(s.zombies)
    && Known(s)
    && Placed(s)
  }

  /** Tables that agree on keys, pids, parents and children lists. */
  ghost predicate SameShape(t: Table, t': Table) {
    && t'.Keys == t.Keys
    && forall k :: k in t ==>
         t'[k].pid == t[k].pid && t'[k].parentPid == t[k].parentPid && t'[k].children == t[k].children
  }

  /** Changing only states and counters keeps the tree and the key layout. */
  lemma ShapeKept(s: Sim, s': Sim)
    requires Dense(s) && TreeShaped(s.table)
    requires SameShape(s.table, s'.table) && s'.pidCounter == s.pidCounter
    ensures Dense(s') && TreeShaped(s'.table)
  {
  }

  /** The invariant of a successor with the same tree, from its lists and placement. */
  lemma Rebuilt(s: Sim, r: Sim)
    requires Consistent(s)
    requires SameShape(s.table, r.table) && r.pidCounter == s.pidCounter && r.table[0] == s.table[0]
    requires Distinct(r.sched.ready) && Distinct(r.blocked) && Distinct(r.zombies)
    requires Known(r) && Placed(r)
    ensures Consistent(r)
  {
    ShapeKept(s, r);
  }

  /** Each process other than init is in at most one of the queue, the two lists and the slot. */
  lemma AtMostOnePlace(s: Sim, k: int)
    requires Consistent(s) && k != 0
    ensures (if k in s.sched.ready then 1 else 0) + (if k in s.blocked then 1 else 0)
            + (if k in s.zombies then 1 else 0) + (if s.sched.running == Some(k) then 1 else 0) <= 1
  {
  }

  /** A new engine, and one just reset, satisfy the invariant. */
  lemma FreshConsistent(s: Sim)
    ensures Consistent(Fresh())
    ensures Consistent(ResetEngine(s))
  {
  }

  /** Registering a fresh, largest pid with its parent keeps the table tree-shaped. */
  lemma AdoptKeepsTree(t: Table, pid: int, rec: Process)
    requires TreeShaped(t) && pid !in t && forall k :: k in t ==> k < pid
    requires rec.children == []
    ensures TreeShaped(Adopt(t[pid := rec], pid, rec.parentPid))
  {
    var t1 := t[pid := rec];
    assert TreeShaped(t1);
    if Truthy(rec.parentPid) && rec.parentPid.value in t1 {
      var q := rec.parentPid.value;
      var t2 := Adopt(t1, pid, rec.parentPid);
      assert pid !in t1[q].children;
      assert forall x :: x in t2 ==> x in t1 && (x != q ==> t2[x] == t1[x]);
      assert t2[q].children == t1[q].children + [pid];
      assert TreeFormatter.ParentLinked(t2);
    }
  }

  /** Adoption changes only a children list. */
  lemma AdoptOnlyChildren(t: Table, pid: int, parentPid: Option<int>)
    ensures var t' := Adopt(t, pid, parentPid);
            && t'.Keys == t.Keys
            && forall k :: k in t ==> t'[k] == t[k].(children := t'[k].children)
  {
  }

  /** Admitting a NEW record under the next pid keeps the invariant. */
  lemma AdmitPreserves(s: Sim, rec: Process)
    requires Consistent(s)
    requires rec.pid == s.pidCounter && rec.state == New && rec.children == []
    ensures Consistent(Admit(s, rec))
  {
    var pid := s.pidCounter;
    var r := Admit(s, rec);
    AdoptKeepsTree(s.table, pid, rec);
    AdoptOnlyChildren(s.table[pid := rec], pid, rec.parentPid);
    assert r.table[pid].state == New;
    assert SamePlaceBut(s, r, pid);
    PlacedBut(s, r, pid);
    assert Dense(r);
  }

  lemma CreatePreserves(s: Sim, name: Option<string>, burst: Option<int>, parentPid: Option<int>,
                        priority: Option<int>, drawnBurst: int, drawnPriority: int)
    requires Consistent(s)
    requires 5 <= drawnBurst <= 15 && 0 <= drawnPriority <= 8
    ensures Consistent(CreateProcess(s, name, burst, parentPid, priority, drawnBurst, drawnPriority).0)
  {
    AdmitPreserves(s, NewRecord(s, name, burst, parentPid, priority, drawnBurst, drawnPriority));
  }

  lemma SetQuantumPreserves(s: Sim, quantum: int)
    requires Consistent(s)
    ensures Consistent(SetQuantum(s, quantum))
  {
  }

  /** Promotion keeps the lists duplicate-free and known. */
  lemma MoveLists(s: Sim)
    requires Consistent(s)
    ensures var r := MoveNewToReady(s);
            SameShape(s.table, r.table) && r.pidCounter == s.pidCounter && r.table[0] == s.table[0]
            && Distinct(r.sched.ready) && Distinct(r.blocked) && Distinct(r.zombies) && Known(r)
  {
    PromoteEffect(s, s.pidCounter);
    NewPidsAscending(s.table, s.pidCounter);
    DistinctConcat(s.sched.ready, NewPids(s.table, s.pidCounter));
  }

  /** Promotion places every NEW process in the queue. */
  lemma MovePlaced(s: Sim)
    requires Consistent(s)
    ensures Placed(MoveNewToReady(s))
  {
    PromoteEffect(s, s.pidCounter);
    var r := MoveNewToReady(s);
    forall k | k in r.table
      ensures PlacedAt(r, k)
    {
      assert PlacedAt(s, k);
    }
  }

  lemma MovePreserves(s: Sim)
    requires Consistent(s)
    ensures Consistent(MoveNewToReady(s))
  {
    MoveLists(s);
    MovePlaced(s);
    Rebuilt(s, MoveNewToReady(s));
  }

  lemma BlockPreserves(s: Sim, pid: int, ioTime: Option<int>, drawnIo: int)
    requires Consistent(s)
    requires 3 <= drawnIo <= 8
    ensures Consistent(ForceBlock(s, pid, ioTime, drawnIo).0)
  {
    var r := ForceBlock(s, pid, ioTime, drawnIo).0;
    if pid in s.table && pid != 0 && s.table[pid].state in {Ready, Running} {
      ShapeKept(s, r);
      assert pid !in s.blocked;
      DistinctConcat(s.blocked, [pid]);
      WithoutDistinct(s.sched.ready, pid);
      assert Known(r);
      assert Placed(r);
    }
  }

  lemma TerminatePreserves(s: Sim, pid: int)
    requires Consistent(s)
    ensures Consistent(ForceTerminate(s, pid).0)
  {
    if pid in s.table && pid != 0 && s.table[pid].state != Terminated {
      DetachLeavesOpen(s, pid);
      ExitPreserves(Detach(s, pid), pid);
    }
  }

  /** A detached process is in no list and not running; everything else stays placed. */
  lemma DetachLeavesOpen(s: Sim, pid: int)
    requires Consistent(s) && pid in s.table && pid != 0
    ensures var r := Detach(s, pid);
            && ConsistentBut(r, pid)
            && pid !in r.sched.ready && pid !in r.blocked && pid !in r.zombies && r.sched.running != Some(pid)
  {
    var r := Detach(s, pid);
    DetachLists(s, pid);
    ShapeKept(s, r);
    forall k | k in r.table && k != pid
      ensures PlacedAt(r, k)
    {
      assert PlacedAt(s, k);
    }
  }

  /** Detaching takes `pid` out of every list and keeps the lists duplicate-free. */
  lemma DetachLists(s: Sim, pid: int)
    requires Consistent(s) && pid in s.table && pid != 0
    ensures var r := Detach(s, pid);
            && SameShape(s.table, r.table) && r.pidCounter == s.pidCounter && r.table[0] == s.table[0]
            && Distinct(r.sched.ready) && Distinct(r.blocked) && Distinct(r.zombies) && Known(r)
            && (forall k :: k != pid ==> (k in r.sched.ready <==> k in s.sched.ready))
            && (forall k :: k != pid ==> (k in r.blocked <==> k in s.blocked))
            && (forall k :: k != pid ==> (k in r.zombies <==> k in s.zombies))
            && pid !in r.sched.ready && pid !in r.blocked && pid !in r.zombies && r.sched.running != Some(pid)
  {
    WithoutDistinct(s.sched.ready, pid);
    RemoveFirstKeepsDistinct(s.blocked, pid);
    RemoveFirstKeepsDistinct(s.zombies, pid);
  }

  /** The invariant with the placement of `pid` left open. */
  ghost predicate ConsistentBut(s: Sim, pid: int) {
    && pid in s.table && pid != 0
    && Dense(s) && 0 in s.table && s.table[0] == InitProcess && TreeShaped(s.table)
    && Distinct(s.sched.ready) && Distinct(s.blocked) && Distinct(s.zombies) && Known(s)
    && forall k :: k in s.table && k != pid ==> PlacedAt(s, k)
  }

  /** A process in no list and not running settles as ZOMBIE (listed) or TERMINATED. */
  lemma Settle(s: Sim, pid: int, state: State, reaped: bool)
    requires ConsistentBut(s, pid)
    requires pid !in s.sched.ready && pid !in s.blocked && pid !in s.zombies && s.sched.running != Some(pid)
    requires state in {Zombie, Terminated}
    ensures Consistent(s.(table := s.table[pid := s.table[pid].(state := state, reaped := reaped)],
                          zombies := if state == Zombie then s.zombies + [pid] else s.zombies))
  {
    var r := s.(table := s.table[pid := s.table[pid].(state := state, reaped := reaped)],
                zombies := if state == Zombie then s.zombies + [pid] else s.zombies);
    ShapeKept(s, r);
    DistinctConcat(s.zombies, [pid]);
    assert Known(r);
    assert Placed(r);
  }

  /** The exit decision restores the invariant for a process in no list and not running. */
  lemma ExitPreserves(s: Sim, pid: int)
    requires ConsistentBut(s, pid)
    requires pid !in s.sched.ready && pid !in s.blocked && pid !in s.zombies && s.sched.running != Some(pid)
    ensures Consistent(Exit(s, pid))
  {
    var p := s.table[pid];
    if Truthy(p.parentPid) && p.parentPid.value in s.table {
      if !s.table[p.parentPid.value].waitingForChild {
        Settle(s, pid, Zombie, p.reaped);
        assert p.(state := Zombie, reaped := p.reaped) == p.(state := Zombie);
      } else {
        Settle(s, pid, Terminated, true);
      }
    } else {
      Settle(s, pid, Terminated, p.reaped);
      assert p.(state := Terminated, reaped := p.reaped) == p.(state := Terminated);
    }
  }

  /** Reaping children keeps the lists duplicate-free and known. */
  lemma WaitLists(s: Sim, kids: seq<int>)
    requires Consistent(s) && Distinct(kids)
    ensures var r := WaitLoop(s, kids).0;
            SameShape(s.table, r.table) && r.pidCounter == s.pidCounter && r.table[0] == s.table[0]
            && Distinct(r.sched.ready) && Distinct(r.blocked) && Distinct(r.zombies) && Known(r)
  {
    WaitEffect(s, kids);
    RemoveAllDistinct(s.zombies, WaitLoop(s, kids).1);
  }

  /** Reaped children leave the zombie list as they become TERMINATED. */
  lemma WaitPlaced(s: Sim, kids: seq<int>)
    requires Consistent(s) && Distinct(kids)
    ensures Placed(WaitLoop(s, kids).0)
  {
    WaitEffect(s, kids);
    var (r, reaped) := WaitLoop(s, kids);
    RemoveAllDistinct(s.zombies, reaped);
    forall k | k in r.table
      ensures PlacedAt(r, k)
    {
      assert PlacedAt(s, k);
    }
  }

  lemma WaitPreserves(s: Sim, parentPid: int)
    requires Consistent(s)
    ensures Consistent(WaitForChild(s, parentPid).0)
  {
    if parentPid in s.table {
      var kids := s.table[parentPid].children;
      WaitLists(s, kids);
      WaitPlaced(s, kids);
      Rebuilt(s, WaitLoop(s, kids).0);
    }
  }

  /** `_handle_blocked_processes` in closed form, on a consistent state. */
  lemma HandleBlockedEffect(s: Sim)
    requires Consistent(s)
    ensures var r := HandleBlocked(s);
            var z := ReachedZero(s.table, s.blocked);
            && r == s.(table := r.table, sched := s.sched.(ready := s.sched.ready + z),
                       blocked := RemoveAll(s.blocked, z))
            && r.table.Keys == s.table.Keys
            && forall k :: k in s.table ==>
                 r.table[k] == if k in s.blocked then Unblocked(s.table[k]) else s.table[k]
  {
    UnblockEffect(s, s.blocked);
  }

  /** The countdown changes no pid, parent or children list, and leaves init alone. */
  lemma HandleBlockedShape(s: Sim)
    requires Consistent(s)
    ensures var r := HandleBlocked(s);
            SameShape(s.table, r.table) && r.pidCounter == s.pidCounter && r.table[0] == s.table[0]
  {
    HandleBlockedEffect(s);
  }

  /** The countdown keeps the lists duplicate-free and known. */
  lemma HandleBlockedLists(s: Sim)
    requires Consistent(s)
    ensures var r := HandleBlocked(s);
            Distinct(r.sched.ready) && Distinct(r.blocked) && Distinct(r.zombies) && Known(r)
  {
    HandleBlockedEffect(s);
    var z := ReachedZero(s.table, s.blocked);
    DistinctConcat(s.sched.ready, z);
    RemoveAllDistinct(s.blocked, z);
  }

  /** A process whose countdown reaches zero moves from the blocked list to the queue. */
  lemma HandleBlockedPlaced(s: Sim)
    requires Consistent(s)
    ensures Placed(HandleBlocked(s))
  {
    HandleBlockedEffect(s);
    var r := HandleBlocked(s);
    RemoveAllDistinct(s.blocked, ReachedZero(s.table, s.blocked));
    forall k | k in r.table
      ensures PlacedAt(r, k)
    {
      assert PlacedAt(s, k);
    }
  }

  lemma HandleBlockedPreserves(s: Sim)
    requires Consistent(s)
    ensures Consistent(HandleBlocked(s))
  {
    HandleBlockedShape(s);
    HandleBlockedLists(s);
    HandleBlockedPlaced(s);
    Rebuilt(s, HandleBlocked(s));
  }

  /** Auto-reaping keeps the lists duplicate-free and known. */
  lemma AutoReapLists(s: Sim)
    requires Consistent(s)
    ensures var r := AutoReapZombies(s);
            SameShape(s.table, r.table) && r.pidCounter == s.pidCounter && r.table[0] == s.table[0]
            && Distinct(r.sched.ready) && Distinct(r.blocked) && Distinct(r.zombies) && Known(r)
  {
    ReapEffect(s, s.zombies);
    RemoveAllDistinct(s.zombies, DuePids(s, s.zombies));
  }

  /** Reaped zombies leave the zombie list as they become TERMINATED. */
  lemma AutoReapPlaced(s: Sim)
    requires Consistent(s)
    ensures Placed(AutoReapZombies(s))
  {
    ReapEffect(s, s.zombies);
    var r := AutoReapZombies(s);
    RemoveAllDistinct(s.zombies, DuePids(s, s.zombies));
    forall k | k in r.table
      ensures PlacedAt(r, k)
    {
      assert PlacedAt(s, k);
    }
  }

  lemma AutoReapPreserves(s: Sim)
    requires Consistent(s)
    ensures Consistent(AutoReapZombies(s))
  {
    AutoReapLists(s);
    AutoReapPlaced(s);
    Rebuilt(s, AutoReapZombies(s));
  }

  /** A unit of work changes no placement. */
  lemma WorkedPreserves(s: Sim)
    requires Consistent(s) && s.sched.running.Some?
    ensures Consistent(Worked(s))
  {
    var pid := s.sched.running.value;
    var r := Worked(s);
    ShapeKept(s, r);
    PlacedBut(s, r, pid);
  }

  /** Retiring the running process keeps the invariant. */
  lemma RetirePreserves(s: Sim)
    requires Consistent(s) && s.sched.running.Some?
    ensures Consistent(Retire(s))
  {
    var pid := s.sched.running.value;
    var s2 := s.(table := s.table[pid := s.table[pid].(endTick := Some(s.tick))],
                 sched := s.sched.(running := None, quantumUsed := 0));
    ShapeKept(s, s2);
    assert pid !in s.sched.ready && pid !in s.blocked && pid !in s.zombies;
    assert ConsistentBut(s2, pid);
    ExitPreserves(s2, pid);
  }

  /** Blocking the running process keeps the invariant. */
  lemma BlockCurrentPreserves(s: Sim, ioTime: int)
    requires Consistent(s) && s.sched.running.Some?
    ensures Consistent(BlockCurrent(s, ioTime))
  {
    var pid := s.sched.running.value;
    var r := BlockCurrent(s, ioTime);
    ShapeKept(s, r);
    assert pid !in s.blocked;
    DistinctConcat(s.blocked, [pid]);
    assert Known(r);
    PlacedBut(s, r, pid);
  }

  /** The quantum check keeps the invariant. */
  lemma PreemptIfDuePreserves(s: Sim)
    requires Consistent(s)
    ensures Consistent(PreemptIfDue(s))
  {
    var r := PreemptIfDue(s);
    if r != s {
      var pid := s.sched.running.value;
      ShapeKept(s, r);
      assert pid !in s.sched.ready;
      DistinctConcat(s.sched.ready, [pid]);
      assert Known(r);
      PlacedBut(s, r, pid);
    }
  }

  lemma ExecutePreserves(s: Sim, block: bool, ioTime: int)
    requires Consistent(s) && s.sched.running.Some?
    requires 2 <= ioTime <= 5
    ensures Consistent(ExecuteCurrent(s, block, ioTime))
  {
    var pid := s.sched.running.value;
    WorkedPreserves(s);
    var s1 := Worked(s);
    if s1.table[pid].remainingBurst <= 0 {
      RetirePreserves(s1);
    } else if block {
      BlockCurrentPreserves(s1, ioTime);
    } else {
      PreemptIfDuePreserves(s1);
    }
  }

  lemma DispatchPreserves(s: Sim)
    requires Consistent(s)
    ensures Consistent(Dispatch(s))
  {
    if s.sched.running.None? && s.sched.ready != [] {
      var h := s.sched.ready[0];
      assert h in s.sched.ready;
      assert h != 0 && h in s.table && s.table[h].state == Ready;
      var s1 := Dispatch(s);
      ShapeKept(s, s1);
      assert h !in s.sched.ready[1..];
      assert Known(s1);
      assert Placed(s1);
    }
  }

  lemma SchedulePreserves(s: Sim, block: bool, ioTime: int)
    requires Consistent(s)
    requires 2 <= ioTime <= 5
    ensures Consistent(ScheduleProcesses(s, block, ioTime))
  {
    DispatchPreserves(s);
    if Dispatch(s).sched.running.Some? {
      ExecutePreserves(Dispatch(s), block, ioTime);
    }
  }

  /** The first three phases of a tick (unblock, admit, schedule) keep the invariant. */
  lemma PhasesPreserve(s: Sim, block: bool, ioTime: int)
    requires Consistent(s)
    requires 2 <= ioTime <= 5
    ensures Consistent(ScheduleProcesses(MoveNewToReady(HandleBlocked(Advance(s))), block, ioTime))
  {
    var s1 := HandleBlocked(Advance(s));
    HandleBlockedPreserves(Advance(s));
    MovePreserves(s1);
    SchedulePreserves(MoveNewToReady(s1), block, ioTime);
  }

  /** The last phase of a tick (auto-reap when enabled) keeps the invariant. */
  lemma ReapPhasePreserves(s: Sim)
    requires Consistent(s)
    ensures Consistent(ReapPhase(s))
  {
    if s.autoReapAfter > 0 {
      AutoReapPreserves(s);
    }
  }

  /** A whole `tick_simulation` keeps the invariant. */
  lemma TickPreserves(s: Sim, block: bool, ioTime: int)
    requires Consistent(s)
    requires 2 <= ioTime <= 5
    ensures Consistent(TickSimulation(s, block, ioTime))
  {
    PhasesPreserve(s, block, ioTime);
    ReapPhasePreserves(ScheduleProcesses(MoveNewToReady(HandleBlocked(Advance(s))), block, ioTime));
  }

  // ----- What each operation promises -----

  /** `create_process` hands out a pid that is positive, unused and above every pid in use. */
  lemma CreateFreshPid(s: Sim, name: Option<string>, burst: Option<int>, parentPid: Option<int>,
                       priority: Option<int>, drawnBurst: int, drawnPriority: int)
    requires Consistent(s)
    requires 5 <= drawnBurst <= 15 && 0 <= drawnPriority <= 8
    ensures var (r, pid) := CreateProcess(s, name, burst, parentPid, priority, drawnBurst, drawnPriority);
            && pid >= 1 && pid !in s.table && (forall k :: k in s.table ==> k < pid)
            && r.pidCounter > pid
  {
  }

  /**
   * The exit decision: ZOMBIE exactly when the parent pid is truthy, in the table and
   * not waiting; otherwise TERMINATED, and reaped as well when the parent was waiting.
   */
  lemma ExitDecision(s: Sim, pid: int)
    requires pid in s.table
    ensures var p, r := s.table[pid], Exit(s, pid).table[pid];
            var parentKnown := Truthy(p.parentPid) && p.parentPid.value in s.table;
            && (r.state == Zombie <==> parentKnown && !s.table[p.parentPid.value].waitingForChild)
            && (r.state != Zombie ==> r.state == Terminated)
            && (parentKnown && s.table[p.parentPid.value].waitingForChild ==> r.reaped)
            && r == p.(state := r.state, reaped := r.reaped)
  {
  }

  /**
   * `force_block_process` succeeds exactly for a known process other than init that is
   * READY or RUNNING; it then holds the CPU no longer, is out of the queue, is BLOCKED
   * with the I/O time and one more block, and is the last entry of the blocked list.
   */
  lemma BlockOutcome(s: Sim, pid: int, ioTime: Option<int>, drawnIo: int)
    requires 3 <= drawnIo <= 8
    ensures var (r, ok) := ForceBlock(s, pid, ioTime, drawnIo);
            && (ok <==> pid in s.table && pid != 0 && s.table[pid].state in {Ready, Running})
            && (!ok ==> r == s)
            && (ok ==> && r.table[pid].state == Blocked
                       && r.table[pid].ioRemaining == ioTime.GetOr(drawnIo)
                       && r.table[pid].blockedCount == s.table[pid].blockedCount + 1
                       && pid !in r.sched.ready && r.sched.running != Some(pid)
                       && r.blocked == s.blocked + [pid])
            && (ok ==> && r.sched.ready == Without(s.sched.ready, pid)
                       && (s.sched.running == Some(pid) ==> r.sched.quantumUsed == 0)
                       && (s.sched.running != Some(pid) ==>
                             r.sched.running == s.sched.running && r.sched.quantumUsed == s.sched.quantumUsed)
                       && r.sched.contextSwitches == s.sched.contextSwitches && r.sched.quantum == s.sched.quantum
                       && r.zombies == s.zombies && r.tick == s.tick && r.pidCounter == s.pidCounter
                       && r.busyTicks == s.busyTicks && r.idleTicks == s.idleTicks
                       && r.autoReapAfter == s.autoReapAfter)
            && (ok ==> && r.table.Keys == s.table.Keys
                       && r.table[pid].(state := s.table[pid].state, ioRemaining := s.table[pid].ioRemaining,
                                        blockedCount := s.table[pid].blockedCount) == s.table[pid]
                       && forall k :: k in s.table && k != pid ==> r.table[k] == s.table[k])
  {
  }

  /**
   * `force_terminate_process` succeeds exactly for a known process other than init that
   * is not TERMINATED; it then has no burst left, ends at the current tick, holds the CPU
   * no longer and is in no list but the zombie list, which it is in exactly as a ZOMBIE.
   */
  lemma TerminateOutcome(s: Sim, pid: int)
    requires Consistent(s)
    ensures var (r, ok) := ForceTerminate(s, pid);
            && (ok <==> pid in s.table && pid != 0 && s.table[pid].state != Terminated)
            && (!ok ==> r == s)
            && (ok ==> && r.table[pid].remainingBurst == 0 && r.table[pid].endTick == Some(s.tick)
                       && r.table[pid].state in {Zombie, Terminated}
                       && pid !in r.sched.ready && pid !in r.blocked && r.sched.running != Some(pid)
                       && (pid in r.zombies <==> r.table[pid].state == Zombie))
  {
    TerminatePreserves(s, pid);
    var (r, ok) := ForceTerminate(s, pid);
    if ok {
      ExitDecision(Detach(s, pid), pid);
      assert PlacedAt(r, pid);
    }
  }

  /**
   * A successful `force_terminate_process` takes the process out of the queue and the
   * blocked list and re-appends it to the zombie list exactly as a ZOMBIE.
   */
  lemma TerminateLists(s: Sim, pid: int)
    requires Distinct(s.blocked) && Distinct(s.zombies)
    ensures var (r, ok) := ForceTerminate(s, pid);
            && (ok ==> && r.sched.ready == Without(s.sched.ready, pid)
                       && r.blocked == Without(s.blocked, pid)
                       && r.zombies == Without(s.zombies, pid) + (if r.table[pid].state == Zombie then [pid] else []))
  {
    var (r, ok) := ForceTerminate(s, pid);
    if ok {
      var d := Detach(s, pid);
      assert r == Exit(d, pid);
      DetachEffect(s, pid);
      ExitEffect(d, pid);
      RemoveFirstDistinct(s.blocked, pid);
      RemoveFirstDistinct(s.zombies, pid);
    }
  }

  /**
   * A successful `force_terminate_process` frees the CPU only if the process held it and
   * changes no other process, counter or field of its record.
   */
  lemma TerminateEffect(s: Sim, pid: int)
    ensures var (r, ok) := ForceTerminate(s, pid);
            && (ok ==> && (s.sched.running == Some(pid) ==> r.sched.quantumUsed == 0)
                       && (s.sched.running != Some(pid) ==>
                             r.sched.running == s.sched.running && r.sched.quantumUsed == s.sched.quantumUsed)
                       && r.sched.contextSwitches == s.sched.contextSwitches && r.sched.quantum == s.sched.quantum
                       && r.tick == s.tick && r.pidCounter == s.pidCounter
                       && r.busyTicks == s.busyTicks && r.idleTicks == s.idleTicks
                       && r.autoReapAfter == s.autoReapAfter)
            && (ok ==> && r.table.Keys == s.table.Keys
                       && r.table[pid].(state := s.table[pid].state, reaped := s.table[pid].reaped,
                                        remainingBurst := s.table[pid].remainingBurst,
                                        endTick := s.table[pid].endTick) == s.table[pid]
                       && forall k :: k in s.table && k != pid ==> r.table[k] == s.table[k])
  {
    var (r, ok) := ForceTerminate(s, pid);
    if ok {
      var d := Detach(s, pid);
      assert r == Exit(d, pid);
      DetachEffect(s, pid);
      ExitEffect(d, pid);
      ExitDecision(d, pid);
      assert d.table[pid] == s.table[pid].(remainingBurst := 0, endTick := Some(s.tick));
    }
  }

  /** The exit decision touches only the exiting record and, for a ZOMBIE, the zombie list's tail. */
  lemma ExitEffect(s: Sim, pid: int)
    requires pid in s.table
    ensures var r := Exit(s, pid);
            && r == s.(table := r.table, zombies := r.zombies)
            && r.zombies == s.zombies + (if r.table[pid].state == Zombie then [pid] else [])
            && r.table.Keys == s.table.Keys
            && forall k :: k in s.table && k != pid ==> r.table[k] == s.table[k]
  {
  }

  /** Detaching frees the slot it holds, takes it off every list and closes its record; nothing else. */
  lemma DetachEffect(s: Sim, pid: int)
    requires pid in s.table
    ensures var r := Detach(s, pid);
            && r == s.(sched := r.sched, table := r.table, blocked := r.blocked, zombies := r.zombies)
            && r.sched.ready == Without(s.sched.ready, pid)
            && r.sched.quantum == s.sched.quantum && r.sched.contextSwitches == s.sched.contextSwitches
            && (s.sched.running == Some(pid) ==> r.sched.running == None && r.sched.quantumUsed == 0)
            && (s.sched.running != Some(pid) ==>
                  r.sched.running == s.sched.running && r.sched.quantumUsed == s.sched.quantumUsed)
            && r.blocked == RemoveFirst(s.blocked, pid) && r.zombies == RemoveFirst(s.zombies, pid)
            && r.table == s.table[pid := s.table[pid].(remainingBurst := 0, endTick := Some(s.tick))]
  {
  }

  /**
   * A finished process (TERMINATED or ZOMBIE) of a consistent engine is neither queued,
   * nor blocked, nor on the CPU, and it is on the zombie list exactly when it is a ZOMBIE.
   */
  lemma FinishedOutOfQueues(s: Sim, k: int)
    requires Consistent(s) && k in s.table && IsFinished(s.table[k])
    ensures k !in s.sched.ready && k !in s.blocked && s.sched.running != Some(k)
    ensures k in s.zombies <==> s.table[k].state == Zombie
  {
    assert PlacedAt(s, k);
  }

  /**
   * `wait_for_child` returns, in children order, exactly the children that were ZOMBIE;
   * each is now TERMINATED, reaped and off the zombie list, and no other process changes.
   * An unknown parent reaps nothing.
   */
  lemma WaitOutcome(s: Sim, parentPid: int)
    requires Consistent(s)
    ensures var (r, reaped) := WaitForChild(s, parentPid);
            && reaped == (if parentPid in s.table then ZombieKids(s.table, s.table[parentPid].children) else [])
            && (forall c :: c in reaped ==> r.table[c].state == Terminated && r.table[c].reaped && c !in r.zombies)
            && (forall k :: k in s.table && k !in reaped ==> r.table[k] == s.table[k])
  {
    if parentPid in s.table {
      var kids := s.table[parentPid].children;
      WaitEffect(s, kids);
      RemoveAllDistinct(s.zombies, WaitLoop(s, kids).1);
    }
  }

  /**
   * After `move_new_to_ready` no process is NEW: the former NEW processes are READY and
   * have joined the tail of the queue in ascending pid order.
   */
  lemma MoveOutcome(s: Sim)
    requires Consistent(s)
    ensures var r := MoveNewToReady(s);
            && r.sched.ready == s.sched.ready + NewPids(s.table, s.pidCounter)
            && (forall k :: k in r.table ==> r.table[k].state != New)
            && (forall k :: k in s.table && s.table[k].state == New ==> r.table[k].state == Ready)
  {
    PromoteEffect(s, s.pidCounter);
  }

  /**
   * One unit of work on the running process: its burst drops by one and the busy count
   * rises by one. Then a used-up burst retires it (ZOMBIE or TERMINATED, ending at the
   * current tick); otherwise a block draw blocks it for `ioTime`; otherwise it keeps the
   * CPU until its quantum is used, when it goes back to the queue as READY.
   */
  lemma ExecuteOutcome(s: Sim, block: bool, ioTime: int)
    requires Consistent(s) && s.sched.running.Some?
    requires 2 <= ioTime <= 5
    ensures var pid, r := s.sched.running.value, ExecuteCurrent(s, block, ioTime);
            var p, q := s.table[pid], r.table[pid];
            && r.busyTicks == s.busyTicks + 1 && r.idleTicks == s.idleTicks
            && q.remainingBurst == p.remainingBurst - 1
            && (p.remainingBurst <= 1 ==>
                  && q.state in {Zombie, Terminated} && q.endTick == Some(s.tick) && r.sched.running == None
                  && r.zombies == s.zombies + (if q.state == Zombie then [pid] else []))
            && (p.remainingBurst > 1 && block ==>
                  && q.state == Blocked && q.ioRemaining == ioTime && q.blockedCount == p.blockedCount + 1
                  && r.blocked == s.blocked + [pid] && r.sched.running == None)
            && (p.remainingBurst > 1 && !block ==>
                  && (q.state == Ready <==> s.sched.quantumUsed + 1 >= s.sched.quantum)
                  && (q.state == Ready ==> && r.sched.ready == s.sched.ready + [pid] && r.sched.running == None
                                           && q.preemptCount == p.preemptCount + 1
                                           && r.sched.contextSwitches == s.sched.contextSwitches + 1)
                  && (q.state != Ready ==> && q.state == Running && r.sched.running == Some(pid)
                                           && r.sched.quantumUsed == s.sched.quantumUsed + 1))
  {
    var pid := s.sched.running.value;
    assert PlacedAt(s, pid);
    var s1 := Worked(s);
    if s1.table[pid].remainingBurst <= 0 {
      var s2 := s1.(table := s1.table[pid := s1.table[pid].(endTick := Some(s1.tick))],
                    sched := s1.sched.(running := None, quantumUsed := 0));
      ExitDecision(s2, pid);
    }
  }

  /**
   * `_handle_blocked_processes`: every blocked process counts down once; one whose count
   * is then zero is READY, queued and off the blocked list, any other stays BLOCKED there.
   */
  lemma HandleBlockedOutcome(s: Sim)
    requires Consistent(s)
    ensures var r := HandleBlocked(s);
            forall k :: k in s.blocked ==>
              && r.table[k].ioRemaining == (if s.table[k].ioRemaining > 0 then s.table[k].ioRemaining - 1
                                            else s.table[k].ioRemaining)
              && (r.table[k].ioRemaining == 0 ==> r.table[k].state == Ready && k in r.sched.ready && k !in r.blocked)
              && (r.table[k].ioRemaining != 0 ==> r.table[k].state == Blocked && k in r.blocked)
  {
    HandleBlockedEffect(s);
    HandleBlockedPreserves(s);
    var r := HandleBlocked(s);
    forall k | k in s.blocked
      ensures r.table[k].ioRemaining != 0 ==> r.table[k].state == Blocked
    {
      assert PlacedAt(s, k);
    }
    forall k | k in s.blocked
      ensures PlacedAt(r, k)
    {
    }
  }

  /**
   * The dispatch step: with the CPU free and the queue non-empty, the head leaves the
   * queue and runs, with one more context switch and a fresh quantum; its start tick is
   * set only when it had none. With the CPU busy nothing changes.
   */
  lemma DispatchOutcome(s: Sim)
    requires Consistent(s)
    ensures var r := Dispatch(s);
            && (s.sched.running.Some? ==> r == s)
            && (s.sched.running.None? && s.sched.ready == [] ==> r == s)
            && (s.sched.running.None? && s.sched.ready != [] ==>
                  var h := s.sched.ready[0];
                  && r.sched.running == Some(h) && r.sched.ready == s.sched.ready[1..]
                  && r.sched.quantumUsed == 0 && r.sched.contextSwitches == s.sched.contextSwitches + 1
                  && r.table[h].state == Running
                  && r.table[h].startTick == (if s.table[h].startTick.None? then Some(s.tick) else s.table[h].startTick))
  {
    if s.sched.running.None? && s.sched.ready != [] {
      assert s.sched.ready[0] in s.sched.ready;
    }
  }

  /**
   * Every tick counts exactly once, as busy or as idle, and advances the clock by
   * exactly one; no pid is handed out or withdrawn.
   */
  lemma TickOutcome(s: Sim, block: bool, ioTime: int)
    requires Consistent(s)
    requires 2 <= ioTime <= 5
    ensures var r := TickSimulation(s, block, ioTime);
            && r.tick == s.tick + 1
            && r.busyTicks + r.idleTicks == s.busyTicks + s.idleTicks + 1
            && r.pidCounter == s.pidCounter && r.table.Keys == s.table.Keys
  {
    var s1 := MoveNewToReady(HandleBlocked(Advance(s)));
    HandleBlockedPreserves(Advance(s));
    MovePreserves(HandleBlocked(Advance(s)));
    ScheduleCountsOnce(s1, block, ioTime);
  }

  /** A scheduling step counts the tick exactly once and keeps the clock and the pids. */
  lemma ScheduleCountsOnce(s: Sim, block: bool, ioTime: int)
    requires Consistent(s)
    requires 2 <= ioTime <= 5
    ensures var r := ScheduleProcesses(s, block, ioTime);
            && r.tick == s.tick
            && r.busyTicks + r.idleTicks == s.busyTicks + s.idleTicks + 1
            && r.pidCounter == s.pidCounter && r.table.Keys == s.table.Keys
  {
    DispatchPreserves(s);
    DispatchFrame(s);
    var s1 := Dispatch(s);
    if s1.sched.running.Some? {
      ExecuteOutcome(s1, block, ioTime);
      ExecuteFrame(s1, block, ioTime);
    }
  }

  /** Dispatching touches neither the clock, the counters nor the set of pids. */
  lemma DispatchFrame(s: Sim)
    ensures var r := Dispatch(s);
            && r.tick == s.tick && r.busyTicks == s.busyTicks && r.idleTicks == s.idleTicks
            && r.pidCounter == s.pidCounter && r.table.Keys == s.table.Keys
  {
  }

  /** Executing touches neither the clock nor the set of pids. */
  lemma ExecuteFrame(s: Sim, block: bool, ioTime: int)
    requires s.sched.running.Some? && s.sched.running.value in s.table
    requires 2 <= ioTime <= 5
    ensures var r := ExecuteCurrent(s, block, ioTime);
            && r.tick == s.tick && r.pidCounter == s.pidCounter && r.table.Keys == s.table.Keys
            && forall k :: k in s.table && k != s.sched.running.value ==> r.table[k] == s.table[k]
  {
  }

  /**
   * `_auto_reap_zombies`: every zombie due for reaping is TERMINATED and reaped, and
   * every process left on the zombie list is a ZOMBIE not yet due.
   */
  lemma AutoReapOutcome(s: Sim)
    requires Consistent(s)
    ensures var r := AutoReapZombies(s);
            && (forall k :: k in s.zombies && DueForReap(s, s.table[k]) ==>
                  r.table[k].state == Terminated && r.table[k].reaped && k !in r.zombies)
            && (forall k :: k in r.zombies ==> k in r.table && r.table[k].state == Zombie && !DueForReap(r, r.table[k]))
  {
    ReapEffect(s, s.zombies);
    RemoveAllDistinct(s.zombies, DuePids(s, s.zombies));
    AutoReapPreserves(s);
  }
}
