# Process-lifecycle engine, modelled in Dafny

This project models the core of a teaching simulator of operating-system processes. The
simulator creates processes, admits them (NEW to READY), dispatches them round-robin
onto one CPU, runs them one tick at a time, and blocks them on simulated I/O. It
terminates them as ZOMBIE or TERMINATED depending on the parent, reaps zombies through
`wait` or after a delay, and reports metrics and the process tree.

The source has two engines with the same lifecycle:

- `src/core/simulator.py` delegates the ready queue and the running slot to a scheduler
  object;
- `simulador_procesos_customtk.py` keeps them in its own fields.

They differ in a few details: when a blocked process is released, which pids may be
blocked, the condition for auto-reaping, and what the metrics count.

The modules:

- `Lifecycle` and `ProcessModel` (`process.dfy`) model the process record and its derived
  times.
- `RoundRobin` (`scheduler.dfy`) models the round-robin scheduler: a value `Sched`, one
  function per operation, and the class `RoundRobinScheduler` whose methods are proved
  equal to those functions.
- `SimulatorModel` (`simulator_model.dfy`) is the first engine as pure functions on a
  state value `Sim`. Each loop of the source is a function recursing over the list the
  loop walks, with a closed-form lemma beside it. `Consistent` is the engine's invariant,
  and a lemma shows that every operation preserves it.
- `Simulator` (`simulator.dfy`) is the first engine as the class `SimulatorEngine`. Its
  fields are those of the source, and its methods and loops update them in place. Each
  method's `ensures` equates the new state with the `SimulatorModel` function applied
  to the old state.
- `CustomTkModel` and `CustomTk` (`customtk_model.dfy`, `customtk.dfy`) do the same for
  the second engine.
- `TreeFormatter` (`tree_formatter.dfy`) models the text rendering of a process tree and
  the hierarchy builder.
- `Lists`, `EventLog`, `Text` and `Wrappers` are helpers:
  - `Lists`: removal from pid lists, Python's `list.remove`, and duplicate-freedom;
  - `EventLog`: the bounded log deque;
  - `Text`: decimal rendering;
  - `Wrappers`: `Option` and Python truthiness.

Both engine invariants (`Consistent`) say:

- the table holds exactly the pids `0 .. pidCounter-1`, each record filed under its
  own pid;
- children lists are duplicate-free and hold known pids;
- the ready, blocked and zombie lists are duplicate-free and hold known pids;
- every process is where its state says it is: READY exactly when queued, BLOCKED
  exactly when in the blocked list, ZOMBIE exactly when in the zombie list;
- the process in the running slot is RUNNING, and no other process is RUNNING except
  init, which starts RUNNING outside the slot.

The first engine's invariant adds three facts:

- init is never touched, so it stays RUNNING and outside the slot;
- a listed child names its lister as parent and has a larger pid (or its own pid);
- the slot never holds init.

## Model

| member | source | states |
|---|---|---|
| ProcessModel.FreshRecordDefaults | src/models/process.py:7-31 | a record built from pid and name alone is NEW, has no parent, no children, zero counters and no start or end tick |
| ProcessModel.TurnaroundDefinedIffEnded | src/models/process.py:33-37 | turnaround exists exactly when the process has an end tick, and then created + turnaround = end |
| ProcessModel.WaitingImpliesTurnaround | src/models/process.py:39-43 | waiting time exists exactly when both start and end ticks are set; it is then turnaround minus total burst |
| ProcessModel.WaitingTimeMayBeNegative | src/models/process.py:39-43 | waiting time is not clamped: a process that ran less than its burst gets a negative waiting time |
| RoundRobin.RoundRobinScheduler.constructor | src/core/scheduler.py:12-17 | a new scheduler has the given quantum, an empty queue, a free slot and zero counters |
| RoundRobin.AddToReadyStep | src/core/scheduler.py:19-22 | a pid already queued leaves the scheduler unchanged; any other pid is appended at the tail; a duplicate-free queue stays duplicate-free; no other field changes |
| RoundRobin.RoundRobinScheduler.AddToReady | src/core/scheduler.py:19-22 | the object's new fields are those of the add-to-ready step |
| RoundRobin.KeepOthers | src/core/scheduler.py:27-32 | the rebuild loop returns the queue with every occurrence of the pid removed, others in order |
| RoundRobin.RemoveFromReadyStep | src/core/scheduler.py:24-32 | the queue becomes the old queue with every occurrence of the pid removed and the others in their order; an absent pid changes nothing; no other field changes |
| Lists.WithoutConcat | src/core/scheduler.py:27-32 | removing a pid from two joined lists is removing it from each, so the survivors keep their relative order |
| RoundRobin.RoundRobinScheduler.RemoveFromReady | src/core/scheduler.py:24-32 | the object's new fields are those of the removal step |
| RoundRobin.GetNextStep | src/core/scheduler.py:34-38 | returns nothing exactly when the queue is empty; otherwise returns the head and leaves the rest |
| RoundRobin.RoundRobinScheduler.GetNextProcess | src/core/scheduler.py:34-38 | the returned pid and new fields are those of the dequeue step |
| RoundRobin.DrainIsQueue | src/core/scheduler.py:19-38 | dequeuing until empty yields the queued pids in insertion order (FIFO) |
| RoundRobin.AddKeepsHead | src/core/scheduler.py:19-38 | appending a pid never changes which pid is dequeued next |
| RoundRobin.PreemptStep | src/core/scheduler.py:40-56 | preemption happens exactly when a known process is running and has used its quantum; it then frees the slot, zeroes the quantum used, counts one context switch, re-queues the pid at the tail unless already queued, makes its record READY with one more preemption and changes no other record or field; otherwise nothing changes |
| RoundRobin.RoundRobinScheduler.PreemptCurrent | src/core/scheduler.py:40-56 | the result, new fields and new table are those of the preemption step |
| RoundRobin.SetRunningStep | src/core/scheduler.py:58-67 | succeeds exactly for a pid in the table, which then occupies the slot with a fresh quantum, one more context switch, and a RUNNING record otherwise unchanged; the queue, the quantum and every other record are unchanged; on failure nothing changes |
| RoundRobin.RoundRobinScheduler.SetRunning | src/core/scheduler.py:58-67 | the result, new fields and new table are those of the set-running step |
| RoundRobin.RoundRobinScheduler.Tick | src/core/scheduler.py:69-72 | one more unit of quantum used, only while a process runs |
| RoundRobin.TickStep | src/core/scheduler.py:69-72 | with a process running, one more unit of quantum used and nothing else; with the slot free, nothing changes |
| RoundRobin.TicksWhileRunning | src/core/scheduler.py:69-72 | k ticks while a process runs add exactly k to the quantum used and change nothing else |
| RoundRobin.PreemptFiresAtQuantum | src/core/scheduler.py:40-72 | after set-running and k ticks, preemption fires exactly when k reaches the quantum, and then the pid is READY and queued again, with one more preemption and two context switches |
| RoundRobin.RoundRobinScheduler.Reset | src/core/scheduler.py:74-79 | reset gives a freshly constructed scheduler with the same quantum |
| EventLog.AppendBounded | src/core/simulator.py:309-312 | appending to a log of at most 50 entries keeps it at most 50, and below the bound it is a plain append |
| SimulatorModel.FreshConsistent | src/core/simulator.py:13-48 | the engine after construction, and after reset, satisfies the invariant |
| Simulator.SimulatorEngine.constructor | src/core/simulator.py:13-48 | a new engine holds only init (pid 0, RUNNING), empty lists, tick 0, auto-reap delay 10 and the invariant |
| SimulatorModel.CreateProcess | src/core/simulator.py:50-81 | the new pid is the old counter and the counter grows by one; the new record is NEW with the given parent and burst, remaining burst equal to total burst, created now; only a truthy parent's children list gains the pid; nothing else changes |
| SimulatorModel.CreateFreshPid | src/core/simulator.py:50-81 | on a consistent engine, the new pid is positive, unused and larger than every existing pid |
| SimulatorModel.CreatePreserves | src/core/simulator.py:50-81 | creation preserves the invariant |
| Simulator.SimulatorEngine.CreateProcess | src/core/simulator.py:50-81 | the returned pid and new fields are those of the creation function, and the invariant holds |
| SimulatorModel.MoveOutcome | src/core/simulator.py:83-92 | every NEW process becomes READY and is appended to the queue in pid order; afterwards no process is NEW |
| SimulatorModel.PromoteEffect | src/core/simulator.py:83-92 | the admission loop's closed form: queue gains the NEW pids in order, exactly those records become READY |
| SimulatorModel.MovePreserves | src/core/simulator.py:83-92 | admission preserves the invariant |
| Simulator.SimulatorEngine.MoveNewToReady | src/core/simulator.py:83-92 | the new fields are those of the admission function; the count returned is the number of NEW processes |
| Simulator.SimulatorEngine.PromoteNew | src/core/simulator.py:85-91 | the loop over the table promotes each NEW pid in ascending order and counts them |
| SimulatorModel.BlockOutcome | src/core/simulator.py:94-121 | succeeds exactly for a non-init pid that is READY or RUNNING; then it is BLOCKED with the given or drawn I/O time and one more block, removed from the queue, appended to the blocked list, and freed from the slot only if it held it; no other record, list, counter or field of its record changes; on failure nothing changes |
| SimulatorModel.BlockPreserves | src/core/simulator.py:94-121 | forced blocking preserves the invariant |
| Simulator.SimulatorEngine.ForceBlockProcess | src/core/simulator.py:94-121 | result and new fields are those of the blocking function, and the invariant holds |
| SimulatorModel.TerminateOutcome | src/core/simulator.py:123-159 | succeeds exactly for a known non-init pid not yet TERMINATED; then it has no remaining burst, ends now, is in no queue, list or slot, and is ZOMBIE exactly when in the zombie list; on failure nothing changes |
| SimulatorModel.ExitDecision | src/core/simulator.py:144-157 | a finishing process becomes ZOMBIE exactly when its parent is truthy, known and not waiting; otherwise TERMINATED (reaped when the parent waits); no other field changes |
| SimulatorModel.TerminatePreserves | src/core/simulator.py:123-159 | forced termination preserves the invariant |
| SimulatorModel.TerminateLists | src/core/simulator.py:123-159 | a successful termination removes the pid from the queue and the blocked list and re-appends it to the zombie list exactly when it ends as ZOMBIE |
| SimulatorModel.TerminateEffect | src/core/simulator.py:123-159 | a successful termination frees the slot only if the process held it, and changes no other record, counter or field of its record besides state, reaped flag, burst and end tick |
| SimulatorModel.ExitEffect | src/core/simulator.py:144-157 | the exit decision changes only the exiting record and, for a ZOMBIE, appends it to the zombie list |
| SimulatorModel.DetachEffect | src/core/simulator.py:123-143 | before the exit decision, termination frees the slot it holds, removes the pid from the three lists, zeroes the burst and sets the end tick, and changes nothing else |
| Simulator.SimulatorEngine.ForceTerminateProcess | src/core/simulator.py:123-159 | result and new fields are those of the termination function, and the invariant holds |
| SimulatorModel.WaitOutcome | src/core/simulator.py:161-181 | returns exactly the zombie children in list order; each is TERMINATED, reaped and out of the zombie list; every other record is unchanged |
| SimulatorModel.WaitEffect | src/core/simulator.py:161-181 | the wait loop's closed form: reaped list, zombie list and table after the loop |
| SimulatorModel.WaitPreserves | src/core/simulator.py:161-181 | wait preserves the invariant |
| Simulator.SimulatorEngine.WaitForChild | src/core/simulator.py:161-181 | returned list and new fields are those of the wait function, and the invariant holds |
| Simulator.SimulatorEngine.RemoveFromQueues | src/core/simulator.py:183-189 | the new fields are those of removing the pid from the ready queue, the blocked list and the zombie list |
| SimulatorModel.TickOutcome | src/core/simulator.py:191-206 | a tick advances the clock by one, counts exactly one busy or idle tick, and creates and removes no process |
| SimulatorModel.TickPreserves | src/core/simulator.py:191-206 | a whole tick preserves the invariant |
| Simulator.SimulatorEngine.TickSimulation | src/core/simulator.py:191-206 | the new fields are those of the tick function, and the invariant holds |
| SimulatorModel.HandleBlockedOutcome | src/core/simulator.py:208-222 | every blocked process's positive I/O count drops by one; those at zero become READY, queued and leave the blocked list; the others stay BLOCKED |
| SimulatorModel.UnblockEffect | src/core/simulator.py:208-222 | the unblock loop's closed form: the released pids are exactly those reaching zero, appended in order |
| SimulatorModel.HandleBlockedPreserves | src/core/simulator.py:208-222 | blocked-process handling preserves the invariant |
| Simulator.SimulatorEngine.HandleBlockedProcesses | src/core/simulator.py:208-222 | the loop and the removal loop give the fields of the blocked-handling function |
| SimulatorModel.DispatchOutcome | src/core/simulator.py:224-236 | with a free slot and a non-empty queue, the head runs, is RUNNING, its start tick is set once, and one context switch is counted; otherwise nothing changes |
| SimulatorModel.ScheduleCountsOnce | src/core/simulator.py:224-242 | scheduling counts exactly one busy or idle tick and keeps the clock, the counter and the table's pids |
| SimulatorModel.SchedulePreserves | src/core/simulator.py:224-242 | scheduling preserves the invariant |
| Simulator.SimulatorEngine.ScheduleProcesses | src/core/simulator.py:224-242 | the new fields are those of the scheduling function |
| SimulatorModel.ExecuteOutcome | src/core/simulator.py:244-295 | one busy tick and one unit of burst consumed; at the end of the burst the process exits now, frees the slot and joins the zombie list exactly as a ZOMBIE; with a block draw it is BLOCKED for the drawn time with one more block and appended to the blocked list; otherwise it is preempted exactly when the quantum is used up (READY, one more preemption, appended to the queue, one context switch), else keeps running with one more unit of quantum used |
| SimulatorModel.ExecutePreserves | src/core/simulator.py:244-295 | executing the running process preserves the invariant |
| SimulatorModel.ExecuteFrame | src/core/simulator.py:244-295 | executing keeps the clock, the counter and the pids, and changes no record but the running one |
| Simulator.SimulatorEngine.ExecuteCurrentProcess | src/core/simulator.py:244-295 | the new fields are those of the execution function |
| SimulatorModel.AutoReapOutcome | src/core/simulator.py:297-307 | every zombie old enough becomes TERMINATED, reaped and leaves the list; every zombie left is not yet due |
| SimulatorModel.ReapEffect | src/core/simulator.py:297-307 | the auto-reap loop's closed form: exactly the due zombies are reaped and removed |
| SimulatorModel.AutoReapPreserves | src/core/simulator.py:297-307 | auto-reaping preserves the invariant |
| Simulator.SimulatorEngine.AutoReapZombies | src/core/simulator.py:297-307 | the loop gives the fields of the auto-reap function |
| Simulator.SimulatorEngine.LogEvent | src/core/simulator.py:309-312 | logging appends one entry to the bounded log and changes no engine field |
| SimulatorModel.FinishedBelowComplete | src/core/simulator.py:334 | every finished process other than init is among the processes whose turnaround and waiting times are averaged |
| SimulatorModel.MetricsMatchStates | src/core/simulator.py:314-358 | on a consistent engine, the total counts init, and the ready, blocked and zombie counts equal the number of processes in those states; running counts init plus the occupied slot |
| SimulatorModel.FinishedOutOfQueues | src/models/process.py:45-47 | on a consistent engine a finished (TERMINATED or ZOMBIE) process is in neither the queue, the blocked list nor the slot, and is in the zombie list exactly when ZOMBIE |
| SimulatorModel.WaitingCountedWithTurnaround | src/core/simulator.py:334-343 | no more waiting times are averaged than turnaround times |
| SimulatorModel.FreshMetrics | src/core/simulator.py:314-358 | a new engine reports one process (init, running), nothing else, and elapsed ticks 1 |
| Simulator.SimulatorEngine.Reset | src/core/simulator.py:360-371 | reset gives a fresh engine with the old quantum and auto-reap delay, and the invariant holds |
| SimulatorModel.SetQuantum | src/core/simulator.py:373-375 | the quantum becomes the given value, or exactly 1 when that is smaller than 1; nothing else changes |
| SimulatorModel.SetQuantumPreserves | src/core/simulator.py:373-375 | setting the quantum preserves the invariant |
| Simulator.SimulatorEngine.SetQuantum | src/core/simulator.py:373-375 | the new fields are those of the set-quantum function |
| SimulatorModel.GetProcessTree | src/core/simulator.py:377-383 | the tree holds an entry for exactly the root pids of the table, each with that process's record, and each entry is exactly its root's subtree |
| SimulatorModel.BuildSubtree | src/core/simulator.py:385-399 | an unknown pid gives the empty subtree; a known one holds its record and one child entry per listed child, in list order |
| SimulatorModel.BuildKidsEntries | src/core/simulator.py:396-397 | each entry built by the loop over the children is the empty dict for an unknown child and otherwise that child's own subtree |
| SimulatorModel.SubtreeChildren | src/core/simulator.py:385-399 | under a known process, each listed child's entry is empty exactly when the child is unknown, and otherwise it is the child's own subtree holding the child's record |
| SimulatorModel.InitFirstRoot | src/core/simulator.py:377-383 | on a consistent engine, init is the first root of the tree |
| SimulatorModel.ParentZeroOutsideTree | src/core/simulator.py:76-78 | on a consistent engine, a process created with parent 0 is no root of the tree and is listed as a child by no process |
| SimulatorModel.TreeRootsMatchHierarchy | src/core/simulator.py:377-383 | for any ranking of the table, the engine's tree and the hierarchy builder list the same roots in the same order |
| SimulatorModel.AtMostOnePlace | src/core/simulator.py:183-189 | on a consistent engine, a non-init process is in at most one of the ready queue, the blocked list, the zombie list and the slot |
| CustomTkModel.FreshConsistent | simulador_procesos_customtk.py:68-108 | the engine after construction satisfies the invariant |
| CustomTk.SimulatorEngine.constructor | simulador_procesos_customtk.py:68-108 | a new engine holds only init, quantum 3, auto-reap delay 10, empty lists, and the invariant |
| CustomTkModel.CreateProcess | simulador_procesos_customtk.py:110-137 | the new pid is the old counter and the counter grows by one; the record is NEW with the given or drawn burst, remaining equal to total, created now; only a truthy parent's children list gains the pid |
| CustomTkModel.CreateFreshPid | simulador_procesos_customtk.py:110-137 | on a consistent engine, the new pid is positive, unused and larger than every existing pid |
| CustomTkModel.CreatePreserves | simulador_procesos_customtk.py:110-137 | creation preserves the invariant |
| CustomTk.SimulatorEngine.CreateProcess | simulador_procesos_customtk.py:110-137 | the returned pid and new fields are those of the creation function, and the invariant holds |
| CustomTkModel.MoveOutcome | simulador_procesos_customtk.py:139-148 | every NEW process becomes READY and is appended in pid order; afterwards none is NEW |
| CustomTkModel.PromoteEffect | simulador_procesos_customtk.py:139-148 | the admission loop's closed form: queue and table after the loop |
| CustomTkModel.MovePreserves | simulador_procesos_customtk.py:139-148 | admission preserves the invariant |
| CustomTk.SimulatorEngine.MoveNewToReady | simulador_procesos_customtk.py:139-148 | the new fields are those of the admission function; the count returned is the number of NEW processes |
| CustomTkModel.BlockOutcome | simulador_procesos_customtk.py:150-182 | succeeds exactly for a known pid that is READY or RUNNING (init included); then it is BLOCKED with the given or drawn I/O time and one more block, removed from the deque, appended to the blocked list, and freed from the slot only if it held it; no other record, list, counter or field of its record changes; on failure nothing changes |
| CustomTkModel.InitCanBeBlocked | simulador_procesos_customtk.py:150-182 | init itself can be force-blocked |
| CustomTkModel.BlockPreserves | simulador_procesos_customtk.py:150-182 | forced blocking preserves the invariant |
| CustomTk.SimulatorEngine.ForceBlockProcess | simulador_procesos_customtk.py:150-182 | result and new fields are those of the blocking function, and the invariant holds |
| CustomTk.SimulatorEngine.DropFromReady | simulador_procesos_customtk.py:173-178 | draining the deque into a temporary one leaves the queue with every occurrence of the pid removed, others in order |
| CustomTkModel.TerminateOutcome | simulador_procesos_customtk.py:184-220 | succeeds exactly for a known non-init pid not yet TERMINATED; then it ends now with no remaining burst, is in no list or slot, and is ZOMBIE exactly when in the zombie list |
| CustomTkModel.ExitDecision | simulador_procesos_customtk.py:205-218 | a finishing process becomes ZOMBIE exactly when its parent is truthy, known and not waiting; otherwise TERMINATED |
| CustomTkModel.TerminatePreserves | simulador_procesos_customtk.py:184-220 | forced termination preserves the invariant |
| CustomTkModel.TerminateLists | simulador_procesos_customtk.py:184-220 | a successful termination removes the pid from the deque and the blocked list and re-appends it to the zombie list exactly when it ends as ZOMBIE |
| CustomTkModel.TerminateEffect | simulador_procesos_customtk.py:184-220 | a successful termination frees the slot only if the process held it, and changes no other record, counter or field of its record besides state, reaped flag, burst and end tick |
| CustomTkModel.ExitEffect | simulador_procesos_customtk.py:205-218 | the exit decision changes only the exiting record and, for a ZOMBIE, appends it to the zombie list |
| CustomTkModel.DetachEffect | simulador_procesos_customtk.py:184-204 | before the exit decision, termination frees the slot it holds, removes the pid from the three lists, zeroes the burst and sets the end tick, and changes nothing else |
| CustomTk.SimulatorEngine.ForceTerminateProcess | simulador_procesos_customtk.py:184-220 | result and new fields are those of the termination function, and the invariant holds |
| CustomTkModel.WaitOutcome | simulador_procesos_customtk.py:222-242 | returns exactly the zombie children in list order, each TERMINATED, reaped and out of the zombie list; every other record is unchanged |
| CustomTkModel.WaitEffect | simulador_procesos_customtk.py:222-242 | the wait loop's closed form |
| CustomTkModel.WaitPreserves | simulador_procesos_customtk.py:222-242 | wait preserves the invariant |
| CustomTk.SimulatorEngine.WaitForChild | simulador_procesos_customtk.py:222-242 | returned list and new fields are those of the wait function, and the invariant holds |
| CustomTk.SimulatorEngine.RemoveFromQueues | simulador_procesos_customtk.py:244-261 | the new fields are those of removing the pid from the ready deque, the blocked list and the zombie list |
| CustomTkModel.TickOutcome | simulador_procesos_customtk.py:263-281 | a tick advances the clock by one, counts exactly one busy or idle tick, and creates and removes no process |
| CustomTkModel.TickPreserves | simulador_procesos_customtk.py:263-281 | a whole tick preserves the invariant |
| CustomTk.SimulatorEngine.TickSimulation | simulador_procesos_customtk.py:263-281 | the new fields are those of the tick function, and the invariant holds |
| CustomTkModel.HandleBlockedOutcome | simulador_procesos_customtk.py:283-299 | each blocked process's positive I/O count drops by one; exactly those at 1 become READY, queued and unblocked; the others stay BLOCKED |
| CustomTkModel.NonPositiveIoStaysBlocked | simulador_procesos_customtk.py:289-295 | a blocked process whose I/O count is zero or less is never released |
| CustomTkModel.UnblockEffect | simulador_procesos_customtk.py:283-299 | the unblock loop's closed form |
| CustomTkModel.HandleBlockedPreserves | simulador_procesos_customtk.py:283-299 | blocked-process handling preserves the invariant |
| CustomTk.SimulatorEngine.HandleBlockedProcesses | simulador_procesos_customtk.py:283-299 | the two loops give the fields of the blocked-handling function |
| CustomTkModel.DispatchOutcome | simulador_procesos_customtk.py:301-317 | with a free slot and a non-empty deque, the head runs, is RUNNING, its start tick is set once, and one context switch is counted; otherwise nothing changes |
| CustomTkModel.ScheduleCountsOnce | simulador_procesos_customtk.py:301-323 | scheduling counts exactly one busy or idle tick and keeps the clock, the counter and the table's pids |
| CustomTkModel.SchedulePreserves | simulador_procesos_customtk.py:301-323 | scheduling preserves the invariant |
| CustomTk.SimulatorEngine.ScheduleProcesses | simulador_procesos_customtk.py:301-323 | the new fields are those of the scheduling function |
| CustomTkModel.ExecuteOutcome | simulador_procesos_customtk.py:325-381 | one busy tick and one unit of burst consumed; at the end of the burst the process exits now, frees the slot and joins the zombie list exactly as a ZOMBIE; with a block draw it is BLOCKED with one more block and appended to the blocked list; otherwise it is preempted exactly when the quantum is used up (READY, one more preemption, appended to the deque, one context switch), else keeps running with one more unit of quantum used |
| CustomTkModel.ExecutePreserves | simulador_procesos_customtk.py:325-381 | executing the running process preserves the invariant |
| CustomTkModel.ExecuteFrame | simulador_procesos_customtk.py:325-381 | executing keeps the clock, the counter and the pids, and changes no record but the running one |
| CustomTk.SimulatorEngine.ExecuteCurrentProcess | simulador_procesos_customtk.py:325-381 | the new fields are those of the execution function |
| CustomTkModel.AutoReapOutcome | simulador_procesos_customtk.py:383-392 | every due zombie becomes TERMINATED, reaped and leaves the list; every zombie left is not due |
| CustomTkModel.EndTickZeroNeverReaped | simulador_procesos_customtk.py:388 | a zombie whose end tick is 0 is never auto-reaped |
| CustomTkModel.ReapEffect | simulador_procesos_customtk.py:383-392 | the auto-reap loop's closed form |
| CustomTkModel.AutoReapPreserves | simulador_procesos_customtk.py:383-392 | auto-reaping preserves the invariant |
| CustomTk.SimulatorEngine.AutoReapZombies | simulador_procesos_customtk.py:383-392 | the loop gives the fields of the auto-reap function |
| CustomTk.SimulatorEngine.LogEvent | simulador_procesos_customtk.py:394-397 | logging appends one entry to the bounded log and changes no engine field |
| CustomTkModel.GetMetrics | simulador_procesos_customtk.py:399-430 | elapsed ticks are at least one; ready, blocked and zombie counts are the list lengths; the waiting sum is never negative; the number of averaged processes never exceeds the number of TERMINATED processes |
| CustomTkModel.TerminatedBelowComplete | simulador_procesos_customtk.py:402-403 | every TERMINATED process other than init is among the processes the averages are taken over |
| CustomTkModel.CountMeasured | simulador_procesos_customtk.py:410-411 | the key-by-key count of measured TERMINATED processes other than init never exceeds the TERMINATED count |
| CustomTkModel.MeasuredOverTable | simulador_procesos_customtk.py:402-419 | the number of averaged processes equals the key-by-key count of measured TERMINATED processes other than init |
| CustomTkModel.MetricsMeasureAll | simulador_procesos_customtk.py:399-430 | `get_metrics` averages over exactly the measured TERMINATED processes other than init |
| CustomTkModel.ClampedWaiting | simulador_procesos_customtk.py:415-418 | a measured waiting time is turnaround minus total burst when that is positive and 0 otherwise |
| CustomTkModel.MetricsMatchStates | simulador_procesos_customtk.py:399-430 | on a consistent engine, the total excludes init, and the ready, blocked and zombie counts equal the number of processes in those states |
| CustomTkModel.UnmeasuredIgnored | simulador_procesos_customtk.py:410-419 | processes created at tick 0 or without a truthy end tick add nothing to the averages |
| CustomTkModel.WaitingBoundedByTurnaround | simulador_procesos_customtk.py:410-419 | with non-negative bursts and ends after creation, the waiting sum lies between 0 and the turnaround sum |
| CustomTkModel.FreshMetrics | simulador_procesos_customtk.py:399-430 | a new engine reports no processes, no activity and elapsed ticks 1 |
| CustomTk.SimulatorEngine.GetMetrics | simulador_procesos_customtk.py:399-430 | the loop over terminated processes gives exactly the metrics function of the state |
| TreeFormatter.TreeTextLines | src/utils/tree_formatter.py:11-24 | an empty tree gives the fixed empty text; otherwise the text starts with the header and has 3 + one line per node |
| TreeFormatter.SubtreeLines | src/utils/tree_formatter.py:25-57 | a subtree renders as one line per node |
| TreeFormatter.LineHasOneBreak | src/utils/tree_formatter.py:25-57 | one process renders as exactly one line, with or without details |
| TreeFormatter.GetProcessHierarchy | src/utils/tree_formatter.py:58-74 | position by position, the result is the node of each root in the table's iteration order, so it holds every root's node and nothing else; it asks only for a ranking that shows no cycle is reachable from a root |
| TreeFormatter.RootKeysStep | src/utils/tree_formatter.py:63-66 | the roots are collected in iteration order: one more key appends itself exactly when it is a root |
| TreeFormatter.BuildNode | src/utils/tree_formatter.py:75-91 | a node carries its process's pid, name and state |
| TreeFormatter.NodeChildrenInOrder | src/utils/tree_formatter.py:75-91 | a node's children are, position by position, the nodes of its listed children that are in the table, in list order |
| TreeFormatter.ChildrenInOrder | src/utils/tree_formatter.py:84-89 | the children loop yields, position by position, the node of each listed child present in the table, skipping the others |
| TreeFormatter.LinkedRanked | src/utils/tree_formatter.py:75-91 | a table in the engines' shape (a listed child names its lister as parent and has a pid no smaller) always has a ranking, so the builder terminates on it |
| TreeFormatter.UnlinkedTableRanked | src/utils/tree_formatter.py:58-91 | the ranking admits a table the engines' shape does not: a child listed by a process but naming no parent |
| TreeFormatter.UnlinkedTableHierarchy | src/utils/tree_formatter.py:58-91 | on that table both processes are roots and the listed child appears twice, on its own and under its lister |
| TreeFormatter.HierarchyComplete | src/utils/tree_formatter.py:58-91 | on a ranked table in the engines' shape, when children are listed under their parents and no process is its own parent, every process occurs in the hierarchy |
| TreeFormatter.NodeSound | src/utils/tree_formatter.py:75-91 | every pid occurring in a built node is a key of the table |

## Left out

- GUI code, the CustomTkinter window, CSV export and summary dialogs (`simulador_procesos_customtk.py` from line 432 on, `src/gui/`, `main.py`) are not part of this model.
- The priority scheduler that `src/core/simulator.py` imports is not part of this model. The `Simulator` engine runs on `RoundRobin` instead, so it has no priority queues, no aging and no priority preemption. Process priorities are stored but never read.
- RoundRobin: the engine calls `add_to_ready` and `tick` with the process table as an extra argument (`src/core/simulator.py` lines 89, 218 and 253), which the round-robin signatures (`src/core/scheduler.py` lines 19 and 69) do not take. The model calls them without it. The queue-order properties therefore describe the round-robin stand-in, not the priority scheduler the engine constructs (`src/core/simulator.py` line 17).
- `get_ready_queue_info` and the `priority_info` string of `get_metrics` are left out because they belong to the priority scheduler.
- Randomness becomes parameters. The drawn burst (5..15), priority (0..8) and I/O times (3..8 and 2..6 for forced blocks, 2..5 in execution) are arguments constrained to the `randint` ranges. The `random() < p_block` draw is a boolean argument. `p_create` is never read by the engines.
- Log messages: the event log holds opaque entries stamped with the tick. Only its bound of 50 (`deque(maxlen=50)`) is modelled, not the message text or the timestamp format.
- Floating point: CPU utilisation and the averages of the metrics are left as integer sums, counts and the elapsed-tick divisor. The division is not modelled.
- Python dict iteration order is modelled as ascending pid. The engine tables hold exactly the pids `0 .. pidCounter-1`, inserted in that order and never deleted.
- SimulatorModel.HandleBlocked: releases a process whose I/O count is already 0, because `src/core/simulator.py` tests for zero outside the positive-count branch.
- CustomTkModel.HandleBlocked: releases only a process whose positive count reaches 0, because `simulador_procesos_customtk.py` tests inside that branch. A forced block with an I/O time of 0 or less therefore stays BLOCKED forever (NonPositiveIoStaysBlocked).
- CustomTkModel.ForceBlock: has no guard against pid 0, so init can be blocked (InitCanBeBlocked). Unlike the other engine, the running slot may then hold init.
- CustomTkModel.DueForReap: requires a truthy end tick, so a zombie that ended at tick 0 is never auto-reaped (EndTickZeroNeverReaped).
- CustomTkModel.GetMetrics: `total_processes` excludes init, and only processes with a truthy end tick and a non-zero created tick are averaged, as the source does.
- `waiting_for_child` is never set to true by either engine. The model keeps the field and the branches that read it, but every reachable state has it false.
- A parent pid of 0 is falsy in Python, so a child created with parent 0 is linked to no parent and exits as TERMINATED, never ZOMBIE. The model follows the truthiness test (`Truthy`). Such a child is also missing from `get_process_tree` and `get_process_hierarchy`: 0 is a known pid, so the child is not a root, and init never lists it (ParentZeroOutsideTree).
- A burst of 0 given to `create_process` gives a remaining burst of -1 after the first tick. The process still exits on that tick, as in the source.
- `_build_subtree` in `src/core/simulator.py` has no cycle guard. Its termination is proved from the table's shape: a listed child has a pid no smaller than its parent's. That leaves one cycle, a process created with its own pid as parent. Such a process is never a root and is listed only by itself, so the tree never reaches it; BuildSubtree requires its argument not to be such a process.
- TreeFormatter.GetProcessHierarchy: the source has no cycle guard and recurses forever on a cycle reachable from a root. The model asks for a ranking (`Ranked`) as evidence that no such cycle exists; it is a ghost argument and does not change the result.
- TreeFormatter.BuildNode: takes the same ghost ranking as GetProcessHierarchy, as evidence that the recursion over children lists ends; the node built does not depend on it.
- TreeFormatter.FormatTreeText: every line's characters are defined, but the only properties proved are the empty-tree text, the header and the line count.
