# LogxControll in Dafny

A model of the LogxControll circuit engine and proofs about it. `dafny verify dfyconfig.toml` checks all of it.

The files follow the engine's parts:

- **Worker pool** (`RerunnableThread`, `WorkerPool`, `WorkerPoolInvariant`, `WorkerPoolTheorems`, `WorkerPoolRest`,
  `WorkerPoolCodes`, `WorkerPoolExit`, `WorkerPoolSelfWait`, `WorkerPoolFair`, `WorkerPoolRuns`, `WorkerPoolTryLock`,
  `StaleWakeup`): clients and workers as a state machine of atomic steps, one per lock operation or access to a shared
  field, with the program counter of every executor and of the caller inside `pool_lock`. `WorkerPool.Step` is one step;
  `WorkerPool.After` is a whole run. One invariant is kept by every step, and the guarantees are read off it.
- **Circuits** (`Circuit`, `GateLaws`): gates as functions of the vector of their wired inputs, and for each wire the
  ports it drives. Heights that fall along every gate stand for "acyclic". The laws say, port by port and on the fields
  of a gate alone, when it is ready, what it reads and what its outputs get.
- **Direct wires** (`DirectWires`, `DirectLaws`, `ReferenceCounts`, `DirectBoard`): the depth-first propagation as
  functions with the code's call structure, the fixpoint they reach, and a board in memory with reference-counted values
  whose methods compute exactly those functions.
- **Queued notifications** (`QueuedBoard`, `QueuedBooks`, `QueuedSafety`, `QueuedCalls`, `QueuedEnds`, `QueuedSettles`,
  `QueuedFeedback`, `QueuedLaws`): the same circuits when each gate may be notified at once, through the loop breaker or
  by a task posted to workers, in small steps with an explicit call stack and every reference counted.
- **Token wires** (`TokenWires`, `TokenLaws`, `TokenBoard`, `TokenRounds`, `TokenReads`, `TokenSafety`, `TokenWrapper`):
  the same for tokens at the gate ports; a round of drives has one outcome whatever the order, and it is the one direct
  wires settle at; and what gates that absorb their tokens before they read them need to find in memory.
- **Sorting network** (`SortNetwork`, `SortRun`, `SortBuilder`): the triangle for every n, its builder, and the end to
  end result on direct wires.
- **Logic gates** (`BoolGates`, `BoolCircuits`) and the **multistage network** (`Multistage`), the circuit that shows
  glitches and their absence.
- **Loop breaker** (`LoopBreaker`): the call stack and queue as a state machine; gate code may call back at will.
- **Hash map** (`ProbeTable`, `HashGrowth`, `HashMap`, `HashMapLoss`, `ShiftRegister`, `Crc32`): bounded linear probing,
  the growth of the table as functions with refills that may have to refill again, the map that computes them, and the
  checksum behind the hash.
- **Heap structures** (`NullTerminated`, `Wiring`, `WiringOutputs`, `WiringLaws`, `IntrusiveQueue`, `LibraryTree`): both
  records of a connection, the linked queue, and the tree of library paths.

Methods are proved against functions. What those functions do is pinned down by statements that do not use them:
`GateLaws`, `DirectLaws`, `TokenLaws`, `QueuedLaws`, `WiringLaws` and `WorkerPoolCodes` say for every state what one
call may change and must change, and what it answers, on the fields of gates, wires, ports and threads.

The findings are stated as theorems, with the condition under which the code is right:

- `StaleWakeup.NullCallIffUnguarded`: a re-runnable thread on its own can be made to call a null function, because
  `rrt_try_rerun_if_free` broadcasts after it has released `rt_lock`. Run by run the cause is a broadcast to an executor
  that has parked again with nothing to do (`NullCallHadStaleBroadcast`, `BroadcastCallsNullIff`). The worker pool is
  safe because `on_release` waits for `pool_lock`.
- `TokenReads.ReadsLiveIff`: the functional wrapper absorbs its tokens, and so may free their values, before it reads
  them; it reads only values in memory exactly when every counted token at its ports has a count above the number of its
  own ports that hold the value. `TokenReads.FirstTokenFreed` is an input that fails: two inputs, each driven by create,
  drive, unreference. For whole rounds of circuits whose gates create their outputs the condition is
  `TokenSafety.SafeRound`: whenever a gate fires, the drive of each of its inputs is still under way or another gate
  still holds a token of it (`TokenWrapper.WrapperBoard.Round`). All rounds are safe when each gate reads one wire
  (`TokenSafety.OneWireRound`), none in which a gate that fires reads two sources, the first alone
  (`TokenSafety.TwoSourcesUnsafe`). The logic gates copy first and need no condition (`TokenBoard`); a round is safe for
  any gate that creates nothing when creators give their references back at its end (`TokenRounds.LentRound`).
- `QueuedFeedback.HandedOnFreed`: in a circuit with feedback a gate that hands on the values of its inputs, as the
  sorter box does, can drive a wire with a freed value. `QueuedSafety.SafeExactly` says for every circuit when that
  happens: the next step is safe exactly when the value it hands on without a reference of its own
  (`QueuedBooks.ProceedSafeIff`) is held by a slot, a task, another call or a client. It always is in circuits without
  feedback and in circuits whose gates create their values or use constants (`QueuedCalls.AlwaysBalanced`).
- `Wiring.UnwireAgreesIff`: unwiring an input looks for the gate and the index only, so it frees the wrong record
  exactly when another connected port of that gate with the same index is listed before it in the wire's array. It
  cannot happen when every connection uses its wire's own subtype.
- `WorkerPoolSelfWait.TaskPolls`: a task that calls `wp_wait_exit` while the pool is shutting down polls for the exit of
  its own thread, for ever (`WorkerPoolRest.PollsForEver`); in any other status the call returns an error at once.
  `WorkerPoolExit.RestIff` is the exact condition, for every reachable state: the pool can come to rest without new
  calls unless a task polls, or is past the status test, or waits to make it, will find the pool shutting down and no
  outside caller can be first.
- `WorkerPoolTryLock.TriesForEver`: a shutdown can fail at its try-lock for ever under a schedule that is only weakly
  fair (the code gives up after 149 tries, with an error that `shutdown_all` takes for a failed test). From every
  reachable state a run without new calls comes to rest exactly when it is strongly fair and never doomed
  (`WorkerPoolRuns.FairRestIff`), and then every accepted task has run once (`WorkerPoolRuns.FairRunsDoAll`).
- `HashMapLoss.LosesEntries`: a put that runs out of memory can lose entries that were in the map: with eight keys of
  code 248, seven of the codes after it and 512 slots granted, a ninth key of code 248 makes seven of the fifteen keys
  disappear. A put loses an entry exactly when a doubling that it makes for its own key is granted but memory runs out
  in the refill (`HashGrowth.PutLosesIff`, `HashMap.Map.Put`); when only one doubling is granted, exactly when the
  entries, put in slot order, do not all fit into the doubled table (`HashGrowth.OneDoublingLosesIff`). What is left is
  what had been put again before the first entry without a place (`HashGrowth.Kept`).
- `BoolGates.AndIsConjunctionIff`: the gate called "and" computes a nor; it is a conjunction exactly when its inputs are
  not all equal.
- `HashMap.PutTwice`: `hashmap_length` counts puts since the last refill, not keys: one key put twice has length 2. It
  is the number of keys plus the overwrites since then (`HashMap.Map.Length`).

Where comments and code disagree the model follows the code: the comment above the sorting network names the wire to the
right after `nth(i+1, j)`, the code after `nth(i-1, j)`; the comment on the nand gate says an unwired gate gives false,
the code gives nothing; `hashmap_length` counts puts since the last refill, not keys.

Assumed: ideal mutexes, a condition variable without spurious wake-ups (the wait is an `if`), one thread inside a
circuit at a time, gate functions without side effects on the circuit. A notification without a value is modelled as one
with a constant.

Every induction is written out: lemmas for which Dafny would add an induction hypothesis of its own carry `{:induction
false}`.

## Model

| member | source | states |
|---|---|---|
| WorkerPoolInvariant.StepKeeps | core/utils/worker_pool.c:10-208 | every atomic step of every client and worker keeps the pool's invariant: locks match program counters, lists match statuses, every installed task has one owner |
| WorkerPoolInvariant.RunKeeps | core/utils/rerunnable_thread.c:45-271 | the invariant holds after every interleaving of any number of submitters, workers, shutdowns and waiters |
| WorkerPoolTheorems.AcceptedRunsAtMostOnce | core/utils/worker_pool.c:72-114 | a task whose submit returned 0 starts at most once, and until then exactly one worker will call it |
| WorkerPoolTheorems.AtRestAllDone | core/utils/rerunnable_thread.c:119-187 | when every executor is parked or gone and nobody is inside the pool, every installed task has run to its end exactly once |
| WorkerPoolTheorems.WaitExitMeansDone | core/utils/worker_pool.c:174-208 | once `wp_wait_exit` has returned 0 every thread has exited and every accepted task has finished exactly once, also those accepted but not started when the shutdown arrived |
| WorkerPoolTheorems.NoBadCall | core/utils/worker_pool.c:102-139 | no submit returns the busy code, no shutdown meets a thread it cannot ask to exit, and an executor never calls null or the poison pointer |
| WorkerPoolTheorems.ListsAgree | core/utils/worker_pool.c:18-42 | while the pool is available and its lock is free the free list holds exactly the idle threads that are past the release callback, and the busy list exactly the others |
| WorkerPoolCodes.SubmitCodes | core/utils/worker_pool.c:72-114 | in every run a submit about to return refuses for shutdown if and only if the pool is not available, for want of a thread only when none is free, and returns 0 if and only if its task was given to a thread |
| WorkerPoolCodes.SubmitOutcome | core/utils/worker_pool.c:72-114 | by the state in which it got the lock: a pool that is not available is left as it was; a free thread takes the task, leaves the free list and joins the busy one; only without a free thread a new one is made or the submit refused; no other task or list entry changes |
| WorkerPoolCodes.SpawnDecides | core/utils/worker_pool.c:87-95 | with no free thread an available pool accepts when a thread can be made and refuses when none can |
| WorkerPoolCodes.InstalledIsAccepted | core/utils/worker_pool.c:99-113 | every task that was given to a thread is one whose submit returned 0, or is about to |
| WorkerPoolCodes.ShutdownOutcome | core/utils/worker_pool.c:133-159 | a shutdown succeeds if and only if the pool was available; then every thread has been asked to exit or has exited; lists and tasks stay |
| WorkerPoolCodes.WaitOutcome | core/utils/worker_pool.c:161-208 | a first wait is refused if and only if the pool was not shutting down; a wait returns 0 only when every thread has exited and sleeps only when some thread had not when it got the lock |
| WorkerPoolTheorems.NoLostWakeUp | core/utils/rerunnable_thread.c:45-91 | a parked executor has nothing to do, or the caller that changed its status still owes the broadcast |
| WorkerPoolTheorems.LockOrder | core/utils/rerunnable_thread.c:228-262 | blocking acquisitions follow pool_lock, condition mutex, rt_lock; only the try-lock goes the other way |
| WorkerPoolTheorems.NoWaitCycle | core/utils/rerunnable_thread.c:45-91 | in no run does a cycle of threads wait for one another's locks |
| WorkerPoolTheorems.NeverStuck | core/utils/worker_pool.c:10-208 | deadlock freedom: in every reachable state that is not at rest some thread can take a step |
| WorkerPoolTheorems.StepGoesDown | core/utils/rerunnable_thread.c:119-187 | every step that is neither a new call nor a retry lowers a well-founded measure of the pool |
| WorkerPoolTheorems.NoEndlessRun | core/utils/worker_pool.c:174-208 | no run goes on for ever with finitely many calls and retries, so it comes to rest |
| WorkerPoolRest.ComesToRest | core/utils/rerunnable_thread.c:189-262 | livelock freedom: from every reachable state in which no task of the pool is inside `wp_wait_exit` there is a continuation without any new call that comes to rest, so every repeated try-lock and every poll can end |
| WorkerPoolExit.RestIff | core/utils/worker_pool.c:174-208 | in every reachable state: some continuation without a new call comes to rest if and only if no task of the pool is inside `wp_wait_exit` past its status test, nor bound to pass it because its first wait is pending, the pool is or will be shutting down, and no outside caller's first wait can come first |
| WorkerPoolSelfWait.TaskPolls | core/utils/worker_pool.c:174-208 | an input: a task is submitted and started, a client shuts the pool down, the task calls `wp_wait_exit`, and polls |
| WorkerPoolFair.RestIffFair | core/utils/worker_pool.c:174-208 | from any state that keeps the invariant, a run without new calls that stops only at rest comes to rest if and only if each thread that can move again and again does move again and again and no task of the pool ever polls for the exit of its own thread |
| WorkerPoolFair.OutsideRestIffFair | core/utils/rerunnable_thread.c:228-262 | no task of the pool being inside `wp_wait_exit`, fairness alone decides: in every fair run every shutdown and every `wp_wait_exit` called from outside returns |
| WorkerPoolRuns.FairRestIff | core/utils/worker_pool.c:174-208 | from every reachable state a run without new calls comes to rest if and only if it is fair and never doomed in the sense of `WorkerPoolExit.RestIff` |
| WorkerPoolRuns.TaskFirst | core/utils/worker_pool.c:174-208 | an input: a reachable state that is not doomed, with an outside caller and a task both about to make the status test, from which the task goes first and the pool is doomed |
| WorkerPoolRuns.FairRunsDoAll | core/utils/worker_pool.c:72-139 | in every fair run that is never doomed there is a moment from which on the pool is at rest and every task whose submit returned 0 has started once and finished once |
| WorkerPoolRuns.OutsideRunsDoAll | core/utils/worker_pool.c:72-139 | so in every fair run that starts with no task inside `wp_wait_exit` every accepted task runs exactly once to its end |
| WorkerPoolFair.StepLowers | core/utils/worker_pool.c:10-208 | every step but a poll or a turn of the try-lock loop lowers a measure |
| WorkerPoolFair.StepRepeats | core/utils/rerunnable_thread.c:231-237 | and those two leave it as it is, with every thread where it was |
| WorkerPoolTryLock.TriesForEver | core/utils/rerunnable_thread.c:228-238 | from a reachable state a run in which every thread that can move at each moment from some point on does move, and the shutdown's try-lock never succeeds |
| WorkerPoolRest.Next | core/utils/worker_pool.c:174-208 | from a state without a failing try-lock or a walk over live threads, some step that is no retry leads to another such state until the pool is at rest |
| WorkerPoolRest.PollsForEver | core/utils/worker_pool.c:187-207 | once a task of the pool has passed the status test of `wp_wait_exit`, which only a pool that is shutting down lets it pass, and polls for the exit of its own thread, no run ever comes to rest |
| StaleWakeup.LateBroadcast | core/utils/rerunnable_thread.c:76-84 | a run of a thread without the pool's callback in which a late broadcast wakes an executor that parked again, and it calls null |
| StaleWakeup.NullCallIffUnguarded | core/utils/rerunnable_thread.c:62-187 | such a call is possible with no callback, or one that returns without waiting, and impossible when the callback waits for the caller still inside `rrt_try_rerun_if_free` |
| StaleWakeup.NullCallHadStaleBroadcast | core/utils/rerunnable_thread.c:76-84 | whatever the callback, every run that calls null had a broadcast while the executor was parked and idle |
| StaleWakeup.BroadcastCallsNullIff | core/utils/rerunnable_thread.c:76-84 | at any broadcast of any run: the executor, taking its next four steps alone, calls null exactly when it had parked with nothing to do |
| GateLaws.ReadyIs | core/builtins/functional_wrapper.c:22-53 | a gate is ready exactly when each wired input holds a value and, if it wants all, each port is wired |
| GateLaws.InputsAre | core/builtins/functional_wrapper.c:72-79 | what it reads is, in port order, the value at each wired port, and nothing else |
| GateLaws.OutIs | core/builtins/functional_wrapper.c:85-98 | it drives a port with v exactly when its function hands v to the port and, under a type test, the test passes |
| GateLaws.MakesIs | core/builtins/functional_wrapper.c:22-105 | the three together, for the wire at a port |
| DirectLaws.DriveFollows | core/facet.c:235-287 | a drive writes its own value first; every later write of its log is what some enabled gate made of the values at that moment, and passed the gate's test; the final values are those writes and nothing else |
| DirectLaws.UnmadeStays | core/facet.c:246-260 | a wire for which no gate can make a value keeps its value and is not in the new part of the log |
| DirectLaws.SilentStays | core/facet.c:246-260 | so does a wire whose drivers are disabled or hand nothing to its port |
| DirectLaws.DrivenFits | core/builtins/functional_wrapper.c:92-98 | every value that a drive makes a gate under a test p put on the wire of port j satisfies p(j, value) |
| DirectLaws.SettledShows | core/builtins/functional_wrapper.c:85-98 | and in a settled circuit an enabled gate with complete inputs shows on the wire of port j the value handed to it, when p(j, value) |
| DirectLaws.DriveCounts | core/facet.c:240-286 | when every gate can fire, a drive writes each wire once per path that leads to it: how many glitches there are |
| DirectLaws.DriveOrder | core/facet.c:240-286 | and in this order: a wire, then for each of its ports in wiring order, for each output of the port's gate in port order, all that follows there |
| DirectWires.DriveEffect | core/facet.c:200-287 | a drive stores its value, leaves wires above it alone and every port that agreed with its gate's function in agreement, whatever glitches happened below |
| DirectWires.NotifyEffect | core/facet.c:240-286 | after the loop over the drivens every notified gate shows its function of the current inputs |
| DirectWires.ExecuteEffect | arithmetic/lxc_bool_gates.c:219-248 | notifying an enabled gate brings its output ports into agreement and disturbs no other |
| DirectWires.EmitEffect | core/builtins/functional_wrapper.c:85-105 | driving the outputs in port order keeps the inputs the gate has read |
| DirectWires.DriveSettles | core/facet.c:622-632 | from a settled circuit, a drive of a source returns with every ready gate showing its function of the current inputs, the source holding the value and the other sources unchanged |
| DirectWires.DriveAllSettles | core/facet.c:622-632 | the same after any sequence of drives of sources from empty wires, with repeats |
| DirectWires.SameValue | core/facet.c:200-287 | a settled circuit has one value per wire: it is fixed by the sources |
| DirectWires.OrderIrrelevant | core/facet.c:240-286 | the final values depend neither on the order and number of drives nor on the order of the drivens |
| ReferenceCounts.ImportedBalanced | core/utils/lxc_utils.c:11-31 | an import keeps every count equal to the number of slots and outside references that hold the value |
| ReferenceCounts.ImportedValues | core/utils/lxc_utils.c:11-31 | an import changes the value of its own slot only |
| ReferenceCounts.ReferencedBalanced | core/facet.c:713-716 | taking a reference keeps the books balanced |
| ReferenceCounts.DroppedBalanced | core/facet.c:719-758 | giving one back keeps them balanced, and frees the value exactly when nothing is left that holds it |
| ReferenceCounts.InMemoryIffHeld | core/facet.c:724-758 | a value is in memory exactly as long as a slot or an outside reference holds it |
| ReferenceCounts.Memory.Create | core/builtins/builtin.c:11-20 | a new value has a fresh identity and one reference, which its creator owns |
| ReferenceCounts.Memory.Reference | core/facet.c:713-716 | adds one to a counted value, nothing to a constant |
| ReferenceCounts.Memory.Unreference | core/facet.c:719-758 | takes one away and frees the value at zero |
| ReferenceCounts.Memory.Import | core/utils/lxc_utils.c:11-31 | the slot holds the new value; every value with an outside reference stays as it is |
| DirectBoard.Board.Drive | core/facet.c:200-287 | for gates that execute at once: given a value that is in memory, computes `DirectWires.Drive` in place, leaves all outside references as they were, no pointer to freed memory, and every wire alone whose drivers are disabled or silent |
| DirectBoard.Board.NotifyAll | core/facet.c:235-286 | every gate is notified while the wire's slot still holds the value it is handed |
| DirectBoard.Board.Gather | core/builtins/functional_wrapper.c:22-53 | all or nothing: pointers to the values of the wired inputs, in port order, exactly when the gate is ready |
| DirectBoard.Board.Make | core/builtins/functional_wrapper.c:68-83 | the gate's function; what it creates is owned by the gate |
| DirectBoard.Board.Execute | core/builtins/functional_wrapper.c:4-106 | computes `DirectWires.Execute` in place, with the guard on what each output wire takes, and gives back every reference it took |
| DirectBoard.Board.Spread | core/builtins/functional_wrapper.c:85-105 | drives the ports in order, leaves out values that do not fit their wire, and gives back each created value after its port, though the drives below may fire any number of gates |
| DirectBoard.Board.DrivePort | core/builtins/functional_wrapper.c:92-98 | a port drives its wire only with a value of the wire's type and subtype, and the gate still reads the same inputs and owns the same values afterwards |
| DirectBoard.Board.DriveNew | experiment/usecases/computerphile_sort.c:645-658 | create, drive, unreference: the circuit settles and the creator holds nothing |
| ReferenceCounts.Memory.Clear | core/utils/lxc_utils.c:11-31 | an emptied slot gives its reference back; every value with an outside reference stays as it is |
| DirectBoard.Board.ClearAll | core/facet.c:1601-1624 | when all wires are destroyed exactly the values others hold are in memory |
| QueuedBooks.InvSafe | core/lxc_execution.c:79-85 | whatever the next step reads, hands to a gate, references or gives back is in memory: queued and posted values when their task runs, handed values during the loop over the drivens, created values until they are given back |
| QueuedBooks.ProceedSafeIff | core/facet.c:200-287 | whatever the circuit: the next step of the innermost call touches only values in memory if and only if what it hands on without a reference of its own, if anything, is held by a slot, a task, another call or a client |
| QueuedSafety.SafeExactly | core/lxc_execution.c:68-116 | for every circuit, with feedback or not, and every run that touched no freed memory so far: the counts are right, what clients and workers may do next is safe, and the next step of the innermost call is safe exactly when what it hands on is held |
| QueuedBooks.StepBooks | core/lxc_execution.c:10-106 | every step of clients, calls, loop breaker and workers keeps each count equal to the number of slots, queued tasks, posted tasks, calls in progress and clients that hold the value |
| QueuedCalls.StepKeeps | core/lxc_execution.c:68-116 | every step is safe and keeps the books, the nesting of calls and what keeps their values alive |
| QueuedCalls.AlwaysBalanced | core/lxc_execution.c:68-116 | in every run prefix, of every circuit without feedback and of every circuit whose gates hand on no input value, the counts are right and every possible next step touches only values in memory |
| QueuedCalls.RestBalanced | core/lxc_execution.c:96-106 | with no call in progress the queue is gone and what is in memory is on a wire, in a posted task or held by a client |
| QueuedLaws.StepWrites | core/facet.c:200-287 | a step writes no wire, or the one a client drives, or the one that the innermost gate drives with a value that passes its test |
| QueuedLaws.WritesHappen | core/builtins/functional_wrapper.c:92-98 | and a gate that is about to drive a wire with such a value does so, and the ports of the wire are notified next |
| QueuedLaws.FireHands | core/builtins/functional_wrapper.c:22-83 | a gate with complete inputs is about to drive port 0, with what its function of its inputs hands to each port; any other gate does nothing |
| QueuedLaws.SilentStays | core/lxc_execution.c:32-45 | over every run: a wire whose drivers are all disabled or silent and that no client drives is never written, in whatever way gates are notified |
| QueuedLaws.StepQueues | core/lxc_execution.c:87-116 | a step leaves the loop breaker's queue, appends one task, or takes the first task and begins it |
| QueuedLaws.PortNotified | core/facet.c:240-286 | the loop over the drivens hands the value to the gate of the next port, if that is enabled: it fires, or its task runs at once when no loop breaker is active, is queued last, or is posted last |
| QueuedLaws.Kicked | core/lxc_execution.c:87-116 | so does a client that notifies a gate |
| QueuedLaws.DrivingGoesOn | core/builtins/functional_wrapper.c:85-105 | a gate drives its ports one after the other, each when the call before has returned, passes over those with nothing that fits, and returns |
| QueuedLaws.TaskGoesOn | core/lxc_execution.c:80-104 | a task fires its gate once unless it is disabled, then the next task of the queue begins, or the queue goes |
| QueuedFeedback.HandedOnFreed | experiment/usecases/computerphile_sort.c:310-341 | a run of a sorter box with feedback through the loop breaker whose next step drives a wire with a freed value |
| QueuedEnds.WorkFalls | core/lxc_execution.c:87-106 | on an acyclic circuit every step of calls, loop breaker and workers lowers the work left, which counts the paths below every call in progress, queued and posted task |
| QueuedEnds.RunsEnd | core/lxc_execution.c:87-106 | so no run without clients is longer than the work left at its start: the drain ends |
| QueuedEnds.ComesToRest | core/lxc_execution.c:41-52 | from every reachable state calls and workers come to rest by themselves |
| QueuedSettles.StepSettling | core/facet.c:235-286 | at every step each output port shows its gate's function of the current inputs, or a call, queued or posted task will still bring it there, and gates that are driving still read what their outputs are made of |
| QueuedSettles.RestSettled | core/lxc_execution.c:87-116 | whichever gates are notified at once, queued or posted, and in whatever order workers take tasks: at rest the circuit is settled and every source holds what it was last driven with |
| QueuedSettles.SameAsDepthFirst | core/lxc_execution.c:87-116 | so on a total circuit whose sources were all driven every driven wire holds what depth-first propagation of the same drives leaves on it |
| TokenLaws.DriveSends | experiment/usecases/prell.c:380-402 | beside its own value a drive sends, on any wire, only what enabled gates hand to their port and their test lets pass |
| TokenLaws.SilentStays | core/facet.c:246-260 | nothing is sent on a wire whose drivers are disabled or hand nothing to its port |
| TokenLaws.SentFits | core/builtins/functional_wrapper.c:92-98 | every value sent for port j of a gate under a test p satisfies p(j, value) |
| TokenLaws.RoundSends | arithmetic/lxc_bool_gates.c:219-248 | after a round a gate with a wired input has sent v on a wire if and only if it is enabled, all its inputs were driven, its function of them hands v to the port, and the test passes; and at most one value |
| TokenLaws.DrivePorts | experiment/usecases/prell.c:380-402 | in any state: a drive leaves its value at each port of its wire, in place of a token that waited there, unless the port's gate has fired since; ports above keep their tokens unless their gate fires; only enabled gates with the ports they want fire |
| TokenLaws.FullIs | arithmetic/lxc_bool_gates.c:277-343 | a gate can fire exactly when it is enabled, has a wired port, has the ports it wants, and a token at each wired one |
| TokenLaws.DriveUnloads | arithmetic/lxc_bool_gates.c:219-248 | when no gate could fire before a drive, none could after it |
| TokenWires.DriveEffect | experiment/usecases/prell.c:380-402 | driving a wire that was not driven in this round delivers to all its ports; ports that wait for other deliveries keep waiting, gates that fired are undisturbed |
| TokenWires.NotifyEffect | experiment/usecases/prell.c:386-401 | the loop over the ports serves each of them, though gates fire between deliveries |
| TokenWires.ExecuteEffect | arithmetic/lxc_bool_gates.c:277-343 | a full gate fires, absorbs all its tokens and drives its outputs with its function of them; any other gate does nothing |
| TokenWires.EmitEffect | arithmetic/lxc_bool_gates.c:233-246 | each output wire is driven once, with its port of the gate's function of the values it copied |
| TokenWires.RoundQuiet | experiment/usecases/prell.c:380-431 | after any sequence of drives of different sources nothing is under way and every gate that could fire has fired once |
| TokenWires.QuietFires | arithmetic/lxc_bool_gates.c:277-343 | then a gate has fired exactly when it is enabled and all its wired inputs were driven |
| TokenWires.OrderIrrelevant | experiment/usecases/prell.c:380-431 | confluence: the order of drives and of the drivens changes neither what any wire was driven with, nor which gates fired, nor the tokens left |
| TokenWires.FullRound | experiment/usecases/prell.c:446-499 | when all sources are driven once every gate fires exactly once, every driven wire gets exactly one value, the one direct wires settle at, and every port is empty |
| TokenBoard.Board.Drive | experiment/usecases/prell.c:380-402 | given a constant or a value the caller holds, computes `TokenWires.Drive` on the counted tokens of the port slots in place; counts balance, outside references stay, though gates that fire in between absorb the tokens; for gates that copy before they absorb, and, while the values of waiting tokens are lent, for all gates that create nothing |
| TokenBoard.Board.Execute | arithmetic/lxc_bool_gates.c:219-248 | computes `TokenWires.Execute` in place and reads only values in memory |
| TokenBoard.Board.Accept | experiment/usecases/computerphile_sort.c:297-322 | whether the gate absorbs or reads first, it reads the values its tokens had |
| TokenBoard.Look | arithmetic/lxc_bool_gates.c:277-334 | finds the tokens in port order exactly when every wired port holds one |
| TokenRounds.LentRound | experiment/usecases/computerphile_sort.c:268-341 | a whole round, each source driven once with a value whose creator keeps its reference until the end: it computes `TokenWires.Round`, also for gates that absorb before they read and hand values on, and leaves no token and no reference behind |
| TokenBoard.Absorb | arithmetic/lxc_bool_gates.c:335-340 | empties the gate's ports and no other, giving their references back |
| TokenReads.AbsorbedBalanced | core/builtins/functional_wrapper.c:55-60 | absorbing the tokens of a gate one after the other leaves each count equal to the number of remaining holders |
| TokenReads.ReadsLiveIff | core/builtins/functional_wrapper.c:54-79 | in every state: a gate that reads after it absorbed reads only values in memory exactly when each counted token at its ports has a count above the number of its own ports that hold the value |
| TokenReads.FirstTokenFreed | core/builtins/functional_wrapper.c:54-79 | two inputs each driven by create, drive, unreference: when the gate reads, the first token is freed and the second is not |
| TokenWrapper.ReadsLiveIff | core/builtins/functional_wrapper.c:54-79 | in every state in which each wire's tokens point at the value it was driven with and creators hold theirs during their drive: a full gate that absorbs first reads only values in memory if and only if each of its inputs is under way or has a token at another gate |
| TokenWrapper.WrapperBoard.Accept | core/builtins/functional_wrapper.c:54-79 | takes the tokens, then reads: it finds every value in memory exactly when the gate fires safely, and then reads what the tokens held |
| TokenWrapper.WrapperBoard.DriveNew | core/builtins/functional_wrapper.c:85-105 | create, drive, unreference: all reads on the way are of values in memory if and only if every gate that fires does so safely, and then the drive computes `TokenWires.Drive` in place |
| TokenWrapper.WrapperBoard.Round | core/builtins/functional_wrapper.c:4-106 | for every round of sources, each driven once: all reads are of values in memory if and only if the round is safe, and then it computes `TokenWires.Round` and leaves no reference of the drivers |
| TokenSafety.OneWireRound | core/builtins/functional_wrapper.c:22-60 | every round is safe when each gate has all its inputs on one wire |
| TokenSafety.TwoSourcesUnsafe | core/builtins/functional_wrapper.c:54-79 | no round is safe in which a gate fires that reads two sources, the first of which to be driven it alone reads |
| SortNetwork.TriangleNthIs | experiment/usecases/computerphile_sort.c:7-10 | the ordinal is the number of cells in the rows above plus the column |
| SortNetwork.NthInjective | experiment/usecases/computerphile_sort.c:7-10 | different cells of the triangle have different ordinals |
| SortNetwork.ReadsIffReader | experiment/usecases/computerphile_sort.c:510-527 | a box reads a wire at a port exactly when that port is the wire's one reader |
| SortNetwork.DrivesIffDriver | experiment/usecases/computerphile_sort.c:529-546 | a box drives a wire from a port exactly when that port is the wire's one driver |
| SortNetwork.NetworkWellFormed | experiment/usecases/computerphile_sort.c:486-548 | for every n the network is acyclic, both sides of every connection agree and no wire has two drivers |
| SortNetwork.OneDriverOneReader | experiment/usecases/computerphile_sort.c:510-546 | every wire but the inputs has exactly one driver, every wire but the outputs exactly one reader |
| SortNetwork.Size | experiment/usecases/computerphile_sort.c:469-470 | n(n+1)/2 boxes and n(n+1) wires |
| SortNetwork.RowsSort | experiment/usecases/computerphile_sort.c:310-335 | after row i the values going down are the sorted permutation of inputs 0 to i |
| SortNetwork.InsertAt | experiment/usecases/computerphile_sort.c:313-335 | what leaves a row at column j is the smaller of the value above and the largest value met so far |
| SortRun.TwoInputs | experiment/usecases/computerphile_sort.c:310-341 | in a settled circuit a box with two inputs shows the smaller one below and the larger one to the right |
| SortRun.OneInput | experiment/usecases/computerphile_sort.c:329-341 | a box with one input passes it down |
| SortRun.BoxValues | experiment/usecases/computerphile_sort.c:486-548 | on any settled network every box of rows 0 to i shows the values that row by row insertion of inputs 0 to i gives |
| SortRun.OutputsSorted | experiment/usecases/computerphile_sort.c:664-681 | on a settled network with all inputs present the outputs are the sorted permutation of the inputs |
| SortRun.SortsAnyDrives | experiment/usecases/computerphile_sort.c:645-681 | for every n and every sequence of drives, in any order and with repeats, once each input was driven the outputs are the sorted permutation of the values last driven |
| SortBuilder.Builder.GetOrCreateWire | experiment/usecases/computerphile_sort.c:514 | a wire is created when its name is first mentioned |
| SortBuilder.Builder.AddBox | experiment/usecases/computerphile_sort.c:491-546 | one box wired up, left, down and right |
| SortBuilder.CellStep | experiment/usecases/computerphile_sort.c:510-546 | wiring cell (i, j) leads from the network of the cells before it to that of the cells up to it |
| SortBuilder.Builder.Create | experiment/usecases/computerphile_sort.c:473-572 | the two nested loops build exactly the network, for every n |
| SortBuilder.ComputerphileSort | experiment/usecases/computerphile_sort.c:628-706 | build, enable, drive each input with a created value, read the outputs: they are the values in order |
| SortBuilder.DriveInputs | experiment/usecases/computerphile_sort.c:645-658 | the loop over the inputs settles the network on the values and leaves no outside reference behind |
| BoolGates.LogicNand | arithmetic/lxc_bool_gates.c:362-388 | false exactly when all inputs are true; nothing without inputs |
| BoolGates.LogicNor | arithmetic/lxc_bool_gates.c:395-421 | true exactly when no input is true; nothing without inputs |
| BoolGates.LogicOr | arithmetic/lxc_bool_gates.c:459-485 | true exactly when some input is true; nothing without inputs |
| BoolGates.LogicXor | arithmetic/lxc_bool_gates.c:520-547 | true exactly when neighbouring inputs all differ; nothing with fewer than two |
| BoolCircuits.NandShows | arithmetic/lxc_bool_gates.c:362-388 | in a settled circuit a nand gate's wire shows whether some wired input holds false |
| BoolCircuits.NorShows | arithmetic/lxc_bool_gates.c:395-453 | a nor gate's, and that of the gate called "and", whether none holds true |
| BoolCircuits.OrShows | arithmetic/lxc_bool_gates.c:459-485 | an or gate's whether some holds true |
| BoolCircuits.NotShows | arithmetic/lxc_bool_gates.c:491-515 | a not gate's the opposite of its first wired input |
| BoolCircuits.XorShows | arithmetic/lxc_bool_gates.c:519-547 | an xor gate's whether all wired inputs that are neighbours differ |
| BoolCircuits.XorAlone | arithmetic/lxc_bool_gates.c:519-547 | an xor gate with one wired input never drives its wire |
| BoolGates.AndIsConjunctionIff | arithmetic/lxc_bool_gates.c:427-453 | the "and" gate computes the conjunction exactly when its inputs are not all equal |
| Multistage.NetworkWellFormed | experiment/usecases/prell.c:21-69 | the network with its sniffer is acyclic, its connections agree and the input, which the network driver drives from outside, is its only source |
| Multistage.DriveInput | experiment/usecases/prell.c:44-63 | what a drive of the input does to wires and drives, gate by gate, in the order of the wiring |
| Multistage.DirectWaggles | experiment/usecases/prell.c:306-356 | for every sequence of drives the output is true for the first, and for each later one whether the input stayed the same, followed by true |
| Multistage.TokensDoNot | experiment/usecases/prell.c:446-499 | with token wires every drive of every sequence makes the output exactly one true; the last token stays at the sniffer's port, which nothing absorbs, and all other ports are empty |
| LoopBreaker.RunKeeps | core/lxc_execution.c:68-116 | the invariant of stack, queue, started tasks and held references holds in every run prefix, also of circuits that never settle |
| LoopBreaker.InOrderNeverNested | core/lxc_execution.c:87-116 | in every run prefix tasks start in the order of the calls, each at most once, and never one inside another |
| LoopBreaker.OutermostReturnsDone | core/lxc_execution.c:96-106 | whenever the outermost call has returned every task has run, the queue is gone and every reference is given back |
| LoopBreaker.WorkFalls | core/lxc_execution.c:96-101 | every step but a new call brings the outermost call closer to its end |
| ProbeTable.InChain | core/external/github/petewarden/c_hashmap/hashmap.c:301-313 | a key that none of the eight slots of its chain holds is nowhere in the table |
| ProbeTable.FreeMeansAbsent | core/external/github/petewarden/c_hashmap/hashmap.c:206-214 | where a probe meets a free slot first, the key is nowhere in the table |
| ProbeTable.StoreOk | core/external/github/petewarden/c_hashmap/hashmap.c:276-280 | storing where the probe stopped updates the map at that key and keeps every key within its chain with no hole before it |
| HashMap.Map.constructor | core/external/github/petewarden/c_hashmap/hashmap.c:32-47 | the empty map in 256 slots |
| HashMap.Map.Hash | core/external/github/petewarden/c_hashmap/hashmap.c:192-217 | finds the place of the specification, or reports that there is none |
| HashGrowth.PlaceIsFirst | core/external/github/petewarden/c_hashmap/hashmap.c:192-217 | there is none exactly when half the table is counted or the chain is full of other keys; otherwise it is the first slot of the chain that is free or holds the key |
| HashMap.Map.Get | core/external/github/petewarden/c_hashmap/hashmap.c:290-319 | returns the value last put, and Missing exactly for absent keys |
| HashMap.Map.Put | core/external/github/petewarden/c_hashmap/hashmap.c:262-285 | computes `HashGrowth.Put` of the table, in success and in failure; when it succeeds the map is updated at one key, however often the table was doubled and refilled, re-entrantly, on the way; the table stays when the key has a place; when it fails nothing is invented and the next doubling was refused; an entry is lost if and only if a doubling made for the key is granted but its refill runs out of memory |
| HashMap.Map.Rehash | core/external/github/petewarden/c_hashmap/hashmap.c:222-257 | computes `HashGrowth.Doubled`; when it succeeds the map is the same in a table at least twice as large, though its own puts may rehash again; it loses an entry if and only if it fails and its first doubling was granted |
| HashGrowth.PutOk | core/external/github/petewarden/c_hashmap/hashmap.c:222-285 | for every table and code of keys: a put that succeeds updates the map at one key, a put that fails leaves a part of it, in a valid table |
| HashGrowth.PutLosesIff | core/external/github/petewarden/c_hashmap/hashmap.c:262-285 | a put loses an entry if and only if a doubling that it makes for its own key is granted but memory runs out while the entries are put again |
| HashGrowth.OneDoublingLosesIff | core/external/github/petewarden/c_hashmap/hashmap.c:222-285 | when memory suffices for one doubling, a put without a place loses an entry if and only if the entries, put in slot order, do not all fit into the doubled table |
| HashGrowth.Kept | core/external/github/petewarden/c_hashmap/hashmap.c:241-252 | a failed doubling leaves the entries before the first, in slot order, that found no place in the new table, or what the doubling of that table leaves |
| HashGrowth.RefilledIsFilled | core/external/github/petewarden/c_hashmap/hashmap.c:241-252 | where no further doubling is granted the re-entrant refill is putting the entries one after the other while each has a place |
| HashMapLoss.LosesEntries | core/external/github/petewarden/c_hashmap/hashmap.c:222-285 | an input: fifteen puts succeed, the sixteenth fails, and seven of the fifteen keys are no longer in the map |
| HashMap.Map.Length | core/external/github/petewarden/c_hashmap/hashmap.c:394-398 | the stored size is the number of keys plus the overwrites since the last refill |
| HashMap.PutTwice | core/external/github/petewarden/c_hashmap/hashmap.c:262-285 | one key put twice into a new map: the stored size is 2 and one value, the second, is found |
| HashMap.Map.Iterate | core/external/github/petewarden/c_hashmap/hashmap.c:326-347 | calls the function once per key with its value, in the order of the slots, stops at the first status other than 0, reports an empty map as Missing |
| ShiftRegister.StepsSplit | core/external/github/petewarden/c_hashmap/hashmap.c:156-161 | n steps of the register act on the low part of a word and only move the rest |
| ShiftRegister.FeedIsSteps | core/external/github/petewarden/c_hashmap/hashmap.c:156-161 | feeding the bits of a byte one by one is adding the byte and stepping eight times |
| ShiftRegister.TableDriven | core/external/github/petewarden/c_hashmap/hashmap.c:150-163 | for every register that obeys the laws and every table of eight-step words, the loop over bytes is the register fed bit by bit |
| Crc32.TableIs | core/external/github/petewarden/c_hashmap/hashmap.c:93-146 | each of the 256 table words is what eight steps by the reflected polynomial 0xedb88320 make of its byte |
| Crc32.StepSplit | core/external/github/petewarden/c_hashmap/hashmap.c:156-161 | one step by the polynomial is linear in a part without its lowest bit |
| Crc32.Crc32 | core/external/github/petewarden/c_hashmap/hashmap.c:150-163 | for every byte string the checksum is the bit by bit reduction, from 0 and without final complement |
| NullTerminated.Append | core/utils/utils.c:121-170 | the first NULL slot is taken, or the array grows by one |
| NullTerminated.AppendedSlots | core/utils/utils.c:121-170 | for arrays with gaps too: the first NULL slot or a new last one is taken, the slot behind it becomes NULL, all others stay |
| NullTerminated.Pop | core/utils/utils.c:87-114 | the elements behind the index move down by one |
| NullTerminated.AppendedMembers | core/utils/utils.c:121-170 | appending to a gap-free array adds one last member and leaves no gap |
| NullTerminated.DroppedMembers | core/utils/utils.c:87-114 | popping removes that member, keeps the order of the rest and leaves no gap |
| Wiring.WireAgrees | core/facet.c:470-502 | connecting a free port keeps slots and drivens in agreement |
| Wiring.UnwireAgreesIff | core/facet.c:336-361 | unwiring a port keeps them in agreement exactly when, before the call, no other connected port of its gate and index has its record listed before the port's own in the wire's array |
| Wiring.MixedSubtypesDisagree | core/facet.c:432-469 | two ports that differ in subtype only, on one wire: unwiring the second frees the first one's record |
| Wiring.ServedIff | core/facet.c:379-502 | a call succeeds exactly when the port exists, has the wire's type and is free (or, without a wire, is connected); a refused call changes nothing |
| Wiring.RunAgrees | core/facet.c:364-537 | over every sequence of calls with the wires' own subtypes slots and drivens agree, arrays are gap free, and the path for ports that are not connected is never taken |
| Wiring.Switchboard.RemovePort | core/facet.c:336-361 | finds, removes and frees the first record of gate and index |
| Wiring.Switchboard.Wiring | core/facet.c:364-503 | the whole call with its error codes, in the order of its checks |
| WiringLaws.InputAnswers | core/facet.c:379-477 | which of the five refusals, or success, a call on an input gets, from type, index, number of ports and whether the port is connected |
| WiringLaws.OutputAnswers | core/facet.c:379-477 | the same for outputs |
| WiringLaws.InputFrame | core/facet.c:426-537 | a successful call connects the port, its new record last in the wire's array, or disconnects it and takes its record out; every other port keeps slot and record, every other wire its array |
| WiringLaws.OutputFrame | core/facet.c:426-600 | the same for outputs and the wire's drivers |
| WiringLaws.RunConnects | core/facet.c:364-537 | over every sequence of guarded calls: a port is connected to w if and only if the last successful call on it wired it to w |
| WiringOutputs.WireAgrees | core/facet.c:539-553 | connecting an output keeps as many driver records of a gate and index as slots of them hold the wire |
| WiringOutputs.UnwireAgrees | core/facet.c:432-469 | so does disconnecting one, which always finds a record |
| WiringOutputs.RunAgrees | core/facet.c:599-616 | over every sequence of calls, whatever their subtypes, slots and driver records agree in number |
| WiringOutputs.GuardedRunOneRecord | core/facet.c:539-553 | over every sequence of calls with the wires' own subtypes a slot holds a wire exactly when the wire has one driver record of that gate and index, and never two |
| IntrusiveQueue.Queue.Add | core/utils/utils.c:507-547 | appends the element |
| IntrusiveQueue.Queue.PopIntermediate | core/utils/utils.c:580-618 | takes out exactly that element, first, middle or last, and keeps the order of the rest |
| IntrusiveQueue.Queue.PopHead | core/utils/utils.c:565-578 | takes the first element, or none |
| IntrusiveQueue.Queue.PopTail | core/utils/utils.c:549-563 | takes the last element, or none |
| IntrusiveQueue.Queue.Forward | core/utils/utils.c:507-618 | n next pointers from the head lead to element n |
| IntrusiveQueue.Queue.Backward | core/utils/utils.c:507-618 | n prev pointers from the tail lead to element n from the end |
| LibraryTree.AddedWalk | core/accounting.c:249-256 | a new node changes no path that led somewhere, and adds only the path to itself |
| LibraryTree.AddedOnePath | core/accounting.c:249-256 | no node is ever reached by two paths |
| LibraryTree.Library.SearchAhead | core/accounting.c:183-232 | follows the path to its deepest existing node |
| LibraryTree.Library.GetOrCreate | core/accounting.c:239-259 | returns the node the path spells, creates only the missing end, each new node last below its parent, keeps sibling names different and every other path as it was |
| LibraryTree.Twice | core/accounting.c:246-247 | the same path again gives the same node |

## Left out

- TokenBoard.Board.Drive: circuits whose gates copy first, or whose values are lent; `TokenWrapper` has those whose gates absorb first and create. One circuit with gates of several of these kinds is not covered.
- Pool lists as sequences: which free worker is popped and the order of walking a list are left to the action, so the pool's results hold for any order; the linked queue itself is in `IntrusiveQueue`.
- The bound of 150 tries in `rrt_graceful_shutdown`: retries are unbounded; time, sleeping and polling delays are not modelled.
- `wp_destroy`: the pool's memory; `wp_wait_exit` sets the exited status before it starts to wait.
- Gates that are enabled or disabled while a value propagates: `enabled` is fixed.
- The loop breaker used by several threads at once: its queue is a global without a lock.
- Rewiring while a value propagates, and the notifications that wiring sends to enabled gates.
- `hashmap_remove`, the integer mixing after the checksum, and the 32-bit range of `size`.
- 32-bit range of the cell ordinals and of the sorted values: they are unbounded integers.
- Port removal, port lookup by name and by absolute index: they change the ports while connections exist.
- `rrt_init` to `rrt_start` failures other than a refused thread; debug hooks; system events; the property manager.
- The socket and file gates, the Java bindings, the regular expression helper and the tools: input and output.
