/** One re-runnable thread: an executor that parks, is handed a function, runs it and parks again.
    A `Thread` holds the fields of the thread together with the program counter of its executor.
    Every lock operation and every access to a shared field is one atomic step; the mutexes are
    ideal and the condition variable has no spurious wake-ups. */
module RerunnableThread {
  datatype Status = Idle | Busy | ShutdownRequested | Exited

  // The `run` field: empty, the caller's function, or the shutdown poison pointer.  The `parameter`
  // field is written and cleared together with it and has no other reader, so it is not separate.
  datatype Function = NoFunction | Given | Poison

  // Both locks of a thread are only ever taken by its own executor or by one outside caller.
  datatype Lock = Free | ByExecutor | ByCaller

  datatype Pc =
    | TakeCond             // wait_for_job: about to take the condition's mutex
    | PeekLock | Peek      // atomic_get_state while holding that mutex
    | Sleep                // saw Idle: about to wait, which releases the mutex atomically
    | Parked | Wake        // waiting; signalled and about to retake the mutex
    | DropCond
    | FetchLock | Fetch    // reads `run` under rt_lock
    | Call(fn: Function)   // about to call what was fetched
    | Running
    | Clear
    | DecideLock | Decide
    | Callback             // on_release_callback at rrt_after_become_idle
    | ExitLock | ExitSet | Gone

  datatype Thread = Thread(status: Status, run: Function, rtLock: Lock, condLock: Lock, pc: Pc)

  // rrt_init then rrt_start: Idle is set before the executor can read it.
  const STARTED := Thread(Idle, NoFunction, Free, Free, TakeCond)

  // Steps the executor takes alone; what it calls (the function, the callback) is not among them.
  predicate ExecutorCanStep(t: Thread) {
    match t.pc
    case TakeCond | Wake => t.condLock == Free
    case PeekLock | FetchLock | DecideLock | ExitLock => t.rtLock == Free
    case Peek | Sleep | DropCond | Fetch | Clear | Decide | ExitSet => true
    case Parked | Call(_) | Running | Callback | Gone => false
  }

  function ExecutorStep(t: Thread): Thread
    requires ExecutorCanStep(t)
  {
    match t.pc
    case TakeCond => t.(condLock := ByExecutor, pc := PeekLock)
    case PeekLock => t.(rtLock := ByExecutor, pc := Peek)
    case Peek => t.(rtLock := Free, pc := if t.status == Idle then Sleep else DropCond)
    case Sleep => t.(condLock := Free, pc := Parked)
    case Wake => t.(condLock := ByExecutor, pc := DropCond)
    case DropCond => t.(condLock := Free, pc := FetchLock)
    case FetchLock => t.(rtLock := ByExecutor, pc := Fetch)
    case Fetch =>
      t.(rtLock := Free,
      pc := if t.status == ShutdownRequested && t.run == Poison then ExitLock else Call(t.run))
    case Clear => t.(run := NoFunction, pc := DecideLock)
    case DecideLock => t.(rtLock := ByExecutor, pc := Decide)
    case Decide =>
      if t.status == ShutdownRequested then t.(rtLock := Free, pc := ExitLock)
      else t.(status := Idle, rtLock := Free, pc := Callback)
    case ExitLock => t.(rtLock := ByExecutor, pc := ExitSet)
    case ExitSet => t.(status := Exited, rtLock := Free, pc := Gone)
  }

  // pthread_cond_broadcast: only the executor ever waits on this condition.
  function Signalled(t: Thread): Thread {
    if t.pc == Parked then t.(pc := Wake) else t
  }

  // The part of rrt_try_rerun_if_free done under rt_lock when the thread is idle.
  function Installed(t: Thread): Thread {
    t.(status := Busy, run := Given)
  }

  // The executor is in or before wait_for_job, or about to fetch.
  predicate Waiting(pc: Pc) {
    pc.TakeCond? || pc.PeekLock? || pc.Peek? || pc.Sleep? || pc.Parked? || pc.Wake? || pc.DropCond?
    || pc.FetchLock? || pc.Fetch?
  }

  // Past the status test with a status that was not Idle.
  predicate Committed(pc: Pc) {
    pc.Wake? || pc.DropCond? || pc.FetchLock? || pc.Fetch?
  }

  predicate Working(pc: Pc) {
    pc.Call? || pc.Running? || pc.Clear? || pc.DecideLock? || pc.Decide?
  }

  predicate Leaving(pc: Pc) {
    pc.ExitLock? || pc.ExitSet? || pc.Gone?
  }

  // Each lock is held by the executor exactly at these points.
  predicate LocksMatch(t: Thread) {
    && (t.rtLock == ByExecutor <==> t.pc.Peek? || t.pc.Fetch? || t.pc.Decide? || t.pc.ExitSet?)
    && (t.condLock == ByExecutor <==> t.pc.PeekLock? || t.pc.Peek? || t.pc.Sleep? || t.pc.DropCond?)
  }

  // What status and run can be at each point of the executor.
  predicate FieldsMatch(t: Thread) {
    && (t.status == Exited <==> t.pc == Gone)
    && (Waiting(t.pc) ==>
          && (t.status == Idle ==> t.run == NoFunction)
          && (t.status == Busy ==> t.run == Given)
          && (t.status == ShutdownRequested ==> t.run != NoFunction))
    && (Committed(t.pc) ==> t.status != Idle)
    && (Working(t.pc) ==> t.status == Busy || t.status == ShutdownRequested)
    && (t.pc.Call? ==> t.pc.fn == Given)
    && (t.pc.Call? || t.pc.Running? || t.pc.Clear? ==> t.run == Given)
    && (t.pc.DecideLock? || t.pc.Decide? ==> t.run == NoFunction)
    && (t.pc.Callback? ==>
          || (t.status == Idle && t.run == NoFunction)
          || (t.status == ShutdownRequested && t.run == Poison))
    && (t.pc.ExitLock? || t.pc.ExitSet? ==> t.status == ShutdownRequested)
  }
}
