/** The worker pool: any number of client threads, any number of workers, each a re-runnable thread.
    The state machine interleaves single atomic steps of all of them.  The busy and free lists are
    sets here: which free worker a submit takes and the order in which a list is walked are left to
    the action, so what is proved holds for the source's order (newest free worker, head to tail). */
module WorkerPool {
  import opened RerunnableThread

  datatype PoolStatus = Available | ShuttingDown | PoolExited

  // A task may itself call the pool, so a worker can be a caller too.
  datatype ThreadId = Client(id: nat) | Worker(index: nat)

  datatype Request = Submit | Shutdown | WaitExit(polling: bool)

  datatype Code = Success | UnderShutdown | ResourceBusy | CannotSpawn | IllegalRequest | NotShuttingDown

  // Where the caller holding pool_lock stands.
  datatype At =
    // wp_submit_task and rrt_try_rerun_if_free
    | SubmitCheck | SubmitPick | SubmitQueue | RerunLock | RerunTest | RerunNotify | RerunBroadcast | RerunUnlock
    | SubmitReturn
    // wp_shutdown and rrt_graceful_shutdown; Refused is a failed assertion in shutdown_all
    | ShutdownCheck | ShutdownNext | RequestLock | RequestTry | RequestDecide | RequestDropCond | RequestDropLock
    | RequestNotify | RequestBroadcast | RequestUnlock | Refused | ShutdownReturn
    // wp_wait_exit
    | WaitCheck | WaitNext | WaitLock | WaitRead | WaitRetry | WaitReturn

  // That caller's position and local variables.  A call gets a ticket with the lock; a submit's
  // ticket stands for its function and parameter.  `w` is the thread in hand
  // and `todo` the part of the lists still to be walked, `w` included until it is done.
  datatype Frame = Frame(at: At, ticket: nat, w: nat, todo: set<nat>, notify: bool, code: Code)

  // pool_lock with its holder; `moved` says that on_release has already moved its worker from the
  // busy to the free list.
  datatype Hold = Unlocked | ByClient(tid: ThreadId, call: Frame) | ByWorker(w: nat, moved: bool)

  datatype PoolThread = PoolThread(thread: Thread, task: nat)

  datatype State = State(
    hold: Hold,
    waiting: map<ThreadId, Request>,   // calls that have not taken pool_lock yet
    status: PoolStatus,
    free: set<nat>,
    busy: set<nat>,
    workers: seq<PoolThread>,          // every thread ever created
    // history
    issued: nat,                       // tickets handed out
    home: map<nat, nat>,               // installed tickets and the worker each was given to
    started: multiset<nat>,
    finished: multiset<nat>,
    accepted: set<nat>,                // tickets whose submit returned 0
    waitOk: bool)                      // some wp_wait_exit returned 0

  const INITIAL := State(Unlocked, map[], Available, {}, {}, [], 0, map[], multiset{}, multiset{}, {}, false)

  // ----- steps

  datatype Action =
    | Begin(tid: ThreadId, req: Request)    // a thread enters the pool's interface
    | Enter(tid: ThreadId)                  // it gets pool_lock
    | Inside(pick: nat, spawn: bool)        // the caller holding pool_lock takes its next step
    | Exec(w: nat)                          // an executor step
    | Start(w: nat)                         // worker_pool_exec_function calls the task
    | Finish(w: nat)                        // the task returns
    | TakePool(w: nat) | Move(w: nat) | DropPool(w: nat)   // on_release

  predicate Submitting(at: At) {
    at.SubmitCheck? || at.SubmitPick? || at.SubmitQueue? || at.SubmitReturn?
  }

  predicate Rerunning(at: At) {
    at.RerunLock? || at.RerunTest? || at.RerunNotify? || at.RerunBroadcast? || at.RerunUnlock?
  }

  predicate ShuttingAll(at: At) {
    at.ShutdownCheck? || at.ShutdownNext? || at.ShutdownReturn?
  }

  predicate Requesting(at: At) {
    at.RequestLock? || at.RequestTry? || at.RequestDecide? || at.RequestDropCond? || at.RequestDropLock?
    || at.RequestNotify? || at.RequestBroadcast? || at.RequestUnlock?
  }

  predicate InWait(at: At) {
    at.WaitCheck? || at.WaitNext? || at.WaitLock? || at.WaitRead? || at.WaitRetry? || at.WaitReturn?
  }

  // The call has a thread of the pool in hand.
  predicate HasThread(at: At) {
    at.SubmitQueue? || Rerunning(at) || Requesting(at) || at.Refused? || at.WaitLock? || at.WaitRead?
  }

  predicate InBounds(s: State, c: Frame) {
    HasThread(c.at) ==> c.w < |s.workers|
  }

  // What a caller's step waits for, and which choices it has.
  predicate CanAdvance(s: State, c: Frame, pick: nat)
    requires InBounds(s, c)
  {
    && (c.at.RerunLock? || c.at.RequestLock? || c.at.WaitLock? ==> s.workers[c.w].thread.rtLock == Free)
    && (c.at.RerunNotify? || c.at.RequestNotify? ==> s.workers[c.w].thread.condLock == Free)
    && (c.at.SubmitPick? && s.free != {} ==> pick in s.free)
    && ((c.at.ShutdownNext? || c.at.WaitNext?) && c.todo != {} ==> pick in c.todo)
    && !c.at.Refused?
  }

  function With(s: State, w: nat, t: Thread): State
    requires w < |s.workers|
  {
    s.(workers := s.workers[w := s.workers[w].(thread := t)])
  }

  function Held(s: State, tid: ThreadId, c: Frame): State {
    s.(hold := ByClient(tid, c))
  }

  function AdvanceSubmit(s: State, tid: ThreadId, c: Frame, pick: nat, spawn: bool): State
    requires InBounds(s, c) && CanAdvance(s, c, pick) && Submitting(c.at)
  {
    if c.at.SubmitCheck? then
      Held(s, tid, if s.status == Available then c.(at := SubmitPick)
                   else c.(at := SubmitReturn, code := UnderShutdown))
    else if c.at.SubmitPick? then
      if s.free != {} then Held(s.(free := s.free - {pick}), tid, c.(at := SubmitQueue, w := pick))
      else if spawn then
        Held(s.(workers := s.workers + [PoolThread(STARTED, 0)]), tid, c.(at := SubmitQueue, w := |s.workers|))
      else Held(s, tid, c.(at := SubmitReturn, code := CannotSpawn))
    else if c.at.SubmitQueue? then
      Held(s.(busy := s.busy + {c.w}, workers := s.workers[c.w := s.workers[c.w].(task := c.ticket)]),
           tid, c.(at := RerunLock))
    else s.(hold := Unlocked, accepted := if c.code == Success then s.accepted + {c.ticket} else s.accepted)
  }

  // rrt_try_rerun_if_free: what a step does to the thread in hand, and where it leads.
  function RerunThread(at: At, t: Thread): Thread {
    if at.RerunLock? then t.(rtLock := ByCaller)
    else if at.RerunTest? then (if t.status == Idle then Installed(t) else t).(rtLock := Free)
    else if at.RerunNotify? then t.(condLock := ByCaller)
    else if at.RerunBroadcast? then Signalled(t)
    else t.(condLock := Free)
  }

  function RerunFrame(c: Frame, t: Thread): Frame {
    if c.at.RerunLock? then c.(at := RerunTest)
    else if c.at.RerunTest? then
      if t.status == Idle then c.(at := RerunNotify) else c.(at := SubmitReturn, code := ResourceBusy)
    else if c.at.RerunNotify? then c.(at := RerunBroadcast)
    else if c.at.RerunBroadcast? then c.(at := RerunUnlock)
    else c.(at := SubmitReturn, code := Success)
  }

  function AdvanceRerun(s: State, tid: ThreadId, c: Frame): State
    requires InBounds(s, c) && Rerunning(c.at)
  {
    var t := s.workers[c.w].thread;
    var s' := if c.at.RerunTest? && t.status == Idle then s.(home := s.home[c.ticket := c.w]) else s;
    Held(With(s', c.w, RerunThread(c.at, t)), tid, RerunFrame(c, t))
  }

  // The thread in hand is done: go on with the rest of the lists.
  function Done(c: Frame, next: At): Frame {
    c.(at := next, todo := c.todo - {c.w})
  }

  function AdvanceShutdown(s: State, tid: ThreadId, c: Frame, pick: nat): State
    requires InBounds(s, c) && CanAdvance(s, c, pick) && ShuttingAll(c.at)
  {
    if c.at.ShutdownCheck? then
      if s.status == Available then
        Held(s.(status := ShuttingDown), tid, c.(at := ShutdownNext, todo := s.free + s.busy))
      else Held(s, tid, c.(at := ShutdownReturn, code := IllegalRequest))
    else if c.at.ShutdownNext? then
      Held(s, tid, if c.todo == {} then c.(at := ShutdownReturn, code := Success)
                   else c.(at := RequestLock, w := pick))
    else s.(hold := Unlocked)
  }

  // rrt_graceful_shutdown, in the same way.
  function RequestThread(at: At, t: Thread): Thread {
    if at.RequestLock? then t.(rtLock := ByCaller)
    else if at.RequestTry? then
      if t.condLock == Free then t.(condLock := ByCaller) else t.(rtLock := Free)
    else if at.RequestDecide? then
      if t.status == Idle then t.(status := ShutdownRequested, run := Poison)
      else if t.status == Busy then t.(status := ShutdownRequested)
      else t.(condLock := Free, rtLock := Free)
    else if at.RequestDropLock? then t.(rtLock := Free)
    else if at.RequestNotify? then t.(condLock := ByCaller)
    else if at.RequestBroadcast? then Signalled(t)
    else t.(condLock := Free)
  }

  function RequestFrame(c: Frame, t: Thread): Frame {
    if c.at.RequestLock? then c.(at := RequestTry)
    else if c.at.RequestTry? then c.(at := if t.condLock == Free then RequestDecide else RequestLock)
    else if c.at.RequestDecide? then
      if t.status == Idle then c.(at := RequestDropCond, notify := true)
      else if t.status == Busy then c.(at := RequestDropCond, notify := false)
      else c.(at := Refused)
    else if c.at.RequestDropCond? then c.(at := RequestDropLock)
    else if c.at.RequestDropLock? then if c.notify then c.(at := RequestNotify) else Done(c, ShutdownNext)
    else if c.at.RequestNotify? then c.(at := RequestBroadcast)
    else if c.at.RequestBroadcast? then c.(at := RequestUnlock)
    else Done(c, ShutdownNext)
  }

  function AdvanceRequest(s: State, tid: ThreadId, c: Frame): State
    requires InBounds(s, c) && Requesting(c.at)
  {
    var t := s.workers[c.w].thread;
    Held(With(s, c.w, RequestThread(c.at, t)), tid, RequestFrame(c, t))
  }

  function AdvanceWait(s: State, tid: ThreadId, c: Frame, pick: nat): State
    requires InBounds(s, c) && CanAdvance(s, c, pick) && InWait(c.at)
  {
    if c.at.WaitCheck? then
      if s.status == ShuttingDown then
        Held(s.(status := PoolExited), tid, c.(at := WaitNext, todo := s.busy + s.free))
      else Held(s, tid, c.(at := WaitReturn, code := NotShuttingDown))
    else if c.at.WaitNext? then
      Held(s, tid, if c.todo == {} then c.(at := WaitReturn, code := Success) else c.(at := WaitLock, w := pick))
    else if c.at.WaitLock? then
      Held(With(s, c.w, s.workers[c.w].thread.(rtLock := ByCaller)), tid, c.(at := WaitRead))
    else if c.at.WaitRead? then
      var t := s.workers[c.w].thread;
      Held(With(s, c.w, t.(rtLock := Free)), tid,
           if t.status == Exited then Done(c, WaitNext) else c.(at := WaitRetry))
    else if c.at.WaitRetry? then
      s.(hold := Unlocked, waiting := s.waiting[tid := WaitExit(true)])
    else s.(hold := Unlocked, waitOk := s.waitOk || c.code == Success)
  }

  function Advance(s: State, tid: ThreadId, c: Frame, pick: nat, spawn: bool): State
    requires InBounds(s, c) && CanAdvance(s, c, pick)
  {
    if Submitting(c.at) then AdvanceSubmit(s, tid, c, pick, spawn)
    else if Rerunning(c.at) then AdvanceRerun(s, tid, c)
    else if ShuttingAll(c.at) then AdvanceShutdown(s, tid, c, pick)
    else if Requesting(c.at) then AdvanceRequest(s, tid, c)
    else AdvanceWait(s, tid, c, pick)
  }

  // A call that gets pool_lock; a polling wp_wait_exit looks at the lists again.
  function FirstFrame(s: State, req: Request): Frame {
    var c := Frame(SubmitCheck, s.issued, 0, {}, false, Success);
    match req
    case Submit => c
    case Shutdown => c.(at := ShutdownCheck)
    case WaitExit(polling) => if polling then c.(at := WaitNext, todo := s.busy + s.free) else c.(at := WaitCheck)
  }

  predicate InCall(s: State, tid: ThreadId) {
    tid in s.waiting || (s.hold.ByClient? && s.hold.tid == tid)
  }

  predicate Enabled(s: State, a: Action) {
    match a
    case Begin(tid, req) =>
      && !InCall(s, tid)
      && (req.WaitExit? ==> !req.polling)
      && (tid.Worker? ==> tid.index < |s.workers| && s.workers[tid.index].thread.pc == Running)
    case Enter(tid) => s.hold == Unlocked && tid in s.waiting
    case Inside(pick, _) => s.hold.ByClient? && InBounds(s, s.hold.call) && CanAdvance(s, s.hold.call, pick)
    case Exec(w) => w < |s.workers| && ExecutorCanStep(s.workers[w].thread)
    case Start(w) => w < |s.workers| && s.workers[w].thread.pc == Call(Given)
    case Finish(w) => w < |s.workers| && s.workers[w].thread.pc == Running && !InCall(s, Worker(w))
    case TakePool(w) => w < |s.workers| && s.workers[w].thread.pc == Callback && s.hold == Unlocked
    case Move(w) => w < |s.workers| && s.hold == ByWorker(w, false)
    case DropPool(w) => w < |s.workers| && s.hold == ByWorker(w, true)
  }

  function Step(s: State, a: Action): State
    requires Enabled(s, a)
  {
    match a
    case Begin(tid, req) => s.(waiting := s.waiting[tid := req])
    case Enter(tid) =>
      Held(s.(waiting := s.waiting - {tid}, issued := s.issued + 1), tid, FirstFrame(s, s.waiting[tid]))
    case Inside(pick, spawn) => Advance(s, s.hold.tid, s.hold.call, pick, spawn)
    case Exec(w) => With(s, w, ExecutorStep(s.workers[w].thread))
    case Start(w) =>
      With(s, w, s.workers[w].thread.(pc := Running)).(started := s.started + multiset{s.workers[w].task})
    case Finish(w) =>
      With(s, w, s.workers[w].thread.(pc := Clear)).(finished := s.finished + multiset{s.workers[w].task})
    case TakePool(w) => s.(hold := ByWorker(w, false))
    case Move(w) => s.(hold := ByWorker(w, true), busy := s.busy - {w}, free := s.free + {w})
    case DropPool(w) => With(s, w, s.workers[w].thread.(pc := TakeCond)).(hold := Unlocked)
  }

  // A run is a sequence of actions, each enabled when it is taken.
  predicate Legal(acts: seq<Action>)
    decreases |acts|, 0
  {
    acts == [] ||
    (Legal(acts[..|acts| - 1]) && Enabled(After(acts[..|acts| - 1]), acts[|acts| - 1]))
  }

  function After(acts: seq<Action>): State
    requires Legal(acts)
    decreases |acts|, 1
  {
    if acts == [] then INITIAL else Step(After(acts[..|acts| - 1]), acts[|acts| - 1])
  }
}
