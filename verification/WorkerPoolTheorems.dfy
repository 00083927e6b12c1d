/** What the worker pool guarantees, in every run. */
module WorkerPoolTheorems {
  import opened RerunnableThread
  import opened WorkerPool
  import opened WorkerPoolInvariant

  // ----- each accepted task runs exactly once

  /** A task whose submit returned 0 never runs twice; until it is called, exactly one worker owns it. */
  lemma {:induction false} AcceptedRunsAtMostOnce(acts: seq<Action>, n: nat)
    requires Legal(acts) && n in After(acts).accepted
    ensures After(acts).finished[n] <= After(acts).started[n] <= 1
    ensures After(acts).started[n] == 0 ==>
              exists w :: 0 <= w < |After(acts).workers| && IsOwner(After(acts), w, n)
  {
    RunKeeps(acts);
    var s := After(acts);
    assert TicketOk(s, n);
    if s.started[n] == 0 {
      forall v | 0 <= v < |s.workers| && Owns(s, v, n) ensures v == s.home[n] { assert JobOk(s, v); }
      assert IsOwner(s, s.home[n], n);
    }
  }

  // w is the only worker that will call task n.
  ghost predicate IsOwner(s: State, w: nat, n: nat)
    requires w < |s.workers|
  {
    Owns(s, w, n) && forall v :: 0 <= v < |s.workers| && Owns(s, v, n) ==> v == w
  }

  predicate Owns(s: State, w: nat, n: nat)
    requires w < |s.workers|
  {
    Pending(s.workers[w].thread) && s.workers[w].task == n
  }

  // Every executor is parked or gone and nobody is inside the pool's interface.
  ghost predicate Quiescent(s: State) {
    && s.hold == Unlocked && s.waiting == map[]
    && forall w :: 0 <= w < |s.workers| ==> s.workers[w].thread.pc == Parked || s.workers[w].thread.pc == Gone
  }

  /** When the pool has come to rest, every task it ever installed has run, once, to its end. */
  lemma {:induction false} AtRestAllDone(acts: seq<Action>, n: nat)
    requires Legal(acts) && Quiescent(After(acts)) && n in After(acts).home
    ensures After(acts).started[n] == After(acts).finished[n] == 1
  {
    RunKeeps(acts);
    var s := After(acts);
    assert TicketOk(s, n) && WorkerOk(s, s.home[n]);
  }

  /** Once wp_wait_exit has returned 0, every thread of the pool has exited and every task whose submit
      returned 0 has finished, those not yet started when the shutdown came included. */
  lemma {:induction false} WaitExitMeansDone(acts: seq<Action>)
    requires Legal(acts) && After(acts).waitOk
    ensures forall w :: 0 <= w < |After(acts).workers| ==>
              After(acts).workers[w].thread.status == Exited && After(acts).workers[w].thread.pc == Gone
    ensures forall n :: n in After(acts).accepted ==> After(acts).started[n] == After(acts).finished[n] == 1
  {
    RunKeeps(acts);
    var s := After(acts);
    forall w | 0 <= w < |s.workers| ensures s.workers[w].thread.status == Exited && s.workers[w].thread.pc == Gone {
      assert WorkerOk(s, w);
    }
    forall n | n in s.accepted ensures s.started[n] == s.finished[n] == 1 {
      assert TicketOk(s, n) && WorkerOk(s, s.home[n]);
    }
  }

  // ----- what never happens

  /** A submit never finds its thread busy, a shutdown never finds one that cannot be asked to exit, and
      an executor calls only what a submit installed: never NULL, never the poison pointer. */
  lemma {:induction false} NoBadCall(acts: seq<Action>, w: nat)
    requires Legal(acts)
    ensures var h := After(acts).hold;
      h.ByClient? ==> !h.call.at.Refused? && !(h.call.at.SubmitReturn? && h.call.code == ResourceBusy)
    ensures w < |After(acts).workers| && After(acts).workers[w].thread.pc.Call? ==>
              After(acts).workers[w].thread.pc.fn == Given
  {
    RunKeeps(acts);
    if w < |After(acts).workers| { assert WorkerOk(After(acts), w); }
  }

  /** While the pool is available and its lock is free, the free list holds exactly the idle threads that have returned
      from the release callback, and the busy list all the others. */
  lemma {:induction false} ListsAgree(acts: seq<Action>, w: nat)
    requires Legal(acts) && w < |After(acts).workers|
    requires After(acts).status == Available && After(acts).hold == Unlocked
    ensures var t := After(acts).workers[w].thread;
      && (w in After(acts).free <==> t.status == Idle && t.pc != Callback)
      && (w in After(acts).busy <==> t.status == Busy || t.pc == Callback)
  {
    RunKeeps(acts);
    assert WorkerOk(After(acts), w);
  }

  /** No lost wake-up: a parked executor has nothing to do, or the caller that changed its status is
      still on its way to the broadcast. */
  lemma {:induction false} NoLostWakeUp(acts: seq<Action>, w: nat)
    requires Legal(acts) && w < |After(acts).workers| && After(acts).workers[w].thread.pc == Parked
    ensures After(acts).workers[w].thread.status == Idle || Notifying(After(acts).hold, w)
  {
    RunKeeps(acts);
    assert WorkerOk(After(acts), w);
  }

  // ----- locks

  datatype LockId = PoolLock | CondLock(w: nat) | RtLock(w: nat)

  function Level(l: LockId): nat {
    match l case PoolLock => 0 case CondLock(_) => 1 case RtLock(_) => 2
  }

  // The thread that runs the step of whoever has the lock.
  predicate Holds(s: State, tid: ThreadId, l: LockId) {
    match l
    case PoolLock =>
      || (s.hold.ByClient? && tid == s.hold.tid)
      || (s.hold.ByWorker? && tid == Worker(s.hold.w))
    case CondLock(w) => w < |s.workers| && HoldsOwn(s, tid, w, s.workers[w].thread.condLock)
    case RtLock(w) => w < |s.workers| && HoldsOwn(s, tid, w, s.workers[w].thread.rtLock)
  }

  predicate HoldsOwn(s: State, tid: ThreadId, w: nat, l: Lock) {
    || (l == ByExecutor && tid == Worker(w))
    || (l == ByCaller && s.hold.ByClient? && tid == s.hold.tid)
  }

  // tid's next step is a blocking acquisition of l.
  predicate Wants(s: State, tid: ThreadId, l: LockId) {
    match l
    case PoolLock =>
      || tid in s.waiting
      || (tid.Worker? && tid.index < |s.workers| && s.workers[tid.index].thread.pc == Callback && !s.hold.ByWorker?)
    case CondLock(w) =>
      || (tid == Worker(w) && w < |s.workers|
          && (s.workers[w].thread.pc == TakeCond || s.workers[w].thread.pc == Wake))
      || (s.hold.ByClient? && tid == s.hold.tid && s.hold.call.w == w
          && (s.hold.call.at.RerunNotify? || s.hold.call.at.RequestNotify?))
    case RtLock(w) =>
      || (tid == Worker(w) && w < |s.workers|
          && (s.workers[w].thread.pc == PeekLock || s.workers[w].thread.pc == FetchLock
              || s.workers[w].thread.pc == DecideLock || s.workers[w].thread.pc == ExitLock))
      || (s.hold.ByClient? && tid == s.hold.tid && s.hold.call.w == w
          && (s.hold.call.at.RerunLock? || s.hold.call.at.RequestLock? || s.hold.call.at.WaitLock?))
  }

  lemma WantsPoolLock(s: State, tid: ThreadId, held: LockId)
    requires Inv(s) && Wants(s, tid, PoolLock)
    ensures !Holds(s, tid, held)
  {
    if tid.Worker? && tid.index < |s.workers| { assert WorkerOk(s, tid.index); }
    if !held.PoolLock? && held.w < |s.workers| { assert WorkerOk(s, held.w); }
  }

  lemma WantsOwnLock(s: State, tid: ThreadId, wanted: LockId, held: LockId)
    requires Inv(s) && !wanted.PoolLock? && Wants(s, tid, wanted) && Level(wanted) <= Level(held)
    ensures !Holds(s, tid, held)
  {
    if tid.Worker? && tid.index < |s.workers| { assert WorkerOk(s, tid.index); }
    if held.w < |s.workers| { assert WorkerOk(s, held.w); }
    if wanted.w < |s.workers| { assert WorkerOk(s, wanted.w); }
  }

  /** Blocking acquisitions follow the order pool_lock, condition mutex, rt_lock. */
  lemma LockOrder(s: State, tid: ThreadId, wanted: LockId, held: LockId)
    requires Inv(s) && Wants(s, tid, wanted) && Holds(s, tid, held)
    ensures Level(held) < Level(wanted)
  {
    if wanted.PoolLock? {
      WantsPoolLock(s, tid, held);
    } else if Level(wanted) <= Level(held) {
      WantsOwnLock(s, tid, wanted, held);
    }
  }

  // Thread i wants locks[i], which the thread after it, cyclically, holds.
  ghost predicate WaitCycle(s: State, tids: seq<ThreadId>, locks: seq<LockId>) {
    && |tids| == |locks| > 0
    && (forall i :: 0 <= i < |tids| ==> Wants(s, tids[i], locks[i]))
    && (forall i :: 0 < i < |tids| ==> Holds(s, tids[i], locks[i - 1]))
    && Holds(s, tids[0], locks[|tids| - 1])
  }

  lemma {:induction false} LevelsRise(s: State, tids: seq<ThreadId>, locks: seq<LockId>, i: nat)
    requires Inv(s) && WaitCycle(s, tids, locks) && i < |tids|
    ensures Level(locks[0]) + i <= Level(locks[i])
  {
    if i > 0 {
      LevelsRise(s, tids, locks, i - 1);
      LockOrder(s, tids[i], locks[i], locks[i - 1]);
    }
  }

  /** So in no run does a cycle of threads wait for one another's locks. */
  lemma {:induction false} NoWaitCycle(acts: seq<Action>, tids: seq<ThreadId>, locks: seq<LockId>)
    requires Legal(acts)
    ensures !WaitCycle(After(acts), tids, locks)
  {
    RunKeeps(acts);
    if WaitCycle(After(acts), tids, locks) {
      LevelsRise(After(acts), tids, locks, |tids| - 1);
      LockOrder(After(acts), tids[0], locks[0], locks[|tids| - 1]);
    }
  }

  // ----- progress

  // The lock, if taken, is held by a thread whose next step cannot block.
  lemma ExecutorMoves(s: State, w: nat)
    requires Inv(s) && w < |s.workers|
    requires s.workers[w].thread.pc != Parked && s.workers[w].thread.pc != Gone
    requires s.workers[w].thread.condLock != ByCaller && s.workers[w].thread.rtLock != ByCaller
    requires s.hold == Unlocked || s.workers[w].thread.pc != Callback
    requires s.workers[w].thread.pc != Running || !InCall(s, Worker(w))
    ensures exists a :: Enabled(s, a) && !a.Begin?
  {
    assert WorkerOk(s, w);
    var t := s.workers[w].thread;
    if ExecutorCanStep(t) {
      assert Enabled(s, Exec(w));
    } else if t.pc.Call? {
      assert Enabled(s, Start(w));
    } else if t.pc == Running {
      assert Enabled(s, Finish(w));
    } else {
      assert Enabled(s, TakePool(w));
    }
  }

  lemma CallerMoves(s: State)
    requires Inv(s) && s.hold.ByClient?
    ensures exists a :: Enabled(s, a) && !a.Begin?
  {
    var c := s.hold.call;
    var pick :| (c.at.SubmitPick? && s.free != {} ==> pick in s.free)
                && ((c.at.ShutdownNext? || c.at.WaitNext?) && c.todo != {} ==> pick in c.todo);
    if CanAdvance(s, c, pick) {
      assert Enabled(s, Action.Inside(pick, true));
    } else {
      assert WorkerOk(s, c.w);
      ExecutorMoves(s, c.w);
    }
  }

  /** Deadlock freedom: in every reachable state that is not at rest, some thread can take a step. */
  lemma {:induction false} NeverStuck(acts: seq<Action>)
    requires Legal(acts)
    ensures Quiescent(After(acts)) || exists a :: Enabled(After(acts), a) && !a.Begin?
  {
    RunKeeps(acts);
    var s := After(acts);
    if s.hold.ByClient? {
      CallerMoves(s);
    } else if s.hold.ByWorker? {
      assert Enabled(s, if s.hold.moved then DropPool(s.hold.w) else Move(s.hold.w));
    } else if s.waiting != map[] {
      var tid :| tid in s.waiting;
      assert Enabled(s, Enter(tid));
    } else if !Quiescent(s) {
      var w :| 0 <= w < |s.workers| && s.workers[w].thread.pc != Parked && s.workers[w].thread.pc != Gone;
      assert WorkerOk(s, w);
      ExecutorMoves(s, w);
    }
  }

  // A step that is neither a new call nor one turn of a retry loop (a failed try-lock in a shutdown, a
  // wp_wait_exit that found a live thread and goes to sleep).
  predicate Progress(s: State, a: Action)
    requires Enabled(s, a)
  {
    && !a.Begin?
    && !(a.Inside? && s.hold.call.at.WaitRetry?)
    && !(a.Inside? && s.hold.call.at.RequestTry? && s.workers[s.hold.call.w].thread.condLock != Free)
  }

  // How far an executor is from parking or exiting.
  function Distance(t: Thread): nat {
    var idle := t.status == Idle;
    match t.pc
    case Callback => if idle then 5 else 20
    case TakeCond => if idle then 4 else 19
    case PeekLock => if idle then 3 else 18
    case Peek => if idle then 2 else 17
    case Sleep => if idle then 1 else 16
    case Parked => if idle then 0 else 15
    case Wake => 14
    case DropCond => 13
    case FetchLock => 12
    case Fetch => 11
    case Call(_) => 10
    case Running => 9
    case Clear => 8
    case DecideLock => 7
    case Decide => 6
    case ExitLock => 2
    case ExitSet => 1
    case Gone => 0
  }

  function Work(ws: seq<PoolThread>): nat {
    if ws == [] then 0 else Distance(ws[0].thread) + Work(ws[1..])
  }

  lemma {:induction false} WorkUpdate(ws: seq<PoolThread>, w: nat, x: PoolThread)
    requires w < |ws|
    ensures Work(ws[w := x]) + Distance(ws[w].thread) == Work(ws) + Distance(x.thread)
  {
    if w > 0 {
      WorkUpdate(ws[1..], w - 1, x);
      assert ws[w := x][1..] == ws[1..][w - 1 := x];
    } else {
      assert ws[w := x][1..] == ws[1..];
    }
  }

  // How far the caller holding pool_lock is from giving it back, once it has read the pool's status.
  function Left(h: Hold): nat {
    if !h.ByClient? then 0
    else
      var n := 9 * |h.call.todo|;
      match h.call.at
      case ShutdownNext | WaitNext => n + 9
      case RequestLock | WaitLock => n + 8
      case RequestTry | WaitRead => n + 7
      case RequestDecide | WaitRetry => n + 6
      case RequestDropCond => n + 5
      case RequestDropLock => n + 4
      case RequestNotify => n + 3
      case RequestBroadcast => n + 2
      case RequestUnlock => n + 1
      case SubmitCheck => 9
      case SubmitPick => 8
      case SubmitQueue => 7
      case RerunLock => 6
      case RerunTest => 5
      case RerunNotify => 4
      case RerunBroadcast => 3
      case RerunUnlock => 2
      case SubmitReturn | ShutdownCheck | Refused | ShutdownReturn | WaitCheck | WaitReturn => 1
  }

  function Phase(h: Hold): nat {
    if h.ByClient? && (h.call.at.ShutdownCheck? || h.call.at.WaitCheck?) then 1 else 0
  }

  function Turn(h: Hold): nat {
    if h.ByWorker? then if h.moved then 0 else 1 else 2
  }

  // Lexicographic order on (calls waiting, Phase, Left, Work, Turn).
  ghost predicate Below(s': State, s: State) {
    if |s'.waiting| != |s.waiting| then |s'.waiting| < |s.waiting|
    else if Phase(s'.hold) != Phase(s.hold) then Phase(s'.hold) < Phase(s.hold)
    else if Left(s'.hold) != Left(s.hold) then Left(s'.hold) < Left(s.hold)
    else if Work(s'.workers) != Work(s.workers) then Work(s'.workers) < Work(s.workers)
    else Turn(s'.hold) < Turn(s.hold)
  }

  ghost predicate CallDown(s': State, s: State) {
    && s'.waiting == s.waiting
    && (Phase(s'.hold) < Phase(s.hold) || (Phase(s'.hold) == Phase(s.hold) && Left(s'.hold) < Left(s.hold)))
  }

  lemma SubmitGoesDown(s: State, pick: nat, spawn: bool)
    requires s.hold.ByClient? && PhaseOk(s) && Submitting(s.hold.call.at) && CanAdvance(s, s.hold.call, pick)
    ensures CallDown(AdvanceSubmit(s, s.hold.tid, s.hold.call, pick, spawn), s)
  {
  }

  lemma RerunGoesDown(s: State)
    requires s.hold.ByClient? && PhaseOk(s) && Rerunning(s.hold.call.at)
    ensures CallDown(AdvanceRerun(s, s.hold.tid, s.hold.call), s)
  {
  }

  lemma ShutdownGoesDown(s: State, pick: nat)
    requires s.hold.ByClient? && PhaseOk(s) && ShuttingAll(s.hold.call.at) && CanAdvance(s, s.hold.call, pick)
    ensures CallDown(AdvanceShutdown(s, s.hold.tid, s.hold.call, pick), s)
  {
  }

  lemma RequestGoesDown(s: State)
    requires s.hold.ByClient? && PhaseOk(s) && Requesting(s.hold.call.at)
    requires s.hold.call.at.RequestTry? ==> s.workers[s.hold.call.w].thread.condLock == Free
    ensures CallDown(AdvanceRequest(s, s.hold.tid, s.hold.call), s)
  {
    var c := s.hold.call;
    if c.w in c.todo { assert |c.todo - {c.w}| == |c.todo| - 1; }
  }

  lemma WaitEdgeGoesDown(s: State, pick: nat)
    requires s.hold.ByClient? && PhaseOk(s) && CanAdvance(s, s.hold.call, pick)
    requires s.hold.call.at.WaitCheck? || s.hold.call.at.WaitReturn?
    ensures CallDown(AdvanceWait(s, s.hold.tid, s.hold.call, pick), s)
  {
  }

  lemma WaitWalkGoesDown(s: State, pick: nat)
    requires s.hold.ByClient? && PhaseOk(s) && CanAdvance(s, s.hold.call, pick)
    requires s.hold.call.at.WaitNext? || s.hold.call.at.WaitLock? || s.hold.call.at.WaitRead?
    ensures CallDown(AdvanceWait(s, s.hold.tid, s.hold.call, pick), s)
  {
    var c := s.hold.call;
    if c.at.WaitRead? { assert |c.todo - {c.w}| == |c.todo| - 1; }
  }

  lemma EnterGoesDown(s: State, a: Action)
    requires Enabled(s, a) && a.Enter?
    ensures Below(Step(s, a), s)
  {
    assert |s.waiting - {a.tid}| == |s.waiting| - 1;
  }

  lemma ExecutorNears(t: Thread)
    requires FieldsMatch(t) && ExecutorCanStep(t)
    ensures Distance(ExecutorStep(t)) < Distance(t)
  {
  }

  lemma ExecGoesDown(s: State, a: Action)
    requires Enabled(s, a) && a.Exec? && WorkerOk(s, a.w)
    ensures Below(Step(s, a), s)
  {
    var x := s.workers[a.w];
    ExecutorNears(x.thread);
    WorkUpdate(s.workers, a.w, x.(thread := ExecutorStep(x.thread)));
  }

  lemma TaskGoesDown(s: State, a: Action)
    requires Enabled(s, a) && (a.Start? || a.Finish?)
    ensures Below(Step(s, a), s)
  {
    WorkUpdate(s.workers, a.w, Step(s, a).workers[a.w]);
  }

  lemma ReleaseGoesDown(s: State, a: Action)
    requires Enabled(s, a) && Release(a) && WorkerOk(s, a.w)
    ensures Below(Step(s, a), s)
  {
    if a.DropPool? { WorkUpdate(s.workers, a.w, Step(s, a).workers[a.w]); }
  }

  /** Every step that is not a new call or a retry brings the pool strictly closer to rest. */
  lemma StepGoesDown(s: State, a: Action)
    requires Inv(s) && Enabled(s, a) && Progress(s, a)
    ensures Below(Step(s, a), s)
  {
    if a.Enter? {
      EnterGoesDown(s, a);
    } else if a.Exec? {
      ExecGoesDown(s, a);
    } else if Inner(a) {
      TaskGoesDown(s, a);
    } else if Release(a) {
      ReleaseGoesDown(s, a);
    } else if Submitting(s.hold.call.at) {
      SubmitGoesDown(s, a.pick, a.spawn);
    } else if Rerunning(s.hold.call.at) {
      RerunGoesDown(s);
    } else if ShuttingAll(s.hold.call.at) {
      ShutdownGoesDown(s, a.pick);
    } else if Requesting(s.hold.call.at) {
      RequestGoesDown(s);
    } else if s.hold.call.at.WaitCheck? || s.hold.call.at.WaitReturn? {
      WaitEdgeGoesDown(s, a.pick);
    } else {
      WaitWalkGoesDown(s, a.pick);
    }
  }

  /** So no run goes on for ever with finitely many calls and retries: with NeverStuck, it ends at rest,
      and by AtRestAllDone every accepted task has then run. */
  lemma {:induction false} NoEndlessRun(run: nat -> State, step: nat -> Action, n: nat)
    requires forall i: nat :: Inv(run(i)) && Enabled(run(i), step(i)) && run(i + 1) == Step(run(i), step(i))
    requires forall i: nat :: n <= i ==> Progress(run(i), step(i))
    ensures false
    decreases |run(n).waiting|, Phase(run(n).hold), Left(run(n).hold), Work(run(n).workers), Turn(run(n).hold)
  {
    StepGoesDown(run(n), step(n));
    NoEndlessRun(run, step, n + 1);
  }
}
