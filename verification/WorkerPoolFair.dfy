/** Fair schedules of the worker pool.  A scheduler that gives every thread its turn when it can move again and
    again brings the pool to rest: the try-lock of a shutdown and the polls of wp_wait_exit end. */
module WorkerPoolFair {
  import opened RerunnableThread
  import opened WorkerPool
  import opened WorkerPoolInvariant
  import opened WorkerPoolTheorems
  import opened WorkerPoolRest

  // ----- fairness

  // Whose step it is: a worker's thread, a thread that waits for pool_lock, or the caller that holds it.
  datatype Agent = Own(w: nat) | Entry(tid: ThreadId) | Holder

  function AgentOf(a: Action): Agent {
    match a
    case Begin(tid, _) => Entry(tid)
    case Enter(tid) => Entry(tid)
    case Inside(_, _) => Holder
    case Exec(w) => Own(w)
    case Start(w) => Own(w)
    case Finish(w) => Own(w)
    case TakePool(w) => Own(w)
    case Move(w) => Own(w)
    case DropPool(w) => Own(w)
  }

  ghost predicate StepsAt(run: nat -> State, step: nat -> Action, i: nat) {
    Inv(run(i)) && Enabled(run(i), step(i)) && !step(i).Begin? && run(i + 1) == Step(run(i), step(i))
  }

  // A run without new calls that goes on for ever.
  ghost predicate Endless(run: nat -> State, step: nat -> Action) {
    forall i: nat :: StepsAt(run, step, i)
  }

  ghost predicate CanMove(s: State, g: Agent) {
    exists a :: Enabled(s, a) && !a.Begin? && AgentOf(a) == g
  }

  ghost predicate CanMoveAfter(run: nat -> State, g: Agent, n: nat) {
    exists m: nat :: n <= m && CanMove(run(m), g)
  }

  ghost predicate MovesAfter(step: nat -> Action, g: Agent, n: nat) {
    exists m: nat :: n <= m && AgentOf(step(m)) == g
  }

  // An agent that can move again and again moves again and again.
  ghost predicate FairTo(run: nat -> State, step: nat -> Action, g: Agent) {
    (forall n: nat :: CanMoveAfter(run, g, n)) ==> forall n: nat :: MovesAfter(step, g, n)
  }

  ghost predicate Fair(run: nat -> State, step: nat -> Action) {
    forall g :: FairTo(run, step, g)
  }

  // ----- repeats

  // A turn of a retry loop: a poll of wp_wait_exit that goes on, or a try-lock of a shutdown.
  predicate Repeats(s: State, a: Action)
    requires Enabled(s, a)
  {
    || (a.Enter? && s.waiting[a.tid] == WaitExit(true))
    || (a.Inside? && ((s.hold.call.at.WaitNext? && s.hold.call.todo != {})
                      || s.hold.call.at.WaitLock? || s.hold.call.at.WaitRead? || s.hold.call.at.WaitRetry?))
    || (a.Inside? && (s.hold.call.at.RequestLock?
                      || (s.hold.call.at.RequestTry? && s.workers[s.hold.call.w].thread.condLock != Free)))
  }

  // ----- a measure that repeats leave alone

  predicate Walks(at: At) {
    at.WaitNext? || at.WaitLock? || at.WaitRead? || at.WaitRetry?
  }

  // The calls inside wp_wait_exit, and the waiting calls that do not poll.
  function WaitCalls(waiting: map<ThreadId, Request>): set<ThreadId> {
    set tid | tid in waiting && waiting[tid].WaitExit?
  }

  function FreshCalls(waiting: map<ThreadId, Request>): set<ThreadId> {
    set tid | tid in waiting && waiting[tid] != WaitExit(true)
  }

  function Waits(s: State): nat {
    |WaitCalls(s.waiting)| + if s.hold.ByClient? && InWait(s.hold.call.at) && !s.hold.call.at.WaitReturn? then 1 else 0
  }

  function Fresh(s: State): nat {
    |FreshCalls(s.waiting)|
  }

  // As Left, but the same at both ends of a try-lock and in a walk of wp_wait_exit.
  function Rest(h: Hold): nat {
    if h.ByClient? && Walks(h.call.at) then 0
    else if h.ByClient? && h.call.at.RequestTry? then Left(h) + 1
    else Left(h)
  }

  ghost predicate Lower(s': State, s: State) {
    if Waits(s') != Waits(s) then Waits(s') < Waits(s)
    else if Fresh(s') != Fresh(s) then Fresh(s') < Fresh(s)
    else if Phase(s'.hold) != Phase(s.hold) then Phase(s'.hold) < Phase(s.hold)
    else if Rest(s'.hold) != Rest(s.hold) then Rest(s'.hold) < Rest(s.hold)
    else if Work(s'.workers) != Work(s.workers) then Work(s'.workers) < Work(s.workers)
    else Turn(s'.hold) < Turn(s.hold)
  }

  ghost predicate Level(s': State, s: State) {
    && Waits(s') == Waits(s) && Fresh(s') == Fresh(s) && Phase(s'.hold) == Phase(s.hold) && Rest(s'.hold) == Rest(s.hold)
    && Work(s'.workers) == Work(s.workers) && Turn(s'.hold) == Turn(s.hold)
  }

  // Not inside wp_wait_exit, nor between the two halves of a try-lock.
  predicate Plain(h: Hold) {
    h.ByClient? ==> !InWait(h.call.at) && !h.call.at.RequestTry?
  }

  lemma PlainLowers(s: State, s': State)
    requires s.hold.ByClient? && !InWait(s.hold.call.at) && CallDown(s', s) && Plain(s'.hold)
    ensures Lower(s', s)
  {
  }

  lemma SubmitPlain(s: State, pick: nat, spawn: bool)
    requires s.hold.ByClient? && PhaseOk(s) && Submitting(s.hold.call.at) && CanAdvance(s, s.hold.call, pick)
    ensures Plain(AdvanceSubmit(s, s.hold.tid, s.hold.call, pick, spawn).hold)
  {
    match s.hold.call.at
    case SubmitPick =>
      if s.free != {} {
      } else if spawn {
      }
    case _ =>
  }

  lemma RerunPlain(s: State)
    requires s.hold.ByClient? && PhaseOk(s) && Rerunning(s.hold.call.at)
    ensures Plain(AdvanceRerun(s, s.hold.tid, s.hold.call).hold)
  {
  }

  lemma ShutdownPlain(s: State, pick: nat)
    requires s.hold.ByClient? && PhaseOk(s) && ShuttingAll(s.hold.call.at) && CanAdvance(s, s.hold.call, pick)
    ensures Plain(AdvanceShutdown(s, s.hold.tid, s.hold.call, pick).hold)
  {
  }

  lemma RequestPlain(s: State)
    requires s.hold.ByClient? && PhaseOk(s) && Requesting(s.hold.call.at) && !s.hold.call.at.RequestLock?
    ensures Plain(AdvanceRequest(s, s.hold.tid, s.hold.call).hold)
  {
  }

  lemma WaitLowers(s: State, pick: nat)
    requires s.hold.ByClient? && PhaseOk(s) && CanAdvance(s, s.hold.call, pick)
    requires var c := s.hold.call; c.at.WaitCheck? || c.at.WaitReturn? || (c.at.WaitNext? && c.todo == {})
    ensures Lower(AdvanceWait(s, s.hold.tid, s.hold.call, pick), s)
  {
    match s.hold.call.at
    case WaitCheck =>
    case WaitNext =>
    case WaitReturn =>
  }

  lemma LeavesWaiting(waiting: map<ThreadId, Request>, tid: ThreadId)
    requires tid in waiting && waiting[tid] != WaitExit(true)
    ensures |FreshCalls(waiting - {tid})| == |FreshCalls(waiting)| - 1
    ensures |WaitCalls(waiting - {tid})| == |WaitCalls(waiting)| - if waiting[tid].WaitExit? then 1 else 0
  {
    assert FreshCalls(waiting - {tid}) == FreshCalls(waiting) - {tid};
    assert WaitCalls(waiting - {tid}) == WaitCalls(waiting) - {tid};
    if !waiting[tid].WaitExit? { assert WaitCalls(waiting - {tid}) == WaitCalls(waiting); }
  }

  lemma EnterLowers(s: State, a: Action)
    requires Enabled(s, a) && a.Enter? && s.waiting[a.tid] != WaitExit(true)
    ensures Lower(Step(s, a), s)
  {
    LeavesWaiting(s.waiting, a.tid);
  }

  // Neither a call begins or ends, nor does the one in progress go on.
  ghost predicate SameCalls(s: State, s': State) {
    s'.waiting == s.waiting && (s'.hold == s.hold || (!s'.hold.ByClient? && !s.hold.ByClient?))
  }

  lemma SameCallsLower(s: State, s': State)
    requires SameCalls(s, s') && Below(s', s)
    ensures Lower(s', s)
  {
  }

  // A thread of the pool, or a release callback.
  lemma OwnLowers(s: State, a: Action)
    requires Inv(s) && Enabled(s, a) && (Inner(a) || Release(a))
    ensures Lower(Step(s, a), s)
  {
    assert WorkerOk(s, a.w);
    if a.Exec? {
      ExecGoesDown(s, a);
    } else if Inner(a) {
      TaskGoesDown(s, a);
    } else {
      ReleaseGoesDown(s, a);
    }
    OwnSameCalls(s, a);
    SameCallsLower(s, Step(s, a));
  }

  lemma OwnSameCalls(s: State, a: Action)
    requires Enabled(s, a) && (Inner(a) || Release(a))
    ensures SameCalls(s, Step(s, a))
  {
  }

  lemma InsideLowers(s: State, a: Action)
    requires s.hold.ByClient? && PhaseOk(s) && Enabled(s, a) && a.Inside? && !Repeats(s, a)
    ensures Lower(Step(s, a), s)
  {
    if InWait(s.hold.call.at) {
      WaitLowers(s, a.pick);
    } else {
      if Submitting(s.hold.call.at) {
        SubmitGoesDown(s, a.pick, a.spawn);
        SubmitPlain(s, a.pick, a.spawn);
      } else if Rerunning(s.hold.call.at) {
        RerunGoesDown(s);
        RerunPlain(s);
      } else if ShuttingAll(s.hold.call.at) {
        ShutdownGoesDown(s, a.pick);
        ShutdownPlain(s, a.pick);
      } else {
        RequestGoesDown(s);
        RequestPlain(s);
      }
      PlainLowers(s, Step(s, a));
    }
  }

  lemma StepLowers(s: State, a: Action)
    requires Inv(s) && Enabled(s, a) && !a.Begin? && !Repeats(s, a)
    ensures Lower(Step(s, a), s)
  {
    if a.Enter? {
      EnterLowers(s, a);
    } else if a.Inside? {
      InsideLowers(s, a);
    } else {
      OwnLowers(s, a);
    }
  }

  // ----- what a repeat changes

  // Only pool_lock, the polling calls and the lock fields of a thread.
  ghost predicate SameThreads(s: State, s': State) {
    && |s'.workers| == |s.workers| && s'.status == s.status && s'.free == s.free && s'.busy == s.busy
    && (forall w :: 0 <= w < |s.workers| ==>
          s'.workers[w].thread.pc == s.workers[w].thread.pc && s'.workers[w].thread.status == s.workers[w].thread.status)
    && (forall tid :: tid in s.waiting && s.waiting[tid] != WaitExit(true) <==> tid in s'.waiting && s'.waiting[tid] != WaitExit(true))
  }

  // What a repeat changes of the call in progress leaves the measure as it is.
  lemma LevelFrom(s: State, s': State)
    requires SameThreads(s, s') && Waits(s') == Waits(s) && FreshCalls(s'.waiting) == FreshCalls(s.waiting)
    requires Phase(s'.hold) == Phase(s.hold) && Rest(s'.hold) == Rest(s.hold) && Turn(s'.hold) == Turn(s.hold)
    ensures Level(s', s)
  {
    SameWork(s.workers, s'.workers);
  }

  lemma LookRepeats(s: State, pick: nat)
    requires s.hold.ByClient? && PhaseOk(s) && CanAdvance(s, s.hold.call, pick)
    requires var c := s.hold.call; (c.at.WaitNext? && c.todo != {}) || c.at.WaitLock? || c.at.WaitRead?
    ensures var s' := AdvanceWait(s, s.hold.tid, s.hold.call, pick);
      && s'.waiting == s.waiting && s'.hold.ByClient? && s'.hold.tid == s.hold.tid && Walks(s'.hold.call.at)
      && SameThreads(s, s')
  {
  }

  lemma RetryRepeats(s: State, pick: nat)
    requires s.hold.ByClient? && s.hold.call.at.WaitRetry? && s.hold.tid !in s.waiting && InBounds(s, s.hold.call) && CanAdvance(s, s.hold.call, pick)
    ensures var s' := AdvanceWait(s, s.hold.tid, s.hold.call, pick);
      && s'.hold == Unlocked && s'.workers == s.workers && SameThreads(s, s')
      && WaitCalls(s'.waiting) == WaitCalls(s.waiting) + {s.hold.tid} && FreshCalls(s'.waiting) == FreshCalls(s.waiting)
  {
  }

  lemma WalkRepeats(s: State, pick: nat)
    requires s.hold.ByClient? && PhaseOk(s) && Walks(s.hold.call.at) && CanAdvance(s, s.hold.call, pick) && s.hold.tid !in s.waiting
    requires s.hold.call.at.WaitNext? ==> s.hold.call.todo != {}
    ensures var s' := AdvanceWait(s, s.hold.tid, s.hold.call, pick);
      Level(s', s) && SameThreads(s, s')
  {
    if s.hold.call.at.WaitRetry? {
      RetryRepeats(s, pick);
    } else {
      LookRepeats(s, pick);
    }
    LevelFrom(s, AdvanceWait(s, s.hold.tid, s.hold.call, pick));
  }

  lemma {:induction false} SameWork(a: seq<PoolThread>, b: seq<PoolThread>)
    requires |a| == |b|
    requires forall w :: 0 <= w < |a| ==> b[w].thread.pc == a[w].thread.pc && b[w].thread.status == a[w].thread.status
    ensures Work(a) == Work(b)
    decreases |a|
  {
    if a != [] { SameWork(a[1..], b[1..]); }
  }

  lemma TryThreads(s: State)
    requires s.hold.ByClient? && PhaseOk(s) && (s.hold.call.at.RequestLock? || s.hold.call.at.RequestTry?)
    requires s.hold.call.at.RequestTry? ==> s.workers[s.hold.call.w].thread.condLock != Free
    ensures var s' := AdvanceRequest(s, s.hold.tid, s.hold.call);
      && s'.waiting == s.waiting && SameThreads(s, s')
      && s'.hold == ByClient(s.hold.tid, s.hold.call.(at := if s.hold.call.at.RequestLock? then RequestTry else RequestLock))
  {
  }

  lemma TryRepeats(s: State)
    requires s.hold.ByClient? && PhaseOk(s) && (s.hold.call.at.RequestLock? || s.hold.call.at.RequestTry?)
    requires s.hold.call.at.RequestTry? ==> s.workers[s.hold.call.w].thread.condLock != Free
    ensures var s' := AdvanceRequest(s, s.hold.tid, s.hold.call);
      Level(s', s) && SameThreads(s, s')
  {
    TryThreads(s);
    LevelFrom(s, AdvanceRequest(s, s.hold.tid, s.hold.call));
  }

  lemma EnterRepeats(s: State, a: Action)
    requires PoolOk(s) && Enabled(s, a) && a.Enter? && s.waiting[a.tid] == WaitExit(true)
    ensures Level(Step(s, a), s) && SameThreads(s, Step(s, a))
  {
    var s' := Step(s, a);
    assert FreshCalls(s'.waiting) == FreshCalls(s.waiting);
    assert WaitCalls(s'.waiting) == WaitCalls(s.waiting) - {a.tid};
    assert |WaitCalls(s.waiting) - {a.tid}| == |WaitCalls(s.waiting)| - 1;
  }

  lemma StepRepeats(s: State, a: Action)
    requires Inv(s) && Enabled(s, a) && Repeats(s, a)
    ensures Level(Step(s, a), s) && SameThreads(s, Step(s, a))
  {
    if a.Enter? {
      EnterRepeats(s, a);
    } else if Walks(s.hold.call.at) {
      assert Step(s, a) == AdvanceWait(s, s.hold.tid, s.hold.call, a.pick);
      WalkRepeats(s, a.pick);
    } else {
      assert Step(s, a) == AdvanceRequest(s, s.hold.tid, s.hold.call);
      TryRepeats(s);
    }
  }

  // ----- from some point on there are only repeats

  ghost predicate NotAbove(s': State, s: State) {
    Lower(s', s) || Level(s', s)
  }

  lemma LowerTrans(a: State, b: State, c: State)
    requires NotAbove(b, a) && NotAbove(c, b)
    ensures NotAbove(c, a) && (Lower(c, b) ==> Lower(c, a))
  {
  }

  lemma StepNotAbove(s: State, a: Action)
    requires Inv(s) && Enabled(s, a) && !a.Begin?
    ensures NotAbove(Step(s, a), s)
  {
    if Repeats(s, a) { StepRepeats(s, a); } else { StepLowers(s, a); }
  }

  lemma NextNotAbove(run: nat -> State, step: nat -> Action, n: nat)
    requires Endless(run, step)
    ensures NotAbove(run(n + 1), run(n))
  {
    assert StepsAt(run, step, n);
    StepNotAbove(run(n), step(n));
  }

  lemma {:induction false} NeverRises(run: nat -> State, step: nat -> Action, n: nat, m: nat)
    requires Endless(run, step) && n <= m
    ensures NotAbove(run(m), run(n))
    decreases m
  {
    if n < m {
      NeverRises(run, step, n, m - 1);
      NextNotAbove(run, step, m - 1);
      LowerTrans(run(n), run(m - 1), run(m));
    }
  }

  ghost predicate RepeatsAt(run: nat -> State, step: nat -> Action, i: nat) {
    Enabled(run(i), step(i)) && Repeats(run(i), step(i))
  }

  lemma {:induction false} OnlyRepeats(run: nat -> State, step: nat -> Action, n: nat) returns (last: nat)
    requires Endless(run, step)
    ensures forall m: nat :: last <= m ==> RepeatsAt(run, step, m)
    decreases Waits(run(n)), Fresh(run(n)), Phase(run(n).hold), Rest(run(n).hold), Work(run(n).workers), Turn(run(n).hold)
  {
    if m: nat :| n <= m && !RepeatsAt(run, step, m) {
      assert StepsAt(run, step, m);
      NeverRises(run, step, n, m);
      StepLowers(run(m), step(m));
      LowerTrans(run(n), run(m), run(m + 1));
      last := OnlyRepeats(run, step, m + 1);
    } else {
      last := n;
    }
  }

  // No task of the pool polls for the exit of its own thread.
  ghost predicate NoPolls(s: State) {
    forall w: nat :: !Polls(s, w)
  }

  ghost predicate NeverPolls(run: nat -> State) {
    forall i: nat :: NoPolls(run(i))
  }

  // From n on there are only repeats, and no task of the pool ever polls.
  ghost predicate Stuck(run: nat -> State, step: nat -> Action, n: nat) {
    && Endless(run, step) && NeverPolls(run)
    && forall m: nat :: n <= m ==> RepeatsAt(run, step, m)
  }

  lemma StuckNext(run: nat -> State, step: nat -> Action, n: nat)
    requires Stuck(run, step, n)
    ensures Stuck(run, step, n + 1) && RepeatsAt(run, step, n) && StepsAt(run, step, n)
  {
    assert StepsAt(run, step, n);
  }

  lemma SameNext(run: nat -> State, step: nat -> Action, n: nat)
    requires Stuck(run, step, n)
    ensures SameThreads(run(n), run(n + 1))
  {
    StuckNext(run, step, n);
    StepRepeats(run(n), step(n));
  }

  lemma {:induction false} StuckLater(run: nat -> State, step: nat -> Action, n: nat, m: nat)
    requires Stuck(run, step, n) && n <= m
    ensures Stuck(run, step, m) && SameThreads(run(n), run(m))
    decreases m
  {
    if n < m {
      StuckLater(run, step, n, m - 1);
      SameNext(run, step, m - 1);
      SameTrans(run(n), run(m - 1), run(m));
    }
  }

  lemma SameTrans(a: State, b: State, c: State)
    requires SameThreads(a, b) && SameThreads(b, c)
    ensures SameThreads(a, c)
  {
  }

  // A worker's thread does not move any more.
  lemma NoOwnMove(run: nat -> State, step: nat -> Action, n: nat, w: nat)
    requires Stuck(run, step, n)
    ensures !MovesAfter(step, Own(w), n)
  {
    forall m: nat | n <= m ensures AgentOf(step(m)) != Own(w) {
      assert RepeatsAt(run, step, m);
    }
  }

  // A call that has not polled yet does not enter any more.
  lemma {:induction false} NoEntry(run: nat -> State, step: nat -> Action, n: nat, tid: ThreadId)
    requires Stuck(run, step, n) && tid in run(n).waiting && run(n).waiting[tid] != WaitExit(true)
    ensures !MovesAfter(step, Entry(tid), n)
  {
    forall m: nat | n <= m ensures AgentOf(step(m)) != Entry(tid) {
      StuckLater(run, step, n, m);
      StuckNext(run, step, m);
    }
  }

  // ----- the try-lock

  predicate Trying(s: State) {
    s.hold.ByClient? && (s.hold.call.at.RequestLock? || s.hold.call.at.RequestTry?)
  }

  // Between two tries the executor that holds the condition's mutex can move.
  lemma BetweenTries(s: State, a: Action, s': State, a': Action)
    requires Inv(s) && Enabled(s, a) && Repeats(s, a) && s.hold.ByClient? && s.hold.call.at.RequestLock?
    requires s' == Step(s, a) && Enabled(s', a') && Repeats(s', a')
    ensures CanMove(s, Own(s.hold.call.w))
  {
    var w := s.hold.call.w;
    assert WorkerOk(s, w);
    assert s' == AdvanceRequest(s, s.hold.tid, s.hold.call);
    assert a'.Inside? && s'.workers[w].thread.condLock != Free;
    assert Enabled(s, Exec(w)) && AgentOf(Exec(w)) == Own(w);
  }

  lemma TryingOn(s: State, a: Action)
    requires PhaseOk(s) && Enabled(s, a) && Repeats(s, a) && Trying(s)
    ensures Trying(Step(s, a)) && Step(s, a).hold.call.w == s.hold.call.w
    ensures s.hold.call.at.RequestTry? ==> Step(s, a).hold.call.at.RequestLock?
  {
    TryThreads(s);
  }

  lemma TryingNext(run: nat -> State, step: nat -> Action, n: nat)
    requires Stuck(run, step, n) && Trying(run(n))
    ensures Trying(run(n + 1)) && run(n + 1).hold.call.w == run(n).hold.call.w
  {
    StuckNext(run, step, n);
    TryingOn(run(n), step(n));
  }

  lemma {:induction false} TryingLater(run: nat -> State, step: nat -> Action, n: nat, m: nat)
    requires Stuck(run, step, n) && Trying(run(n)) && n <= m
    ensures Trying(run(m)) && run(m).hold.call.w == run(n).hold.call.w
    decreases m
  {
    if n < m {
      TryingLater(run, step, n, m - 1);
      StuckLater(run, step, n, m - 1);
      TryingNext(run, step, m - 1);
    }
  }

  lemma {:induction false} TryAgain(run: nat -> State, step: nat -> Action, n: nat, m: nat)
    requires Stuck(run, step, n) && Trying(run(n)) && n <= m
    ensures CanMoveAfter(run, Own(run(n).hold.call.w), m)
  {
    TryingLater(run, step, n, m);
    StuckLater(run, step, n, m);
    StuckNext(run, step, m);
    StuckNext(run, step, m + 1);
    if run(m).hold.call.at.RequestLock? {
      BetweenTries(run(m), step(m), run(m + 1), step(m + 1));
    } else {
      TryingOn(run(m), step(m));
      StuckNext(run, step, m + 2);
      BetweenTries(run(m + 1), step(m + 1), run(m + 2), step(m + 2));
      assert m <= m + 1;
    }
  }

  lemma {:induction false} TryingEnds(run: nat -> State, step: nat -> Action, n: nat)
    requires Stuck(run, step, n) && Fair(run, step)
    ensures !Trying(run(n))
  {
    if Trying(run(n)) {
      var w := run(n).hold.call.w;
      forall m: nat ensures CanMoveAfter(run, Own(w), m) {
        TryAgain(run, step, n, if n <= m then m else n);
        if m < n {
          var k: nat :| n <= k && CanMove(run(k), Own(w));
          assert m <= k;
        }
      }
      assert FairTo(run, step, Own(w));
      NoOwnMove(run, step, n, w);
    }
  }

  // ----- the polls

  predicate Polling(s: State) {
    s.hold == Unlocked || (s.hold.ByClient? && Walks(s.hold.call.at))
  }

  lemma PollingOn(s: State, a: Action)
    requires PhaseOk(s) && Enabled(s, a) && Repeats(s, a) && Polling(s)
    ensures Polling(Step(s, a))
    ensures s.hold != Unlocked ==> Step(s, a).hold == Unlocked || Left(Step(s, a).hold) < Left(s.hold)
    ensures s.hold == Unlocked ==> a.Enter? && s.waiting[a.tid] == WaitExit(true)
  {
    if s.hold != Unlocked {
      var c := s.hold.call;
      assert Step(s, a) == AdvanceWait(s, s.hold.tid, c, a.pick);
      if c.at.WaitRead? { assert |c.todo - {c.w}| == |c.todo| - 1; }
    }
  }

  // Each walk gives the lock back.
  lemma {:induction false} UnlockedAgain(run: nat -> State, step: nat -> Action, n: nat) returns (m: nat)
    requires Stuck(run, step, n) && Polling(run(n))
    ensures n <= m && run(m).hold == Unlocked
    decreases Left(run(n).hold)
  {
    if run(n).hold == Unlocked {
      m := n;
    } else {
      StuckNext(run, step, n);
      PollingOn(run(n), step(n));
      if run(n + 1).hold == Unlocked {
        m := n + 1;
      } else {
        m := UnlockedAgain(run, step, n + 1);
      }
    }
  }

  lemma PollingNext(run: nat -> State, step: nat -> Action, n: nat)
    requires Stuck(run, step, n) && Polling(run(n))
    ensures Polling(run(n + 1))
  {
    StuckNext(run, step, n);
    PollingOn(run(n), step(n));
  }

  lemma {:induction false} PollingLater(run: nat -> State, step: nat -> Action, n: nat, m: nat)
    requires Stuck(run, step, n) && Polling(run(n)) && n <= m
    ensures Polling(run(m))
    decreases m
  {
    if n < m {
      PollingLater(run, step, n, m - 1);
      StuckLater(run, step, n, m - 1);
      PollingNext(run, step, m - 1);
    }
  }

  // A later moment at which the lock is free.
  lemma {:induction false} FreeLater(run: nat -> State, step: nat -> Action, n: nat, from: nat) returns (m: nat)
    requires Stuck(run, step, n) && Polling(run(n))
    ensures from <= m && n <= m && run(m).hold == Unlocked && Stuck(run, step, m) && SameThreads(run(n), run(m)) && Inv(run(m))
  {
    var k := if n <= from then from else n;
    StuckLater(run, step, n, k);
    PollingLater(run, step, n, k);
    m := UnlockedAgain(run, step, k);
    StuckLater(run, step, n, m);
    assert StepsAt(run, step, m);
  }

  // Worker w's thread has something to do, and does not wait for the lock.
  predicate HasStep(s: State, w: nat) {
    w < |s.workers| &&
    var pc := s.workers[w].thread.pc;
    pc != Parked && pc != Gone && (pc == Running ==> Worker(w) !in s.waiting)
  }

  lemma HasStepMoves(s: State, w: nat)
    requires Inv(s) && s.hold == Unlocked && HasStep(s, w)
    ensures CanMove(s, Own(w))
  {
    OwnStepEnabled(s, w);
    assert AgentOf(OwnStep(s, w)) == Own(w);
  }

  lemma SameHasStep(s: State, s': State, w: nat)
    requires SameThreads(s, s') && NoPolls(s') && HasStep(s, w)
    ensures HasStep(s', w)
  {
    assert !Polls(s', w);
  }

  lemma {:induction false} NoneHasStep(run: nat -> State, step: nat -> Action, n: nat, w: nat)
    requires Stuck(run, step, n) && Fair(run, step) && Polling(run(n))
    ensures !HasStep(run(n), w)
  {
    if HasStep(run(n), w) {
      forall k: nat ensures CanMoveAfter(run, Own(w), k) {
        var m := FreeLater(run, step, n, k);
        assert NoPolls(run(m));
        SameHasStep(run(n), run(m), w);
        HasStepMoves(run(m), w);
      }
      assert FairTo(run, step, Own(w));
      NoOwnMove(run, step, n, w);
    }
  }

  lemma {:induction false} NoneFresh(run: nat -> State, step: nat -> Action, n: nat, tid: ThreadId)
    requires Stuck(run, step, n) && Fair(run, step) && Polling(run(n))
    ensures tid in run(n).waiting ==> run(n).waiting[tid] == WaitExit(true)
  {
    if tid in run(n).waiting && run(n).waiting[tid] != WaitExit(true) {
      forall k: nat ensures CanMoveAfter(run, Entry(tid), k) {
        var m := FreeLater(run, step, n, k);
        assert Enabled(run(m), Enter(tid)) && AgentOf(Enter(tid)) == Entry(tid);
        assert CanMove(run(m), Entry(tid));
      }
      assert FairTo(run, step, Entry(tid));
      NoEntry(run, step, n, tid);
    }
  }

  // A walk over threads that have exited reaches the status test, so there is none.
  lemma {:induction false} WalkEnds(run: nat -> State, step: nat -> Action, n: nat)
    requires Stuck(run, step, n) && NoRetry(run(n))
    ensures !(run(n).hold.ByClient? && Walks(run(n).hold.call.at))
    decreases Left(run(n).hold)
  {
    if run(n).hold.ByClient? && Walks(run(n).hold.call.at) {
      StuckNext(run, step, n);
      WaitKeepsNoRetry(run(n), step(n).pick);
      LookRepeats(run(n), step(n).pick);
      PollingOn(run(n), step(n));
      WalkEnds(run, step, n + 1);
    }
  }

  lemma PollerOutside(s: State, tid: ThreadId)
    requires NoPolls(s) && tid in s.waiting && s.waiting[tid] == WaitExit(true)
    ensures tid.Client?
  {
    assert tid.Worker? ==> Polls(s, tid.index);
  }

  // When the lock is free, all that is left is a poll, and it will find every thread exited.
  lemma {:induction false} LastPoll(run: nat -> State, step: nat -> Action, m: nat)
    requires Stuck(run, step, m) && Fair(run, step) && run(m).hold == Unlocked
    ensures NoRetry(run(m + 1)) && run(m + 1).hold.ByClient?
  {
    var s := run(m);
    assert NoPolls(s);
    forall tid | tid in s.waiting ensures tid.Client? {
      NoneFresh(run, step, m, tid);
      PollerOutside(s, tid);
    }
    forall w | 0 <= w < |s.workers| ensures s.workers[w].thread.pc == Parked || s.workers[w].thread.pc == Gone {
      NoneHasStep(run, step, m, w);
    }
    StuckNext(run, step, m);
    EnterNext(s, step(m).tid);
  }

  lemma {:induction false} PollingEnds(run: nat -> State, step: nat -> Action, n: nat)
    requires Stuck(run, step, n) && Fair(run, step)
    ensures !Polling(run(n))
  {
    if Polling(run(n)) {
      var m := FreeLater(run, step, n, n);
      StuckNext(run, step, m);
      PollingOn(run(m), step(m));
      LastPoll(run, step, m);
      WalkEnds(run, step, m + 1);
    }
  }

  lemma {:induction false} FairRunsEnd(run: nat -> State, step: nat -> Action)
    requires Fair(run, step) && NeverPolls(run)
    ensures !Endless(run, step)
  {
    if Endless(run, step) {
      var n := OnlyRepeats(run, step, 0);
      assert RepeatsAt(run, step, n);
      TryingEnds(run, step, n);
      PollingEnds(run, step, n);
    }
  }

  ghost predicate RestsAt(run: nat -> State, i: nat) {
    Quiescent(run(i))
  }

  ghost predicate StaysAt(run: nat -> State, i: nat) {
    RestsAt(run, i) && run(i + 1) == run(i)
  }

  // A run that goes on until the pool is at rest, where it stays.
  ghost predicate GoesOn(run: nat -> State, step: nat -> Action) {
    forall i: nat :: StepsAt(run, step, i) || StaysAt(run, i)
  }

  lemma NobodyMoves(s: State, g: Agent)
    requires Quiescent(s)
    ensures !CanMove(s, g)
  {
  }

  lemma NobodySteps(run: nat -> State, step: nat -> Action, n: nat)
    requires RestsAt(run, n)
    ensures !StepsAt(run, step, n)
  {
    NobodyMoves(run(n), AgentOf(step(n)));
  }

  lemma RestStaysNext(run: nat -> State, step: nat -> Action, n: nat)
    requires GoesOn(run, step) && RestsAt(run, n)
    ensures RestsAt(run, n + 1)
  {
    NobodySteps(run, step, n);
    assert StaysAt(run, n);
  }

  // A run at rest stays there, where fairness asks for nothing.
  lemma {:induction false} RestStays(run: nat -> State, step: nat -> Action, n: nat, m: nat)
    requires GoesOn(run, step) && RestsAt(run, n) && n <= m
    ensures RestsAt(run, m)
    decreases m
  {
    if n < m {
      RestStays(run, step, n, m - 1);
      RestStaysNext(run, step, m - 1);
    }
  }

  lemma {:induction false} RestIsFair(run: nat -> State, step: nat -> Action, n: nat)
    requires GoesOn(run, step) && RestsAt(run, n)
    ensures Fair(run, step)
  {
    forall g ensures FairTo(run, step, g) {
      forall m: nat | n <= m ensures !CanMove(run(m), g) {
        RestStays(run, step, n, m);
        NobodyMoves(run(m), g);
      }
      assert !CanMoveAfter(run, g, n);
    }
  }

  lemma PollsNext(run: nat -> State, step: nat -> Action, n: nat, w: nat)
    requires GoesOn(run, step) && Polls(run(n), w)
    ensures Polls(run(n + 1), w)
  {
    if StepsAt(run, step, n) {
      StepKeeps(run(n), step(n));
      PollsOn(run(n), step(n), w);
    } else {
      assert StaysAt(run, n);
    }
  }

  // A task that polls does so for ever.
  lemma {:induction false} PollsLater(run: nat -> State, step: nat -> Action, n: nat, m: nat, w: nat)
    requires GoesOn(run, step) && Polls(run(n), w) && n <= m
    ensures Polls(run(m), w)
    decreases m
  {
    if n < m {
      PollsLater(run, step, n, m - 1, w);
      PollsNext(run, step, m - 1, w);
    }
  }

  lemma {:induction false} RestNeverPolls(run: nat -> State, step: nat -> Action, n: nat)
    requires GoesOn(run, step) && RestsAt(run, n)
    ensures NeverPolls(run)
  {
    forall i: nat ensures NoPolls(run(i)) {
      forall w: nat ensures !Polls(run(i), w) {
        var m := if i <= n then n else i;
        RestStays(run, step, n, m);
        if Polls(run(i), w) { PollsLater(run, step, i, m, w); }
      }
    }
  }

  /** A run without new calls, from any state, comes to rest exactly when it is fair and no task of the pool ever
      polls for the exit of its own thread. */
  lemma {:induction false} RestIffFair(run: nat -> State, step: nat -> Action)
    requires GoesOn(run, step)
    ensures (exists n: nat :: RestsAt(run, n)) <==> Fair(run, step) && NeverPolls(run)
  {
    if n: nat :| RestsAt(run, n) {
      RestIsFair(run, step, n);
      RestNeverPolls(run, step, n);
    } else if Fair(run, step) && NeverPolls(run) {
      forall i: nat ensures StepsAt(run, step, i) { assert !StaysAt(run, i); }
      FairRunsEnd(run, step);
    }
  }

  lemma OutsideNext(run: nat -> State, step: nat -> Action, n: nat)
    requires GoesOn(run, step) && OutsideWaits(run(n))
    ensures OutsideWaits(run(n + 1))
  {
    if StepsAt(run, step, n) { StepOutsideWaits(run(n), step(n)); } else { assert StaysAt(run, n); }
  }

  lemma {:induction false} OutsideLater(run: nat -> State, step: nat -> Action, n: nat)
    requires GoesOn(run, step) && OutsideWaits(run(0))
    ensures OutsideWaits(run(n))
    decreases n
  {
    if n > 0 {
      OutsideLater(run, step, n - 1);
      OutsideNext(run, step, n - 1);
    }
  }

  /** When no task of the pool is inside wp_wait_exit, fairness alone decides: then every wp_wait_exit and every
      shutdown called from outside returns in every fair run. */
  lemma {:induction false} OutsideRestIffFair(run: nat -> State, step: nat -> Action)
    requires GoesOn(run, step) && OutsideWaits(run(0))
    ensures (exists n: nat :: RestsAt(run, n)) <==> Fair(run, step)
  {
    RestIffFair(run, step);
    forall i: nat ensures NoPolls(run(i)) { OutsideLater(run, step, i); }
  }
}
