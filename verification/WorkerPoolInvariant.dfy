/** What every step of the worker pool keeps. */
module WorkerPoolInvariant {
  import opened RerunnableThread
  import opened WorkerPool

  // ----- what the holder of pool_lock is doing to worker w

  predicate RtByCaller(h: Hold, w: nat) {
    h.ByClient? && h.call.w == w &&
    (h.call.at.RerunTest? || h.call.at.RequestTry? || h.call.at.RequestDecide? || h.call.at.RequestDropCond?
     || h.call.at.RequestDropLock? || h.call.at.WaitRead?)
  }

  predicate CondByCaller(h: Hold, w: nat) {
    h.ByClient? && h.call.w == w &&
    (h.call.at.RerunBroadcast? || h.call.at.RerunUnlock? || h.call.at.RequestDecide? || h.call.at.RequestDropCond?
     || h.call.at.RequestBroadcast? || h.call.at.RequestUnlock?)
  }

  // It has changed w's status and still owes the broadcast.
  predicate Notifying(h: Hold, w: nat) {
    h.ByClient? && h.call.w == w &&
    (h.call.at.RerunNotify? || h.call.at.RerunBroadcast? || h.call.at.RequestNotify? || h.call.at.RequestBroadcast?
     || (h.call.notify && (h.call.at.RequestDropCond? || h.call.at.RequestDropLock?)))
  }

  // w was popped from the free list (or just created) and is on neither list.
  predicate InHand(h: Hold, w: nat) {
    h.ByClient? && h.call.w == w && h.call.at.SubmitQueue?
  }

  // w is on the busy list but its status is still Idle.
  predicate Offered(h: Hold, w: nat) {
    h.ByClient? && h.call.w == w && (h.call.at.RerunLock? || h.call.at.RerunTest?)
  }

  // A running shutdown has not yet requested w's exit.
  predicate ToRequest(h: Hold, w: nat) {
    h.ByClient? && w in h.call.todo &&
    (h.call.at.ShutdownNext? || h.call.at.RequestLock? || h.call.at.RequestTry? || h.call.at.RequestDecide?
     || (Requesting(h.call.at) && h.call.w != w))
  }

  // A running wp_wait_exit has already seen w exited.
  predicate Seen(h: Hold, w: nat) {
    h.ByClient? &&
    (|| ((h.call.at.WaitNext? || h.call.at.WaitLock? || h.call.at.WaitRead?) && w !in h.call.todo)
     || (h.call.at.WaitReturn? && h.call.code == Success))
  }

  // ----- the invariant

  ghost predicate ThreadOk(s: State, w: nat)
    requires w < |s.workers|
  {
    var t := s.workers[w].thread;
    && LocksMatch(t)
    && FieldsMatch(t)
    && (t.rtLock == ByCaller <==> RtByCaller(s.hold, w))
    && (t.condLock == ByCaller <==> CondByCaller(s.hold, w))
    // no lost wake-up, and no stale one
    && (t.pc.Sleep? || t.pc.Parked? ==> t.status == Idle || Notifying(s.hold, w))
    && (Notifying(s.hold, w) && t.status == Idle ==> t.pc == Callback)
  }

  ghost predicate PlaceOk(s: State, w: nat)
    requires w < |s.workers|
  {
    var t := s.workers[w].thread;
    && (w in s.free || w in s.busy || InHand(s.hold, w))
    && !(w in s.free && w in s.busy)
    && (InHand(s.hold, w) ==> w !in s.free && w !in s.busy)
    && (Offered(s.hold, w) ==> w in s.busy)
    && (InHand(s.hold, w) || Offered(s.hold, w) ==> Waiting(t.pc) && t.status == Idle)
    && (w in s.free && !Leaving(t.pc) ==>
          && (Waiting(t.pc) || s.hold == ByWorker(w, true))
          && t.run != Given && t.status != Busy)
    && (w in s.busy && Waiting(t.pc) ==> t.run == Given || Offered(s.hold, w))
    && (Working(t.pc) ==> w in s.busy)
    && (t.pc == Callback ==> w in s.busy || s.hold == ByWorker(w, true))
    && (s.hold == ByWorker(w, false) ==> t.pc == Callback && w in s.busy)
    && (s.hold == ByWorker(w, true) ==> t.pc == Callback && w in s.free)
  }

  ghost predicate StatusOk(s: State, w: nat)
    requires w < |s.workers|
  {
    var status := s.workers[w].thread.status;
    && (if s.status == Available || ToRequest(s.hold, w) then status == Idle || status == Busy
        else status == ShutdownRequested || status == Exited)
    && (Seen(s.hold, w) ==> status == Exited)
    && (s.waitOk ==> status == Exited)
  }

  // A task was installed and has not been called yet.
  predicate Pending(t: Thread) {
    t.run == Given && (Waiting(t.pc) || t.pc.Call?)
  }

  ghost predicate JobOk(s: State, w: nat)
    requires w < |s.workers|
  {
    var x := s.workers[w];
    && (Pending(x.thread) ==>
          x.task in s.home && s.home[x.task] == w && s.started[x.task] == s.finished[x.task] == 0)
    && (x.thread.pc == Running ==>
          x.task in s.home && s.home[x.task] == w && s.started[x.task] == 1 && s.finished[x.task] == 0)
  }

  ghost predicate TicketOk(s: State, n: nat)
    requires n in s.home
  {
    && s.home[n] < |s.workers|
    && s.finished[n] <= s.started[n] <= 1
    && (s.started[n] == 0 ==> s.workers[s.home[n]].task == n && Pending(s.workers[s.home[n]].thread))
    && (s.started[n] == 1 && s.finished[n] == 0 ==>
          s.workers[s.home[n]].task == n && s.workers[s.home[n]].thread.pc == Running)
  }

  // The call in progress and the pool's status agree; no assertion has failed.
  ghost predicate PhaseOk(s: State) {
    s.hold.ByClient? ==>
      var c := s.hold.call;
      && InBounds(s, c)
      && (Requesting(c.at) || c.at.WaitLock? || c.at.WaitRead? ==> c.w in c.todo)
      && !c.at.Refused?
      && (c.at.SubmitPick? || c.at.SubmitQueue? || Rerunning(c.at) ==> s.status == Available)
      && (c.at.ShutdownNext? || Requesting(c.at) ==> s.status == ShuttingDown)
      && (c.at.WaitNext? || c.at.WaitLock? || c.at.WaitRead? || c.at.WaitRetry? ==> s.status == PoolExited)
      && (c.at.WaitReturn? && c.code == Success ==> s.status == PoolExited)
  }

  // A submit's ticket is installed by RerunTest, which never finds its thread busy.
  ghost predicate SubmitOk(s: State) {
    s.hold.ByClient? && (Submitting(s.hold.call.at) || Rerunning(s.hold.call.at)) ==>
      var c := s.hold.call;
      && c.ticket < s.issued
      && (c.at.SubmitCheck? || c.at.SubmitPick? || c.at.SubmitQueue? || c.at.RerunLock? || c.at.RerunTest? ==>
            c.ticket !in s.home && c.ticket !in s.started && c.ticket !in s.finished)
      && (c.at.RerunNotify? || c.at.RerunBroadcast? || c.at.RerunUnlock? ==> c.ticket in s.home)
      && (c.at.SubmitReturn? ==> c.code != ResourceBusy && (c.code == Success ==> c.ticket in s.home))
      && ((c.at.RerunLock? || c.at.RerunTest?) && c.w < |s.workers| ==> s.workers[c.w].task == c.ticket)
  }

  ghost predicate CallOk(s: State) {
    PhaseOk(s) && SubmitOk(s)
  }

  ghost predicate PoolOk(s: State) {
    && (forall w :: w in s.free || w in s.busy ==> w < |s.workers|)
    && (s.hold.ByWorker? ==> s.hold.w < |s.workers|)
    && (s.hold.ByClient? ==>
          && s.hold.tid !in s.waiting
          && (forall w :: w in s.hold.call.todo ==> w < |s.workers|))
    && (forall tid :: tid in s.waiting && s.waiting[tid] == WaitExit(true) ==> s.status == PoolExited)
    && (forall tid: ThreadId :: tid.Worker? && InCall(s, tid) ==>
          tid.index < |s.workers| && s.workers[tid.index].thread.pc == Running)
    && (forall n :: n in s.home ==> n < s.issued)
    && (forall n :: n in s.started || n in s.finished || n in s.accepted ==> n in s.home)
    && (s.waitOk ==> s.status == PoolExited)
  }

  ghost predicate WorkerOk(s: State, w: nat)
    requires w < |s.workers|
  {
    ThreadOk(s, w) && PlaceOk(s, w) && StatusOk(s, w)
  }

  ghost predicate Inv(s: State) {
    && PoolOk(s)
    && CallOk(s)
    && (forall w :: 0 <= w < |s.workers| ==> WorkerOk(s, w) && JobOk(s, w))
    && (forall n :: n in s.home ==> TicketOk(s, n))
  }

  predicate InSubmit(at: At) {
    Submitting(at) || Rerunning(at)
  }

  // ----- one worker across one step

  predicate Inner(a: Action) {
    a.Exec? || a.Start? || a.Finish?
  }

  predicate Release(a: Action) {
    a.TakePool? || a.Move? || a.DropPool?
  }

  // Some thread other than the caller holding pool_lock takes a step.
  ghost predicate Outer(s: State, a: Action, x: nat) {
    && Enabled(s, a) && !a.Inside? && CallOk(s) && x < |s.workers| && WorkerOk(s, x)
    && (Inner(a) || Release(a) ==> WorkerOk(s, a.w))
  }

  // The caller holding pool_lock stands at a point where it can take its next step.
  ghost predicate Inside(s: State, x: nat) {
    && s.hold.ByClient? && CallOk(s)
    && (x < |s.workers| ==> WorkerOk(s, x))
    && (x == |s.workers| ==> x !in s.free && x !in s.busy)
    && (s.waitOk ==> s.status == PoolExited)
  }

  lemma TakingKeeps(s: State, a: Action, x: nat)
    requires Outer(s, a, x) && a.Exec? && Waiting(s.workers[a.w].thread.pc) && !Committed(s.workers[a.w].thread.pc)
    requires x == a.w
    requires s.workers[a.w].thread.pc.TakeCond?
    ensures WorkerOk(Step(s, a), x)
  {
  }

  lemma PeekingKeeps(s: State, a: Action, x: nat)
    requires Outer(s, a, x) && a.Exec? && Waiting(s.workers[a.w].thread.pc) && !Committed(s.workers[a.w].thread.pc)
    requires x == a.w
    requires s.workers[a.w].thread.pc.PeekLock? || s.workers[a.w].thread.pc.Peek?
    ensures WorkerOk(Step(s, a), x)
  {
  }

  lemma SleepingKeeps(s: State, a: Action, x: nat)
    requires Outer(s, a, x) && a.Exec? && Waiting(s.workers[a.w].thread.pc) && !Committed(s.workers[a.w].thread.pc)
    requires x == a.w
    requires !s.workers[a.w].thread.pc.TakeCond? && !(s.workers[a.w].thread.pc.PeekLock? || s.workers[a.w].thread.pc.Peek?)
    ensures WorkerOk(Step(s, a), x)
  {
  }

  lemma WaitingKeeps(s: State, a: Action, x: nat)
    requires Outer(s, a, x) && a.Exec? && Waiting(s.workers[a.w].thread.pc) && !Committed(s.workers[a.w].thread.pc)
    requires x == a.w
    ensures WorkerOk(Step(s, a), x)
  {
    if s.workers[a.w].thread.pc.TakeCond? {
      TakingKeeps(s, a, x);
    } else if s.workers[a.w].thread.pc.PeekLock? || s.workers[a.w].thread.pc.Peek? {
      PeekingKeeps(s, a, x);
    } else {
      SleepingKeeps(s, a, x);
    }
  }

  lemma WakingKeeps(s: State, a: Action, x: nat)
    requires Outer(s, a, x) && a.Exec? && Committed(s.workers[a.w].thread.pc) && x == a.w
    requires s.workers[a.w].thread.pc.Wake? || s.workers[a.w].thread.pc.DropCond?
    ensures WorkerOk(Step(s, a), x)
  {
  }

  lemma FetchingKeeps(s: State, a: Action, x: nat)
    requires Outer(s, a, x) && a.Exec? && Committed(s.workers[a.w].thread.pc) && x == a.w
    requires !(s.workers[a.w].thread.pc.Wake? || s.workers[a.w].thread.pc.DropCond?)
    ensures WorkerOk(Step(s, a), x)
  {
  }

  lemma CommittedKeeps(s: State, a: Action, x: nat)
    requires Outer(s, a, x) && a.Exec? && Committed(s.workers[a.w].thread.pc) && x == a.w
    ensures WorkerOk(Step(s, a), x)
  {
    if s.workers[a.w].thread.pc.Wake? || s.workers[a.w].thread.pc.DropCond? {
      WakingKeeps(s, a, x);
    } else {
      FetchingKeeps(s, a, x);
    }
  }

  lemma ClearingKeeps(s: State, a: Action, x: nat)
    requires Outer(s, a, x) && a.Exec? && Working(s.workers[a.w].thread.pc) && x == a.w
    requires s.workers[a.w].thread.pc.Clear?
    ensures WorkerOk(Step(s, a), x)
  {
  }

  lemma DecidingKeeps(s: State, a: Action, x: nat)
    requires Outer(s, a, x) && a.Exec? && Working(s.workers[a.w].thread.pc) && x == a.w
    requires s.workers[a.w].thread.pc.Decide?
    ensures WorkerOk(Step(s, a), x)
  {
  }

  lemma RestingKeeps(s: State, a: Action, x: nat)
    requires Outer(s, a, x) && a.Exec? && Working(s.workers[a.w].thread.pc) && x == a.w
    requires !s.workers[a.w].thread.pc.Clear? && !s.workers[a.w].thread.pc.Decide?
    ensures WorkerOk(Step(s, a), x)
  {
  }

  lemma WorkingKeeps(s: State, a: Action, x: nat)
    requires Outer(s, a, x) && a.Exec? && Working(s.workers[a.w].thread.pc) && x == a.w
    ensures WorkerOk(Step(s, a), x)
  {
    if s.workers[a.w].thread.pc.Clear? {
      ClearingKeeps(s, a, x);
    } else if s.workers[a.w].thread.pc.Decide? {
      DecidingKeeps(s, a, x);
    } else {
      RestingKeeps(s, a, x);
    }
  }

  lemma LeavingKeeps(s: State, a: Action, x: nat)
    requires Outer(s, a, x) && a.Exec? && !Waiting(s.workers[a.w].thread.pc) && !Working(s.workers[a.w].thread.pc)
    requires x == a.w
    ensures WorkerOk(Step(s, a), x)
  {
  }

  // A worker does not see the steps of another.
  lemma OtherKeeps(s: State, a: Action, x: nat)
    requires Outer(s, a, x) && a.Exec? && x != a.w
    ensures WorkerOk(Step(s, a), x)
  {
    assert Step(s, a).workers[x] == s.workers[x] && Step(s, a).hold == s.hold;
  }

  lemma StartKeeps(s: State, a: Action, x: nat)
    requires Outer(s, a, x) && a.Start?
    ensures WorkerOk(Step(s, a), x)
  {
  }

  lemma FinishKeeps(s: State, a: Action, x: nat)
    requires Outer(s, a, x) && a.Finish?
    ensures WorkerOk(Step(s, a), x)
  {
  }

  lemma ReleaseKeeps(s: State, a: Action, x: nat)
    requires Outer(s, a, x) && Release(a)
    ensures WorkerOk(Step(s, a), x)
  {
  }

  lemma BeginKeeps(s: State, a: Action, x: nat)
    requires Outer(s, a, x) && a.Begin?
    ensures WorkerOk(Step(s, a), x)
  {
  }

  lemma EnterKeeps(s: State, a: Action, x: nat)
    requires Outer(s, a, x) && a.Enter?
    ensures WorkerOk(Step(s, a), x)
  {
  }

  lemma SubmitEdgeKeeps(s: State, pick: nat, spawn: bool, x: nat)
    requires Inside(s, x) && (s.hold.call.at.SubmitCheck? || s.hold.call.at.SubmitReturn?)
    requires CanAdvance(s, s.hold.call, pick)
    requires x < |AdvanceSubmit(s, s.hold.tid, s.hold.call, pick, spawn).workers|
    ensures WorkerOk(AdvanceSubmit(s, s.hold.tid, s.hold.call, pick, spawn), x)
  {
  }

  lemma SubmitSpawnKeeps(s: State, pick: nat, spawn: bool, x: nat)
    requires Inside(s, x) && s.hold.call.at.SubmitPick? && CanAdvance(s, s.hold.call, pick)
    requires x < |AdvanceSubmit(s, s.hold.tid, s.hold.call, pick, spawn).workers|
    requires x == |s.workers|
    ensures WorkerOk(AdvanceSubmit(s, s.hold.tid, s.hold.call, pick, spawn), x)
  {
  }

  lemma SubmitPickKeepsThread(s: State, pick: nat, spawn: bool, x: nat)
    requires Inside(s, x) && s.hold.call.at.SubmitPick? && CanAdvance(s, s.hold.call, pick)
    requires x < |AdvanceSubmit(s, s.hold.tid, s.hold.call, pick, spawn).workers|
    requires x < |s.workers|
    ensures ThreadOk(AdvanceSubmit(s, s.hold.tid, s.hold.call, pick, spawn), x)
  {
  }

  lemma SubmitPickKeepsPlace(s: State, pick: nat, spawn: bool, x: nat)
    requires Inside(s, x) && s.hold.call.at.SubmitPick? && CanAdvance(s, s.hold.call, pick)
    requires x < |AdvanceSubmit(s, s.hold.tid, s.hold.call, pick, spawn).workers|
    requires x < |s.workers|
    ensures PlaceOk(AdvanceSubmit(s, s.hold.tid, s.hold.call, pick, spawn), x)
  {
  }

  lemma SubmitPickKeepsStatus(s: State, pick: nat, spawn: bool, x: nat)
    requires Inside(s, x) && s.hold.call.at.SubmitPick? && CanAdvance(s, s.hold.call, pick)
    requires x < |AdvanceSubmit(s, s.hold.tid, s.hold.call, pick, spawn).workers|
    requires x < |s.workers|
    ensures StatusOk(AdvanceSubmit(s, s.hold.tid, s.hold.call, pick, spawn), x)
  {
  }

  lemma SubmitPickKeeps(s: State, pick: nat, spawn: bool, x: nat)
    requires Inside(s, x) && s.hold.call.at.SubmitPick? && CanAdvance(s, s.hold.call, pick)
    requires x < |AdvanceSubmit(s, s.hold.tid, s.hold.call, pick, spawn).workers|
    requires x < |s.workers|
    ensures WorkerOk(AdvanceSubmit(s, s.hold.tid, s.hold.call, pick, spawn), x)
  {
    SubmitPickKeepsThread(s, pick, spawn, x);
    SubmitPickKeepsPlace(s, pick, spawn, x);
    SubmitPickKeepsStatus(s, pick, spawn, x);
  }

  lemma SubmitQueueKeeps(s: State, pick: nat, spawn: bool, x: nat)
    requires Inside(s, x) && s.hold.call.at.SubmitQueue? && CanAdvance(s, s.hold.call, pick)
    requires x < |AdvanceSubmit(s, s.hold.tid, s.hold.call, pick, spawn).workers|
    ensures WorkerOk(AdvanceSubmit(s, s.hold.tid, s.hold.call, pick, spawn), x)
  {
  }

  lemma RerunLockKeeps(s: State, x: nat)
    requires Inside(s, x) && (s.hold.call.at.RerunLock? || s.hold.call.at.RerunTest?) && x < |s.workers|
    requires CanAdvance(s, s.hold.call, 0)
    requires s.hold.call.at.RerunLock?
    ensures WorkerOk(AdvanceRerun(s, s.hold.tid, s.hold.call), x)
  {
  }

  lemma InstallKeepsThread(s: State, x: nat)
    requires Inside(s, x) && (s.hold.call.at.RerunLock? || s.hold.call.at.RerunTest?) && x < |s.workers|
    requires CanAdvance(s, s.hold.call, 0)
    requires !s.hold.call.at.RerunLock?
    ensures ThreadOk(AdvanceRerun(s, s.hold.tid, s.hold.call), x)
  {
  }

  lemma InstallKeepsPlace(s: State, x: nat)
    requires Inside(s, x) && (s.hold.call.at.RerunLock? || s.hold.call.at.RerunTest?) && x < |s.workers|
    requires CanAdvance(s, s.hold.call, 0)
    requires !s.hold.call.at.RerunLock?
    ensures PlaceOk(AdvanceRerun(s, s.hold.tid, s.hold.call), x)
  {
  }

  lemma InstallKeepsStatus(s: State, x: nat)
    requires Inside(s, x) && (s.hold.call.at.RerunLock? || s.hold.call.at.RerunTest?) && x < |s.workers|
    requires CanAdvance(s, s.hold.call, 0)
    requires !s.hold.call.at.RerunLock?
    ensures StatusOk(AdvanceRerun(s, s.hold.tid, s.hold.call), x)
  {
  }

  lemma InstallKeeps(s: State, x: nat)
    requires Inside(s, x) && (s.hold.call.at.RerunLock? || s.hold.call.at.RerunTest?) && x < |s.workers|
    requires CanAdvance(s, s.hold.call, 0)
    requires !s.hold.call.at.RerunLock?
    ensures WorkerOk(AdvanceRerun(s, s.hold.tid, s.hold.call), x)
  {
    InstallKeepsThread(s, x);
    InstallKeepsPlace(s, x);
    InstallKeepsStatus(s, x);
  }

  lemma RerunTestKeeps(s: State, x: nat)
    requires Inside(s, x) && (s.hold.call.at.RerunLock? || s.hold.call.at.RerunTest?) && x < |s.workers|
    requires CanAdvance(s, s.hold.call, 0)
    ensures WorkerOk(AdvanceRerun(s, s.hold.tid, s.hold.call), x)
  {
    if s.hold.call.at.RerunLock? {
      RerunLockKeeps(s, x);
    } else {
      InstallKeeps(s, x);
    }
  }

  lemma RerunNotifyKeepsThread(s: State, x: nat)
    requires Inside(s, x) && (s.hold.call.at.RerunNotify? || s.hold.call.at.RerunBroadcast? || s.hold.call.at.RerunUnlock?)
    requires x < |s.workers|
    requires CanAdvance(s, s.hold.call, 0)
    ensures ThreadOk(AdvanceRerun(s, s.hold.tid, s.hold.call), x)
  {
  }

  lemma RerunNotifyKeepsPlace(s: State, x: nat)
    requires Inside(s, x) && (s.hold.call.at.RerunNotify? || s.hold.call.at.RerunBroadcast? || s.hold.call.at.RerunUnlock?)
    requires x < |s.workers|
    requires CanAdvance(s, s.hold.call, 0)
    ensures PlaceOk(AdvanceRerun(s, s.hold.tid, s.hold.call), x)
  {
  }

  lemma RerunNotifyKeepsStatus(s: State, x: nat)
    requires Inside(s, x) && (s.hold.call.at.RerunNotify? || s.hold.call.at.RerunBroadcast? || s.hold.call.at.RerunUnlock?)
    requires x < |s.workers|
    requires CanAdvance(s, s.hold.call, 0)
    ensures StatusOk(AdvanceRerun(s, s.hold.tid, s.hold.call), x)
  {
  }

  lemma RerunNotifyKeeps(s: State, x: nat)
    requires Inside(s, x) && (s.hold.call.at.RerunNotify? || s.hold.call.at.RerunBroadcast? || s.hold.call.at.RerunUnlock?)
    requires x < |s.workers|
    requires CanAdvance(s, s.hold.call, 0)
    ensures WorkerOk(AdvanceRerun(s, s.hold.tid, s.hold.call), x)
  {
    RerunNotifyKeepsThread(s, x);
    RerunNotifyKeepsPlace(s, x);
    RerunNotifyKeepsStatus(s, x);
  }

  lemma ShutdownCheckKeepsThread(s: State, pick: nat, x: nat)
    requires Inside(s, x) && (s.hold.call.at.ShutdownCheck? || s.hold.call.at.ShutdownReturn?)
    requires CanAdvance(s, s.hold.call, pick) && x < |s.workers|
    requires s.hold.call.at.ShutdownCheck?
    ensures ThreadOk(AdvanceShutdown(s, s.hold.tid, s.hold.call, pick), x)
  {
  }

  lemma ShutdownCheckKeepsPlace(s: State, pick: nat, x: nat)
    requires Inside(s, x) && (s.hold.call.at.ShutdownCheck? || s.hold.call.at.ShutdownReturn?)
    requires CanAdvance(s, s.hold.call, pick) && x < |s.workers|
    requires s.hold.call.at.ShutdownCheck?
    ensures PlaceOk(AdvanceShutdown(s, s.hold.tid, s.hold.call, pick), x)
  {
  }

  lemma ShutdownCheckKeepsStatus(s: State, pick: nat, x: nat)
    requires Inside(s, x) && (s.hold.call.at.ShutdownCheck? || s.hold.call.at.ShutdownReturn?)
    requires CanAdvance(s, s.hold.call, pick) && x < |s.workers|
    requires s.hold.call.at.ShutdownCheck?
    ensures StatusOk(AdvanceShutdown(s, s.hold.tid, s.hold.call, pick), x)
  {
  }

  lemma ShutdownCheckKeeps(s: State, pick: nat, x: nat)
    requires Inside(s, x) && (s.hold.call.at.ShutdownCheck? || s.hold.call.at.ShutdownReturn?)
    requires CanAdvance(s, s.hold.call, pick) && x < |s.workers|
    requires s.hold.call.at.ShutdownCheck?
    ensures WorkerOk(AdvanceShutdown(s, s.hold.tid, s.hold.call, pick), x)
  {
    ShutdownCheckKeepsThread(s, pick, x);
    ShutdownCheckKeepsPlace(s, pick, x);
    ShutdownCheckKeepsStatus(s, pick, x);
  }

  lemma ShutdownReturnKeeps(s: State, pick: nat, x: nat)
    requires Inside(s, x) && (s.hold.call.at.ShutdownCheck? || s.hold.call.at.ShutdownReturn?)
    requires CanAdvance(s, s.hold.call, pick) && x < |s.workers|
    requires !s.hold.call.at.ShutdownCheck?
    ensures WorkerOk(AdvanceShutdown(s, s.hold.tid, s.hold.call, pick), x)
  {
  }

  lemma ShutdownEdgeKeeps(s: State, pick: nat, x: nat)
    requires Inside(s, x) && (s.hold.call.at.ShutdownCheck? || s.hold.call.at.ShutdownReturn?)
    requires CanAdvance(s, s.hold.call, pick) && x < |s.workers|
    ensures WorkerOk(AdvanceShutdown(s, s.hold.tid, s.hold.call, pick), x)
  {
    if s.hold.call.at.ShutdownCheck? {
      ShutdownCheckKeeps(s, pick, x);
    } else {
      ShutdownReturnKeeps(s, pick, x);
    }
  }

  lemma ShutdownNextKeeps(s: State, pick: nat, x: nat)
    requires Inside(s, x) && s.hold.call.at.ShutdownNext? && CanAdvance(s, s.hold.call, pick) && x < |s.workers|
    ensures WorkerOk(AdvanceShutdown(s, s.hold.tid, s.hold.call, pick), x)
  {
  }

  lemma RequestTryKeepsThread(s: State, x: nat)
    requires Inside(s, x) && (s.hold.call.at.RequestLock? || s.hold.call.at.RequestTry?) && x < |s.workers|
    requires CanAdvance(s, s.hold.call, 0)
    ensures ThreadOk(AdvanceRequest(s, s.hold.tid, s.hold.call), x)
  {
  }

  lemma RequestTryKeepsPlace(s: State, x: nat)
    requires Inside(s, x) && (s.hold.call.at.RequestLock? || s.hold.call.at.RequestTry?) && x < |s.workers|
    requires CanAdvance(s, s.hold.call, 0)
    ensures PlaceOk(AdvanceRequest(s, s.hold.tid, s.hold.call), x)
  {
  }

  lemma RequestTryKeepsStatus(s: State, x: nat)
    requires Inside(s, x) && (s.hold.call.at.RequestLock? || s.hold.call.at.RequestTry?) && x < |s.workers|
    requires CanAdvance(s, s.hold.call, 0)
    ensures StatusOk(AdvanceRequest(s, s.hold.tid, s.hold.call), x)
  {
  }

  lemma RequestTryKeeps(s: State, x: nat)
    requires Inside(s, x) && (s.hold.call.at.RequestLock? || s.hold.call.at.RequestTry?) && x < |s.workers|
    requires CanAdvance(s, s.hold.call, 0)
    ensures WorkerOk(AdvanceRequest(s, s.hold.tid, s.hold.call), x)
  {
    RequestTryKeepsThread(s, x);
    RequestTryKeepsPlace(s, x);
    RequestTryKeepsStatus(s, x);
  }

  lemma RequestDecideKeeps(s: State, x: nat)
    requires Inside(s, x) && s.hold.call.at.RequestDecide? && x < |s.workers|
    requires WorkerOk(s, s.hold.call.w)
    ensures WorkerOk(AdvanceRequest(s, s.hold.tid, s.hold.call), x)
  {
  }

  lemma RequestDropKeepsThread(s: State, x: nat)
    requires Inside(s, x) && (s.hold.call.at.RequestDropCond? || s.hold.call.at.RequestDropLock?) && x < |s.workers|
    ensures ThreadOk(AdvanceRequest(s, s.hold.tid, s.hold.call), x)
  {
  }

  lemma RequestDropKeepsPlace(s: State, x: nat)
    requires Inside(s, x) && (s.hold.call.at.RequestDropCond? || s.hold.call.at.RequestDropLock?) && x < |s.workers|
    ensures PlaceOk(AdvanceRequest(s, s.hold.tid, s.hold.call), x)
  {
  }

  lemma RequestDropKeepsStatus(s: State, x: nat)
    requires Inside(s, x) && (s.hold.call.at.RequestDropCond? || s.hold.call.at.RequestDropLock?) && x < |s.workers|
    ensures StatusOk(AdvanceRequest(s, s.hold.tid, s.hold.call), x)
  {
  }

  lemma RequestDropKeeps(s: State, x: nat)
    requires Inside(s, x) && (s.hold.call.at.RequestDropCond? || s.hold.call.at.RequestDropLock?) && x < |s.workers|
    ensures WorkerOk(AdvanceRequest(s, s.hold.tid, s.hold.call), x)
  {
    RequestDropKeepsThread(s, x);
    RequestDropKeepsPlace(s, x);
    RequestDropKeepsStatus(s, x);
  }

  lemma RequestLockKeeps(s: State, x: nat)
    requires Inside(s, x) && (s.hold.call.at.RequestNotify? || s.hold.call.at.RequestBroadcast? || s.hold.call.at.RequestUnlock?)
    requires x < |s.workers|
    requires CanAdvance(s, s.hold.call, 0)
    requires s.hold.call.at.RequestNotify?
    ensures WorkerOk(AdvanceRequest(s, s.hold.tid, s.hold.call), x)
  {
  }

  lemma RequestBroadcastKeepsThread(s: State, x: nat)
    requires Inside(s, x) && (s.hold.call.at.RequestNotify? || s.hold.call.at.RequestBroadcast? || s.hold.call.at.RequestUnlock?)
    requires x < |s.workers|
    requires CanAdvance(s, s.hold.call, 0)
    requires !s.hold.call.at.RequestNotify?
    ensures ThreadOk(AdvanceRequest(s, s.hold.tid, s.hold.call), x)
  {
  }

  lemma RequestBroadcastKeepsPlace(s: State, x: nat)
    requires Inside(s, x) && (s.hold.call.at.RequestNotify? || s.hold.call.at.RequestBroadcast? || s.hold.call.at.RequestUnlock?)
    requires x < |s.workers|
    requires CanAdvance(s, s.hold.call, 0)
    requires !s.hold.call.at.RequestNotify?
    ensures PlaceOk(AdvanceRequest(s, s.hold.tid, s.hold.call), x)
  {
  }

  lemma RequestBroadcastKeepsStatus(s: State, x: nat)
    requires Inside(s, x) && (s.hold.call.at.RequestNotify? || s.hold.call.at.RequestBroadcast? || s.hold.call.at.RequestUnlock?)
    requires x < |s.workers|
    requires CanAdvance(s, s.hold.call, 0)
    requires !s.hold.call.at.RequestNotify?
    ensures StatusOk(AdvanceRequest(s, s.hold.tid, s.hold.call), x)
  {
  }

  lemma RequestBroadcastKeeps(s: State, x: nat)
    requires Inside(s, x) && (s.hold.call.at.RequestNotify? || s.hold.call.at.RequestBroadcast? || s.hold.call.at.RequestUnlock?)
    requires x < |s.workers|
    requires CanAdvance(s, s.hold.call, 0)
    requires !s.hold.call.at.RequestNotify?
    ensures WorkerOk(AdvanceRequest(s, s.hold.tid, s.hold.call), x)
  {
    RequestBroadcastKeepsThread(s, x);
    RequestBroadcastKeepsPlace(s, x);
    RequestBroadcastKeepsStatus(s, x);
  }

  lemma RequestNotifyKeeps(s: State, x: nat)
    requires Inside(s, x) && (s.hold.call.at.RequestNotify? || s.hold.call.at.RequestBroadcast? || s.hold.call.at.RequestUnlock?)
    requires x < |s.workers|
    requires CanAdvance(s, s.hold.call, 0)
    ensures WorkerOk(AdvanceRequest(s, s.hold.tid, s.hold.call), x)
  {
    if s.hold.call.at.RequestNotify? {
      RequestLockKeeps(s, x);
    } else {
      RequestBroadcastKeeps(s, x);
    }
  }

  lemma WaitCheckKeepsThread(s: State, pick: nat, x: nat)
    requires Inside(s, x) && s.hold.call.at.WaitCheck? && CanAdvance(s, s.hold.call, pick) && x < |s.workers|
    ensures ThreadOk(AdvanceWait(s, s.hold.tid, s.hold.call, pick), x)
  {
  }

  lemma WaitCheckKeepsPlace(s: State, pick: nat, x: nat)
    requires Inside(s, x) && s.hold.call.at.WaitCheck? && CanAdvance(s, s.hold.call, pick) && x < |s.workers|
    ensures PlaceOk(AdvanceWait(s, s.hold.tid, s.hold.call, pick), x)
  {
  }

  lemma WaitCheckKeepsStatus(s: State, pick: nat, x: nat)
    requires Inside(s, x) && s.hold.call.at.WaitCheck? && CanAdvance(s, s.hold.call, pick) && x < |s.workers|
    ensures StatusOk(AdvanceWait(s, s.hold.tid, s.hold.call, pick), x)
  {
  }

  lemma WaitCheckKeeps(s: State, pick: nat, x: nat)
    requires Inside(s, x) && s.hold.call.at.WaitCheck? && CanAdvance(s, s.hold.call, pick) && x < |s.workers|
    ensures WorkerOk(AdvanceWait(s, s.hold.tid, s.hold.call, pick), x)
  {
    WaitCheckKeepsThread(s, pick, x);
    WaitCheckKeepsPlace(s, pick, x);
    WaitCheckKeepsStatus(s, pick, x);
  }

  lemma WaitEndKeeps(s: State, pick: nat, x: nat)
    requires Inside(s, x) && (s.hold.call.at.WaitReturn? || s.hold.call.at.WaitRetry?)
    requires CanAdvance(s, s.hold.call, pick) && x < |s.workers|
    ensures WorkerOk(AdvanceWait(s, s.hold.tid, s.hold.call, pick), x)
  {
  }

  lemma WaitNextKeeps(s: State, pick: nat, x: nat)
    requires Inside(s, x) && (s.hold.call.at.WaitNext? || s.hold.call.at.WaitLock?)
    requires CanAdvance(s, s.hold.call, pick) && x < |s.workers|
    ensures WorkerOk(AdvanceWait(s, s.hold.tid, s.hold.call, pick), x)
  {
  }

  lemma WaitReadKeeps(s: State, pick: nat, x: nat)
    requires Inside(s, x) && s.hold.call.at.WaitRead? && CanAdvance(s, s.hold.call, pick) && x < |s.workers|
    ensures WorkerOk(AdvanceWait(s, s.hold.tid, s.hold.call, pick), x)
  {
  }

  // ----- one task across one step

  lemma ExecKeepsJob(s: State, a: Action, x: nat)
    requires Outer(s, a, x) && Inner(a) && JobOk(s, x) && JobOk(s, a.w)
    requires a.Exec?
    ensures JobOk(Step(s, a), x)
  {
  }

  lemma StartKeepsJob(s: State, a: Action, x: nat)
    requires Outer(s, a, x) && Inner(a) && JobOk(s, x) && JobOk(s, a.w)
    requires !a.Exec?
    requires a.Start?
    ensures JobOk(Step(s, a), x)
  {
  }

  lemma FinishKeepsJob(s: State, a: Action, x: nat)
    requires Outer(s, a, x) && Inner(a) && JobOk(s, x) && JobOk(s, a.w)
    requires !a.Exec?
    requires !a.Start?
    ensures JobOk(Step(s, a), x)
  {
  }

  lemma TaskKeepsJob(s: State, a: Action, x: nat)
    requires Outer(s, a, x) && Inner(a) && JobOk(s, x) && JobOk(s, a.w)
    requires !a.Exec?
    ensures JobOk(Step(s, a), x)
  {
    if a.Start? {
      StartKeepsJob(s, a, x);
    } else {
      FinishKeepsJob(s, a, x);
    }
  }

  lemma InnerKeepsJob(s: State, a: Action, x: nat)
    requires Outer(s, a, x) && Inner(a) && JobOk(s, x) && JobOk(s, a.w)
    ensures JobOk(Step(s, a), x)
  {
    if a.Exec? {
      ExecKeepsJob(s, a, x);
    } else {
      TaskKeepsJob(s, a, x);
    }
  }

  lemma OuterKeepsJob(s: State, a: Action, x: nat)
    requires Outer(s, a, x) && !Inner(a) && JobOk(s, x)
    ensures JobOk(Step(s, a), x)
  {
  }

  lemma SubmitKeepsJob(s: State, pick: nat, spawn: bool, x: nat)
    requires Inside(s, x) && Submitting(s.hold.call.at) && CanAdvance(s, s.hold.call, pick)
    requires x < |s.workers| ==> JobOk(s, x)
    requires x < |AdvanceSubmit(s, s.hold.tid, s.hold.call, pick, spawn).workers|
    ensures JobOk(AdvanceSubmit(s, s.hold.tid, s.hold.call, pick, spawn), x)
  {
  }

  lemma RerunKeepsJob(s: State, x: nat)
    requires Inside(s, x) && Rerunning(s.hold.call.at) && x < |s.workers| && JobOk(s, x)
    ensures JobOk(AdvanceRerun(s, s.hold.tid, s.hold.call), x)
  {
  }

  lemma ShutdownKeepsJob(s: State, pick: nat, x: nat)
    requires Inside(s, x) && ShuttingAll(s.hold.call.at)
    requires CanAdvance(s, s.hold.call, pick) && x < |s.workers| && JobOk(s, x)
    ensures JobOk(AdvanceShutdown(s, s.hold.tid, s.hold.call, pick), x)
  {
  }

  lemma RequestKeepsJob(s: State, x: nat)
    requires Inside(s, x) && Requesting(s.hold.call.at) && x < |s.workers| && JobOk(s, x)
    ensures JobOk(AdvanceRequest(s, s.hold.tid, s.hold.call), x)
  {
  }

  lemma WaitKeepsJob(s: State, pick: nat, x: nat)
    requires Inside(s, x) && InWait(s.hold.call.at) && CanAdvance(s, s.hold.call, pick) && x < |s.workers| && JobOk(s, x)
    ensures JobOk(AdvanceWait(s, s.hold.tid, s.hold.call, pick), x)
  {
  }

  // What a step that installs, calls or ends no task leaves alone.
  ghost predicate SameTasks(s: State, s': State) {
    && s'.home == s.home && s'.started == s.started && s'.finished == s.finished && |s'.workers| == |s.workers|
    && (forall w :: 0 <= w < |s.workers| ==>
          && s'.workers[w].task == s.workers[w].task
          && (Pending(s.workers[w].thread) ==> Pending(s'.workers[w].thread))
          && (s.workers[w].thread.pc == Running ==> s'.workers[w].thread.pc == Running))
  }

  lemma TicketFrame(s: State, s': State, n: nat)
    requires SameTasks(s, s') && n in s.home && TicketOk(s, n)
    ensures TicketOk(s', n)
  {
  }

  lemma ShutdownSameTasks(s: State, pick: nat)
    requires s.hold.ByClient? && PhaseOk(s) && ShuttingAll(s.hold.call.at) && CanAdvance(s, s.hold.call, pick)
    ensures SameTasks(s, AdvanceShutdown(s, s.hold.tid, s.hold.call, pick))
  {
  }

  lemma RequestSameTasks(s: State)
    requires s.hold.ByClient? && PhaseOk(s) && Requesting(s.hold.call.at)
    requires WorkerOk(s, s.hold.call.w)
    ensures SameTasks(s, AdvanceRequest(s, s.hold.tid, s.hold.call))
  {
  }

  lemma WaitSameTasks(s: State, pick: nat)
    requires s.hold.ByClient? && PhaseOk(s) && InWait(s.hold.call.at) && CanAdvance(s, s.hold.call, pick)
    ensures SameTasks(s, AdvanceWait(s, s.hold.tid, s.hold.call, pick))
  {
  }

  lemma InnerKeepsTicket(s: State, a: Action, n: nat)
    requires Enabled(s, a) && Inner(a) && n in s.home && TicketOk(s, n)
    requires WorkerOk(s, a.w) && JobOk(s, a.w)
    ensures n in Step(s, a).home && TicketOk(Step(s, a), n)
  {
  }

  lemma OuterKeepsTicket(s: State, a: Action, n: nat)
    requires Enabled(s, a) && !a.Inside? && !Inner(a) && n in s.home && TicketOk(s, n)
    requires Release(a) ==> WorkerOk(s, a.w) && JobOk(s, a.w)
    ensures n in Step(s, a).home && TicketOk(Step(s, a), n)
  {
  }

  lemma SubmitKeepsTicket(s: State, pick: nat, spawn: bool, n: nat)
    requires s.hold.ByClient? && PhaseOk(s) && Submitting(s.hold.call.at) && CanAdvance(s, s.hold.call, pick)
    requires SubmitOk(s) && n in s.home && TicketOk(s, n)
    requires s.hold.call.at.SubmitQueue? ==> WorkerOk(s, s.hold.call.w)
    ensures n in AdvanceSubmit(s, s.hold.tid, s.hold.call, pick, spawn).home && TicketOk(AdvanceSubmit(s, s.hold.tid, s.hold.call, pick, spawn), n)
  {
  }

  lemma RerunKeepsTicket(s: State, n: nat)
    requires s.hold.ByClient? && PhaseOk(s) && Rerunning(s.hold.call.at)
    requires SubmitOk(s) && WorkerOk(s, s.hold.call.w) && n in AdvanceRerun(s, s.hold.tid, s.hold.call).home && (n in s.home ==> TicketOk(s, n))
    ensures TicketOk(AdvanceRerun(s, s.hold.tid, s.hold.call), n)
  {
  }

  // ----- the lists, the callers and the call in progress across one step

  // A caller's step that touches no list, no caller and no task.
  ghost predicate SameLists(s: State, s': State) {
    && s'.free == s.free && s'.busy == s.busy && s'.waiting == s.waiting && s'.status == s.status
    && s'.waitOk == s.waitOk && s'.issued == s.issued && s'.home == s.home && s'.started == s.started
    && s'.finished == s.finished && s'.accepted == s.accepted && |s'.workers| == |s.workers|
    && s.hold.ByClient? && s'.hold.ByClient? && s'.hold.tid == s.hold.tid && s'.hold.call.todo <= s.hold.call.todo
    && (forall w :: 0 <= w < |s.workers| && s.workers[w].thread.pc == Running ==> s'.workers[w].thread.pc == Running)
  }

  lemma PoolFrame(s: State, s': State)
    requires SameLists(s, s') && PoolOk(s)
    ensures PoolOk(s')
  {
  }

  lemma EntryKeepsPool(s: State, a: Action)
    requires Enabled(s, a) && (a.Begin? || a.Enter?) && PoolOk(s)
    ensures PoolOk(Step(s, a))
  {
  }

  lemma ReleaseKeepsPool(s: State, a: Action)
    requires Enabled(s, a) && Release(a) && PoolOk(s) && WorkerOk(s, a.w)
    ensures PoolOk(Step(s, a))
  {
  }

  lemma ExecKeepsPool(s: State, a: Action)
    requires Enabled(s, a) && a.Exec? && PoolOk(s)
    ensures PoolOk(Step(s, a))
  {
  }

  lemma TaskKeepsPool(s: State, a: Action)
    requires Enabled(s, a) && (a.Start? || a.Finish?) && PoolOk(s) && JobOk(s, a.w)
    requires a.Start? ==> WorkerOk(s, a.w)
    ensures PoolOk(Step(s, a))
  {
  }

  lemma SubmitEdgeKeepsPool(s: State, pick: nat, spawn: bool)
    requires s.hold.ByClient? && PhaseOk(s) && Submitting(s.hold.call.at) && CanAdvance(s, s.hold.call, pick)
    requires PoolOk(s) && SubmitOk(s)
    requires s.hold.call.at.SubmitCheck? || s.hold.call.at.SubmitReturn?
    ensures PoolOk(AdvanceSubmit(s, s.hold.tid, s.hold.call, pick, spawn))
  {
  }

  lemma SubmitPickKeepsPool(s: State, pick: nat, spawn: bool)
    requires s.hold.ByClient? && PhaseOk(s) && Submitting(s.hold.call.at) && CanAdvance(s, s.hold.call, pick)
    requires PoolOk(s) && SubmitOk(s)
    requires !(s.hold.call.at.SubmitCheck? || s.hold.call.at.SubmitReturn?)
    ensures PoolOk(AdvanceSubmit(s, s.hold.tid, s.hold.call, pick, spawn))
  {
  }

  lemma SubmitKeepsPool(s: State, pick: nat, spawn: bool)
    requires s.hold.ByClient? && PhaseOk(s) && Submitting(s.hold.call.at) && CanAdvance(s, s.hold.call, pick)
    requires PoolOk(s) && SubmitOk(s)
    ensures PoolOk(AdvanceSubmit(s, s.hold.tid, s.hold.call, pick, spawn))
  {
    if s.hold.call.at.SubmitCheck? || s.hold.call.at.SubmitReturn? {
      SubmitEdgeKeepsPool(s, pick, spawn);
    } else {
      SubmitPickKeepsPool(s, pick, spawn);
    }
  }

  lemma RerunKeepsPool(s: State)
    requires s.hold.ByClient? && PhaseOk(s) && Rerunning(s.hold.call.at)
    requires PoolOk(s) && SubmitOk(s)
    ensures PoolOk(AdvanceRerun(s, s.hold.tid, s.hold.call))
  {
  }

  lemma ShutdownKeepsPool(s: State, pick: nat)
    requires s.hold.ByClient? && PhaseOk(s) && ShuttingAll(s.hold.call.at) && CanAdvance(s, s.hold.call, pick)
    requires PoolOk(s) && SubmitOk(s)
    ensures PoolOk(AdvanceShutdown(s, s.hold.tid, s.hold.call, pick))
  {
  }

  lemma RequestKeepsPool(s: State)
    requires s.hold.ByClient? && PhaseOk(s) && Requesting(s.hold.call.at)
    requires PoolOk(s) && SubmitOk(s)
    ensures PoolOk(AdvanceRequest(s, s.hold.tid, s.hold.call))
  {
    PoolFrame(s, AdvanceRequest(s, s.hold.tid, s.hold.call));
  }

  lemma WaitEdgeKeepsPool(s: State, pick: nat)
    requires s.hold.ByClient? && PhaseOk(s) && InWait(s.hold.call.at) && CanAdvance(s, s.hold.call, pick)
    requires PoolOk(s) && SubmitOk(s)
    requires s.hold.call.at.WaitCheck? || s.hold.call.at.WaitRetry? || s.hold.call.at.WaitReturn?
    ensures PoolOk(AdvanceWait(s, s.hold.tid, s.hold.call, pick))
  {
  }

  lemma WaitWalkKeepsPool(s: State, pick: nat)
    requires s.hold.ByClient? && PhaseOk(s) && InWait(s.hold.call.at) && CanAdvance(s, s.hold.call, pick)
    requires PoolOk(s) && SubmitOk(s)
    requires s.hold.call.at.WaitNext? || s.hold.call.at.WaitLock? || s.hold.call.at.WaitRead?
    ensures PoolOk(AdvanceWait(s, s.hold.tid, s.hold.call, pick))
  {
  }

  lemma BeginKeepsCall(s: State, a: Action)
    requires Enabled(s, a) && a.Begin? && CallOk(s)
    ensures CallOk(Step(s, a))
  {
  }

  lemma EnterKeepsCall(s: State, a: Action)
    requires Enabled(s, a) && a.Enter? && PoolOk(s) && CallOk(s)
    ensures CallOk(Step(s, a))
  {
  }

  lemma InnerKeepsCall(s: State, a: Action)
    requires Enabled(s, a) && (Inner(a) || Release(a)) && PoolOk(s) && CallOk(s)
    requires WorkerOk(s, a.w) && JobOk(s, a.w)
    ensures CallOk(Step(s, a))
  {
  }

  lemma SubmitEdgeKeepsCall(s: State, pick: nat, spawn: bool)
    requires s.hold.ByClient? && PhaseOk(s) && CanAdvance(s, s.hold.call, pick)
    requires s.hold.call.at.SubmitCheck? || s.hold.call.at.SubmitReturn?
    requires PoolOk(s) && SubmitOk(s)
    ensures CallOk(AdvanceSubmit(s, s.hold.tid, s.hold.call, pick, spawn))
  {
  }

  lemma SubmitPickKeepsCall(s: State, pick: nat, spawn: bool)
    requires s.hold.ByClient? && PhaseOk(s) && CanAdvance(s, s.hold.call, pick)
    requires s.hold.call.at.SubmitPick? || s.hold.call.at.SubmitQueue?
    requires PoolOk(s) && SubmitOk(s)
    requires s.hold.call.at.SubmitQueue? ==> WorkerOk(s, s.hold.call.w)
    requires s.hold.call.at.SubmitPick?
    ensures CallOk(AdvanceSubmit(s, s.hold.tid, s.hold.call, pick, spawn))
  {
  }

  lemma SubmitQueueKeepsCall(s: State, pick: nat, spawn: bool)
    requires s.hold.ByClient? && PhaseOk(s) && CanAdvance(s, s.hold.call, pick)
    requires s.hold.call.at.SubmitPick? || s.hold.call.at.SubmitQueue?
    requires PoolOk(s) && SubmitOk(s)
    requires s.hold.call.at.SubmitQueue? ==> WorkerOk(s, s.hold.call.w)
    requires !s.hold.call.at.SubmitPick?
    ensures CallOk(AdvanceSubmit(s, s.hold.tid, s.hold.call, pick, spawn))
  {
  }

  lemma SubmitKeepsCall(s: State, pick: nat, spawn: bool)
    requires s.hold.ByClient? && PhaseOk(s) && CanAdvance(s, s.hold.call, pick)
    requires s.hold.call.at.SubmitPick? || s.hold.call.at.SubmitQueue?
    requires PoolOk(s) && SubmitOk(s)
    requires s.hold.call.at.SubmitQueue? ==> WorkerOk(s, s.hold.call.w)
    ensures CallOk(AdvanceSubmit(s, s.hold.tid, s.hold.call, pick, spawn))
  {
    if s.hold.call.at.SubmitPick? {
      SubmitPickKeepsCall(s, pick, spawn);
    } else {
      SubmitQueueKeepsCall(s, pick, spawn);
    }
  }

  lemma RerunTestKeepsCall(s: State)
    requires s.hold.ByClient? && PhaseOk(s) && Rerunning(s.hold.call.at)
    requires SubmitOk(s) && WorkerOk(s, s.hold.call.w)
    requires s.hold.call.at.RerunLock? || s.hold.call.at.RerunTest?
    ensures CallOk(AdvanceRerun(s, s.hold.tid, s.hold.call))
  {
  }

  lemma RerunNotifyKeepsCall(s: State)
    requires s.hold.ByClient? && PhaseOk(s) && Rerunning(s.hold.call.at)
    requires SubmitOk(s) && WorkerOk(s, s.hold.call.w)
    requires !(s.hold.call.at.RerunLock? || s.hold.call.at.RerunTest?)
    ensures CallOk(AdvanceRerun(s, s.hold.tid, s.hold.call))
  {
  }

  lemma RerunKeepsCall(s: State)
    requires s.hold.ByClient? && PhaseOk(s) && Rerunning(s.hold.call.at)
    requires SubmitOk(s) && WorkerOk(s, s.hold.call.w)
    ensures CallOk(AdvanceRerun(s, s.hold.tid, s.hold.call))
  {
    if s.hold.call.at.RerunLock? || s.hold.call.at.RerunTest? {
      RerunTestKeepsCall(s);
    } else {
      RerunNotifyKeepsCall(s);
    }
  }

  lemma ShutdownCheckKeepsCall(s: State, pick: nat)
    requires s.hold.ByClient? && PhaseOk(s) && CanAdvance(s, s.hold.call, pick)
    requires s.hold.call.at.ShutdownCheck? || s.hold.call.at.ShutdownReturn?
    requires PoolOk(s) && SubmitOk(s)
    requires s.hold.call.at.ShutdownCheck?
    ensures CallOk(AdvanceShutdown(s, s.hold.tid, s.hold.call, pick))
  {
  }

  lemma ShutdownReturnKeepsCall(s: State, pick: nat)
    requires s.hold.ByClient? && PhaseOk(s) && CanAdvance(s, s.hold.call, pick)
    requires s.hold.call.at.ShutdownCheck? || s.hold.call.at.ShutdownReturn?
    requires PoolOk(s) && SubmitOk(s)
    requires !s.hold.call.at.ShutdownCheck?
    ensures CallOk(AdvanceShutdown(s, s.hold.tid, s.hold.call, pick))
  {
  }

  lemma ShutdownEdgeKeepsCall(s: State, pick: nat)
    requires s.hold.ByClient? && PhaseOk(s) && CanAdvance(s, s.hold.call, pick)
    requires s.hold.call.at.ShutdownCheck? || s.hold.call.at.ShutdownReturn?
    requires PoolOk(s) && SubmitOk(s)
    ensures CallOk(AdvanceShutdown(s, s.hold.tid, s.hold.call, pick))
  {
    if s.hold.call.at.ShutdownCheck? {
      ShutdownCheckKeepsCall(s, pick);
    } else {
      ShutdownReturnKeepsCall(s, pick);
    }
  }

  lemma ShutdownNextKeepsCall(s: State, pick: nat)
    requires s.hold.ByClient? && PhaseOk(s) && CanAdvance(s, s.hold.call, pick)
    requires s.hold.call.at.ShutdownNext?
    requires PoolOk(s) && SubmitOk(s)
    ensures CallOk(AdvanceShutdown(s, s.hold.tid, s.hold.call, pick))
  {
  }

  lemma RequestKeepsCall(s: State)
    requires s.hold.ByClient? && PhaseOk(s) && Requesting(s.hold.call.at)
    requires SubmitOk(s) && WorkerOk(s, s.hold.call.w)
    ensures CallOk(AdvanceRequest(s, s.hold.tid, s.hold.call))
  {
  }

  lemma WaitEdgeKeepsCall(s: State, pick: nat)
    requires s.hold.ByClient? && PhaseOk(s) && InWait(s.hold.call.at) && CanAdvance(s, s.hold.call, pick)
    requires s.hold.call.at.WaitCheck? || s.hold.call.at.WaitRetry? || s.hold.call.at.WaitReturn?
    ensures CallOk(AdvanceWait(s, s.hold.tid, s.hold.call, pick))
  {
  }

  lemma WaitNextKeepsCall(s: State, pick: nat)
    requires s.hold.ByClient? && PhaseOk(s) && InWait(s.hold.call.at) && CanAdvance(s, s.hold.call, pick)
    requires PoolOk(s) && SubmitOk(s)
    requires s.hold.call.at.WaitNext? || s.hold.call.at.WaitLock? || s.hold.call.at.WaitRead?
    requires s.hold.call.at.WaitNext?
    ensures CallOk(AdvanceWait(s, s.hold.tid, s.hold.call, pick))
  {
  }

  lemma WaitReadKeepsCall(s: State, pick: nat)
    requires s.hold.ByClient? && PhaseOk(s) && InWait(s.hold.call.at) && CanAdvance(s, s.hold.call, pick)
    requires PoolOk(s) && SubmitOk(s)
    requires s.hold.call.at.WaitNext? || s.hold.call.at.WaitLock? || s.hold.call.at.WaitRead?
    requires !s.hold.call.at.WaitNext?
    ensures CallOk(AdvanceWait(s, s.hold.tid, s.hold.call, pick))
  {
  }

  lemma WaitWalkKeepsCall(s: State, pick: nat)
    requires s.hold.ByClient? && PhaseOk(s) && InWait(s.hold.call.at) && CanAdvance(s, s.hold.call, pick)
    requires PoolOk(s) && SubmitOk(s)
    requires s.hold.call.at.WaitNext? || s.hold.call.at.WaitLock? || s.hold.call.at.WaitRead?
    ensures CallOk(AdvanceWait(s, s.hold.tid, s.hold.call, pick))
  {
    if s.hold.call.at.WaitNext? {
      WaitNextKeepsCall(s, pick);
    } else {
      WaitReadKeepsCall(s, pick);
    }
  }

  // ----- every step of every thread

  lemma SubmittingKeepsWorker(s: State, a: Action, x: nat)
    requires Inside(s, x) && Enabled(s, a) && a.Inside? && x < |Step(s, a).workers| && Submitting(s.hold.call.at)
    requires x < |s.workers| ==> JobOk(s, x)
    ensures WorkerOk(Step(s, a), x) && JobOk(Step(s, a), x)
  {
    var at := s.hold.call.at;
    if at.SubmitPick? {
      if x < |s.workers| { SubmitPickKeeps(s, a.pick, a.spawn, x); } else { SubmitSpawnKeeps(s, a.pick, a.spawn, x); }
    } else if at.SubmitQueue? {
      SubmitQueueKeeps(s, a.pick, a.spawn, x);
    } else {
      SubmitEdgeKeeps(s, a.pick, a.spawn, x);
    }
    SubmitKeepsJob(s, a.pick, a.spawn, x);
  }

  lemma SubmitKeepsWorker(s: State, a: Action, x: nat)
    requires Inv(s) && Enabled(s, a) && a.Inside? && x < |Step(s, a).workers| && InSubmit(s.hold.call.at)
    ensures WorkerOk(Step(s, a), x) && JobOk(Step(s, a), x)
  {
    var at := s.hold.call.at;
    assert Inside(s, x);
    if Submitting(at) {
      SubmittingKeepsWorker(s, a, x);
    } else {
      if at.RerunLock? || at.RerunTest? { RerunTestKeeps(s, x); } else { RerunNotifyKeeps(s, x); }
      RerunKeepsJob(s, x);
    }
  }

  lemma ShutdownOrWaitKeepsWorker(s: State, a: Action, x: nat)
    requires Inv(s) && Enabled(s, a) && a.Inside? && x < |Step(s, a).workers| && !InSubmit(s.hold.call.at)
    ensures WorkerOk(Step(s, a), x) && JobOk(Step(s, a), x)
  {
    var at := s.hold.call.at;
    assert Inside(s, x);
    if ShuttingAll(at) {
      if at.ShutdownNext? { ShutdownNextKeeps(s, a.pick, x); } else { ShutdownEdgeKeeps(s, a.pick, x); }
      ShutdownKeepsJob(s, a.pick, x);
    } else if Requesting(at) {
      if at.RequestLock? || at.RequestTry? {
        RequestTryKeeps(s, x);
      } else if at.RequestDecide? {
        RequestDecideKeeps(s, x);
      } else if at.RequestDropCond? || at.RequestDropLock? {
        RequestDropKeeps(s, x);
      } else {
        RequestNotifyKeeps(s, x);
      }
      RequestKeepsJob(s, x);
    } else {
      if at.WaitNext? || at.WaitLock? {
        WaitNextKeeps(s, a.pick, x);
      } else if at.WaitRead? {
        WaitReadKeeps(s, a.pick, x);
      } else if at.WaitCheck? {
        WaitCheckKeeps(s, a.pick, x);
      } else {
        WaitEndKeeps(s, a.pick, x);
      }
      WaitKeepsJob(s, a.pick, x);
    }
  }

  lemma StepKeepsWorker(s: State, a: Action, x: nat)
    requires Inv(s) && Enabled(s, a) && x < |Step(s, a).workers|
    ensures WorkerOk(Step(s, a), x) && JobOk(Step(s, a), x)
  {
    if a.Inside? {
      if InSubmit(s.hold.call.at) { SubmitKeepsWorker(s, a, x); } else { ShutdownOrWaitKeepsWorker(s, a, x); }
    } else {
      assert x < |s.workers|;
      assert Outer(s, a, x);
      if Inner(a) { InnerKeepsJob(s, a, x); } else { OuterKeepsJob(s, a, x); }
      if a.Exec? {
        var pc := s.workers[a.w].thread.pc;
        if x != a.w {
          OtherKeeps(s, a, x);
        } else if Committed(pc) {
          CommittedKeeps(s, a, x);
        } else if Waiting(pc) {
          WaitingKeeps(s, a, x);
        } else if Working(pc) {
          WorkingKeeps(s, a, x);
        } else {
          LeavingKeeps(s, a, x);
        }
      } else if a.Start? {
        StartKeeps(s, a, x);
      } else if a.Finish? {
        FinishKeeps(s, a, x);
      } else if Release(a) {
        ReleaseKeeps(s, a, x);
      } else if a.Begin? {
        BeginKeeps(s, a, x);
      } else {
        EnterKeeps(s, a, x);
      }
    }
  }

  lemma CallKeepsTicket(s: State, a: Action, n: nat)
    requires s.hold.ByClient? && PhaseOk(s) && Enabled(s, a) && a.Inside? && !InSubmit(s.hold.call.at)
    requires (Requesting(s.hold.call.at) ==> WorkerOk(s, s.hold.call.w)) && n in Step(s, a).home && (n in s.home ==> TicketOk(s, n))
    ensures TicketOk(Step(s, a), n)
  {
    if ShuttingAll(s.hold.call.at) {
      ShutdownSameTasks(s, a.pick);
    } else if Requesting(s.hold.call.at) {
      RequestSameTasks(s);
    } else {
      WaitSameTasks(s, a.pick);
    }
    TicketFrame(s, Step(s, a), n);
  }

  lemma StepKeepsTicket(s: State, a: Action, n: nat)
    requires Inv(s) && Enabled(s, a) && n in Step(s, a).home
    ensures TicketOk(Step(s, a), n)
  {
    if Inner(a) {
      InnerKeepsTicket(s, a, n);
    } else if !a.Inside? {
      OuterKeepsTicket(s, a, n);
    } else if Submitting(s.hold.call.at) {
      SubmitKeepsTicket(s, a.pick, a.spawn, n);
    } else if Rerunning(s.hold.call.at) {
      RerunKeepsTicket(s, n);
    } else {
      CallKeepsTicket(s, a, n);
    }
  }

  lemma StepKeepsRest(s: State, a: Action)
    requires Inv(s) && Enabled(s, a)
    ensures PoolOk(Step(s, a)) && CallOk(Step(s, a))
  {
    if a.Begin? {
      EntryKeepsPool(s, a);
      BeginKeepsCall(s, a);
    } else if a.Enter? {
      EntryKeepsPool(s, a);
      EnterKeepsCall(s, a);
    } else if !a.Inside? {
      if a.Exec? {
        ExecKeepsPool(s, a);
      } else if Inner(a) {
        TaskKeepsPool(s, a);
      } else {
        ReleaseKeepsPool(s, a);
      }
      InnerKeepsCall(s, a);
    } else if Submitting(s.hold.call.at) {
      SubmitKeepsPool(s, a.pick, a.spawn);
      if s.hold.call.at.SubmitCheck? || s.hold.call.at.SubmitReturn? {
        SubmitEdgeKeepsCall(s, a.pick, a.spawn);
      } else {
        SubmitKeepsCall(s, a.pick, a.spawn);
      }
    } else if Rerunning(s.hold.call.at) {
      RerunKeepsPool(s);
      RerunKeepsCall(s);
    } else if ShuttingAll(s.hold.call.at) {
      ShutdownKeepsPool(s, a.pick);
      if s.hold.call.at.ShutdownNext? {
        ShutdownNextKeepsCall(s, a.pick);
      } else {
        ShutdownEdgeKeepsCall(s, a.pick);
      }
    } else if Requesting(s.hold.call.at) {
      RequestKeepsPool(s);
      RequestKeepsCall(s);
    } else if s.hold.call.at.WaitNext? || s.hold.call.at.WaitLock? || s.hold.call.at.WaitRead? {
      WaitWalkKeepsPool(s, a.pick);
      WaitWalkKeepsCall(s, a.pick);
    } else {
      WaitEdgeKeepsPool(s, a.pick);
      WaitEdgeKeepsCall(s, a.pick);
    }
  }

  /** Every step of every thread keeps the invariant. */
  lemma StepKeeps(s: State, a: Action)
    requires Inv(s) && Enabled(s, a)
    ensures Inv(Step(s, a))
  {
    StepKeepsRest(s, a);
    forall x | 0 <= x < |Step(s, a).workers| ensures WorkerOk(Step(s, a), x) && JobOk(Step(s, a), x) {
      StepKeepsWorker(s, a, x);
    }
    forall n | n in Step(s, a).home ensures TicketOk(Step(s, a), n) {
      StepKeepsTicket(s, a, n);
    }
  }

  /** In every interleaving of submitters, workers, shutdowns and waiters. */
  lemma {:induction false} RunKeeps(acts: seq<Action>)
    requires Legal(acts)
    ensures Inv(After(acts))
    decreases |acts|
  {
    if acts != [] {
      RunKeeps(acts[..|acts| - 1]);
      StepKeeps(After(acts[..|acts| - 1]), acts[|acts| - 1]);
    }
  }
}
