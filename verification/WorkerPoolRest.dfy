/** The worker pool can always come to rest: from every reachable state in which no task of the pool waits for
    the pool's own exit, the threads need no further call to get there, so no try-lock and no poll of
    wp_wait_exit is repeated in vain.  A task that does wait for the exit of its own thread polls for ever. */
module WorkerPoolRest {
  import opened RerunnableThread
  import opened WorkerPool
  import opened WorkerPoolInvariant
  import opened WorkerPoolTheorems

  // No task of the pool is inside wp_wait_exit.
  ghost predicate OutsideWaits(s: State) {
    && (forall tid :: tid in s.waiting && s.waiting[tid].WaitExit? ==> tid.Client?)
    && (s.hold.ByClient? && InWait(s.hold.call.at) ==> s.hold.tid.Client?)
  }

  ghost predicate AllExited(s: State, ws: set<nat>) {
    forall w :: w in ws ==> w < |s.workers| && s.workers[w].thread.status == Exited
  }

  // The try-lock of the call in progress will succeed, and its walk over the lists will find no live thread.
  ghost predicate NoRetry(s: State) {
    s.hold.ByClient? ==>
      var c := s.hold.call;
      && (c.at.RequestTry? ==> c.w < |s.workers| && s.workers[c.w].thread.condLock == Free)
      && (c.at.WaitCheck? && s.status == ShuttingDown ==> AllExited(s, s.busy + s.free))
      && (c.at.WaitNext? || c.at.WaitLock? || c.at.WaitRead? ==> AllExited(s, c.todo))
      && !c.at.WaitRetry?
  }

  // The executor's own next step, or that of the task it runs.
  function OwnStep(s: State, w: nat): Action
    requires w < |s.workers|
  {
    match s.workers[w].thread.pc
    case Call(_) => Start(w)
    case Running => Finish(w)
    case Callback => TakePool(w)
    case _ => Exec(w)
  }

  lemma OwnStepEnabled(s: State, w: nat)
    requires Inv(s) && w < |s.workers| && !s.hold.ByClient?
    requires var pc := s.workers[w].thread.pc;
      pc != Parked && pc != Gone && (pc == Callback ==> s.hold == Unlocked) && (pc == Running ==> !InCall(s, Worker(w)))
    ensures Enabled(s, OwnStep(s, w)) && !OwnStep(s, w).Begin? && Progress(s, OwnStep(s, w))
    ensures !Step(s, OwnStep(s, w)).hold.ByClient?
  {
    assert WorkerOk(s, w);
  }

  // The thread in hand holds the lock that the caller waits for, and can go on.
  lemma HolderMoves(s: State)
    requires Inv(s) && s.hold.ByClient? && InBounds(s, s.hold.call)
    requires var c := s.hold.call;
      || ((c.at.RerunLock? || c.at.RequestLock? || c.at.WaitLock?) && s.workers[c.w].thread.rtLock != Free)
      || ((c.at.RerunNotify? || c.at.RequestNotify? || c.at.RequestLock?) && s.workers[c.w].thread.condLock != Free)
    ensures ExecutorCanStep(s.workers[s.hold.call.w].thread) && Enabled(s, Exec(s.hold.call.w)) && Progress(s, Exec(s.hold.call.w))
  {
    assert WorkerOk(s, s.hold.call.w);
  }

  lemma ExecKeepsNoRetry(s: State, w: nat)
    requires Inv(s) && NoRetry(s) && Enabled(s, Exec(w)) && (s.hold.ByClient? ==> !s.hold.call.at.RequestTry?)
    ensures NoRetry(Step(s, Exec(w)))
  {
    assert WorkerOk(s, w);
  }

  // The caller that holds pool_lock.
  lemma CallerNext(s: State) returns (a: Action)
    requires Inv(s) && NoRetry(s) && s.hold.ByClient?
    ensures Enabled(s, a) && !a.Begin? && Progress(s, a) && NoRetry(Step(s, a))
  {
    var c := s.hold.call;
    var pick :| (c.at.SubmitPick? && s.free != {} ==> pick in s.free)
                && ((c.at.ShutdownNext? || c.at.WaitNext?) && c.todo != {} ==> pick in c.todo);
    if c.at.RequestLock? && s.workers[c.w].thread.condLock != Free {
      HolderMoves(s);
      ExecKeepsNoRetry(s, c.w);
      a := Exec(c.w);
    } else if CanAdvance(s, c, pick) {
      a := Action.Inside(pick, true);
      InsideKeepsNoRetry(s, pick);
    } else {
      HolderMoves(s);
      ExecKeepsNoRetry(s, c.w);
      a := Exec(c.w);
    }
  }

  lemma InsideKeepsNoRetry(s: State, pick: nat)
    requires Inv(s) && NoRetry(s) && s.hold.ByClient? && CanAdvance(s, s.hold.call, pick)
    requires s.hold.call.at.RequestLock? ==> s.workers[s.hold.call.w].thread.condLock == Free
    ensures NoRetry(Advance(s, s.hold.tid, s.hold.call, pick, true))
  {
    var c := s.hold.call;
    if InWait(c.at) {
      WaitKeepsNoRetry(s, pick);
    } else if Requesting(c.at) {
      RequestKeepsNoRetry(s);
    } else if Submitting(c.at) {
      SubmitKeepsNoRetry(s, pick);
    } else if Rerunning(c.at) {
      RerunKeepsNoRetry(s);
    } else {
      ShutdownKeepsNoRetry(s, pick);
    }
  }

  lemma RequestKeepsNoRetry(s: State)
    requires s.hold.ByClient? && InBounds(s, s.hold.call) && Requesting(s.hold.call.at)
    requires s.hold.call.at.RequestLock? ==> s.workers[s.hold.call.w].thread.condLock == Free
    ensures NoRetry(AdvanceRequest(s, s.hold.tid, s.hold.call))
  {
  }

  lemma SubmitKeepsNoRetry(s: State, pick: nat)
    requires s.hold.ByClient? && InBounds(s, s.hold.call) && CanAdvance(s, s.hold.call, pick) && Submitting(s.hold.call.at)
    ensures NoRetry(AdvanceSubmit(s, s.hold.tid, s.hold.call, pick, true))
  {
  }

  lemma RerunKeepsNoRetry(s: State)
    requires s.hold.ByClient? && InBounds(s, s.hold.call) && Rerunning(s.hold.call.at)
    ensures NoRetry(AdvanceRerun(s, s.hold.tid, s.hold.call))
  {
  }

  lemma ShutdownKeepsNoRetry(s: State, pick: nat)
    requires s.hold.ByClient? && InBounds(s, s.hold.call) && CanAdvance(s, s.hold.call, pick) && ShuttingAll(s.hold.call.at)
    ensures NoRetry(AdvanceShutdown(s, s.hold.tid, s.hold.call, pick))
  {
  }

  lemma WaitKeepsNoRetry(s: State, pick: nat)
    requires Inv(s) && NoRetry(s) && s.hold.ByClient? && InWait(s.hold.call.at) && CanAdvance(s, s.hold.call, pick)
    ensures NoRetry(AdvanceWait(s, s.hold.tid, s.hold.call, pick))
  {
  }

  // Nobody holds pool_lock and no executor can go on: only calls wait, and a wp_wait_exit will see no live thread.
  lemma EnterNext(s: State, tid: ThreadId)
    requires Inv(s) && OutsideWaits(s) && s.hold == Unlocked && tid in s.waiting
    requires s.waiting[tid].WaitExit? ==>
      forall w :: 0 <= w < |s.workers| ==> s.workers[w].thread.pc == Parked || s.workers[w].thread.pc == Gone
    ensures Enabled(s, Enter(tid)) && Progress(s, Enter(tid)) && NoRetry(Step(s, Enter(tid)))
  {
    if s.waiting[tid].WaitExit? && s.status != Available {
      forall w | w in s.busy + s.free ensures w < |s.workers| && s.workers[w].thread.status == Exited {
        assert WorkerOk(s, w);
      }
    }
  }

  predicate CanGo(s: State, w: nat)
    requires w < |s.workers|
  {
    var pc := s.workers[w].thread.pc;
    pc != Parked && pc != Gone && (pc == Running ==> !InCall(s, Worker(w)))
  }

  lemma FreeNext(s: State) returns (a: Action)
    requires Inv(s) && OutsideWaits(s) && s.hold == Unlocked && !Quiescent(s)
    ensures Enabled(s, a) && !a.Begin? && Progress(s, a) && NoRetry(Step(s, a))
  {
    if w :| 0 <= w < |s.workers| && CanGo(s, w) {
      a := OwnStep(s, w);
      OwnStepEnabled(s, w);
    } else if tid :| tid in s.waiting && !s.waiting[tid].WaitExit? {
      a := Enter(tid);
      EnterNext(s, tid);
    } else {
      forall w | 0 <= w < |s.workers| ensures s.workers[w].thread.pc == Parked || s.workers[w].thread.pc == Gone {
        assert !CanGo(s, w);
      }
      var tid :| tid in s.waiting;
      a := Enter(tid);
      EnterNext(s, tid);
    }
  }

  // A next step that is no retry and leads to no retry.
  lemma Next(s: State) returns (a: Action)
    requires Inv(s) && OutsideWaits(s) && NoRetry(s) && !Quiescent(s)
    ensures Enabled(s, a) && !a.Begin? && Progress(s, a) && NoRetry(Step(s, a))
  {
    if s.hold.ByClient? {
      a := CallerNext(s);
    } else if s.hold.ByWorker? {
      a := if s.hold.moved then DropPool(s.hold.w) else Move(s.hold.w);
    } else {
      a := FreeNext(s);
    }
  }

  // The call in progress, if there still is one, is of the same kind and thread, and no call has begun.
  predicate SameCall(s: State, s': State)
    requires s.hold.ByClient?
  {
    && s'.waiting == s.waiting
    && (s'.hold.ByClient? ==> s'.hold.tid == s.hold.tid && (InWait(s'.hold.call.at) ==> InWait(s.hold.call.at)))
  }

  lemma SubmitSameCall(s: State, pick: nat, spawn: bool)
    requires s.hold.ByClient? && InBounds(s, s.hold.call) && CanAdvance(s, s.hold.call, pick) && Submitting(s.hold.call.at)
    ensures SameCall(s, AdvanceSubmit(s, s.hold.tid, s.hold.call, pick, spawn))
  {
  }

  lemma RerunSameCall(s: State)
    requires s.hold.ByClient? && InBounds(s, s.hold.call) && Rerunning(s.hold.call.at)
    ensures SameCall(s, AdvanceRerun(s, s.hold.tid, s.hold.call))
  {
  }

  lemma ShutdownSameCall(s: State, pick: nat)
    requires s.hold.ByClient? && InBounds(s, s.hold.call) && CanAdvance(s, s.hold.call, pick) && ShuttingAll(s.hold.call.at)
    ensures SameCall(s, AdvanceShutdown(s, s.hold.tid, s.hold.call, pick))
  {
  }

  lemma OtherSameCall(s: State, pick: nat, spawn: bool)
    requires s.hold.ByClient? && InBounds(s, s.hold.call) && CanAdvance(s, s.hold.call, pick) && !Submitting(s.hold.call.at)
    requires !InWait(s.hold.call.at)
    ensures SameCall(s, Advance(s, s.hold.tid, s.hold.call, pick, spawn))
  {
    if Rerunning(s.hold.call.at) {
      RerunSameCall(s);
    } else if ShuttingAll(s.hold.call.at) {
      ShutdownSameCall(s, pick);
    }
  }

  lemma WaitSameThread(s: State, pick: nat)
    requires s.hold.ByClient? && InBounds(s, s.hold.call) && CanAdvance(s, s.hold.call, pick) && InWait(s.hold.call.at)
    ensures var s' := AdvanceWait(s, s.hold.tid, s.hold.call, pick);
      && (s'.waiting == s.waiting || s'.waiting == s.waiting[s.hold.tid := WaitExit(true)])
      && (s'.hold.ByClient? ==> s'.hold.tid == s.hold.tid)
  {
  }

  lemma StepOutsideWaits(s: State, a: Action)
    requires OutsideWaits(s) && Enabled(s, a) && !a.Begin?
    ensures OutsideWaits(Step(s, a))
  {
    if a.Inside? {
      if Submitting(s.hold.call.at) {
        SubmitSameCall(s, a.pick, a.spawn);
      } else if InWait(s.hold.call.at) {
        WaitSameThread(s, a.pick);
      } else {
        OtherSameCall(s, a.pick, a.spawn);
      }
      assert Step(s, a) == Advance(s, s.hold.tid, s.hold.call, a.pick, a.spawn);
    }
  }

  lemma {:induction false} LegalSnoc(acts: seq<Action>, a: Action)
    requires Legal(acts) && Enabled(After(acts), a)
    ensures Legal(acts + [a]) && After(acts + [a]) == Step(After(acts), a)
  {
    assert (acts + [a])[..|acts|] == acts;
  }

  // The continuation of a run by steps that are not new calls.
  ghost predicate Continues(acts: seq<Action>, more: seq<Action>) {
    Legal(acts + more) && forall i :: 0 <= i < |more| ==> !more[i].Begin?
  }

  lemma ContinuesOn(acts: seq<Action>, first: seq<Action>, rest: seq<Action>)
    requires Continues(acts, first) && Continues(acts + first, rest)
    ensures Continues(acts, first + rest) && acts + (first + rest) == acts + first + rest
  {
    assert acts + (first + rest) == acts + first + rest;
  }

  lemma {:induction false} RestFrom(acts: seq<Action>) returns (more: seq<Action>)
    requires Legal(acts) && OutsideWaits(After(acts)) && NoRetry(After(acts))
    ensures Continues(acts, more) && Quiescent(After(acts + more))
    decreases |After(acts).waiting|, Phase(After(acts).hold), Left(After(acts).hold), Work(After(acts).workers), Turn(After(acts).hold)
  {
    var s := After(acts);
    RunKeeps(acts);
    if Quiescent(s) {
      more := [];
      assert acts + more == acts;
    } else {
      var a := Next(s);
      StepGoesDown(s, a);
      StepOutsideWaits(s, a);
      LegalSnoc(acts, a);
      var rest := RestFrom(acts + [a]);
      more := [a] + rest;
      ContinuesOn(acts, [a], rest);
    }
  }

  // A call that has begun to poll gives the lock back.
  lemma WaitNextStep(s: State) returns (a: Action)
    requires Inv(s) && s.hold.ByClient? && InWait(s.hold.call.at)
    ensures Enabled(s, a) && !a.Begin?
    ensures Progress(s, a) || NoRetry(Step(s, a))
    ensures NoRetry(Step(s, a)) || (Step(s, a).hold.ByClient? && InWait(Step(s, a).hold.call.at))
  {
    var c := s.hold.call;
    var pick :| c.at.WaitNext? && c.todo != {} ==> pick in c.todo;
    if CanAdvance(s, c, pick) {
      a := Action.Inside(pick, true);
    } else {
      HolderMoves(s);
      a := Exec(c.w);
    }
  }

  lemma {:induction false} ToNoRetry(acts: seq<Action>) returns (more: seq<Action>)
    requires Legal(acts) && OutsideWaits(After(acts))
    requires After(acts).hold.ByClient? && InWait(After(acts).hold.call.at)
    ensures Continues(acts, more) && OutsideWaits(After(acts + more)) && NoRetry(After(acts + more))
    decreases |After(acts).waiting|, Phase(After(acts).hold), Left(After(acts).hold), Work(After(acts).workers), Turn(After(acts).hold)
  {
    var s := After(acts);
    RunKeeps(acts);
    var a := WaitNextStep(s);
    StepOutsideWaits(s, a);
    LegalSnoc(acts, a);
    if NoRetry(Step(s, a)) {
      more := [a];
    } else {
      StepGoesDown(s, a);
      var rest := ToNoRetry(acts + [a]);
      more := [a] + rest;
      ContinuesOn(acts, [a], rest);
    }
  }

  // Ends a walk that would find a live thread, or a try-lock that would fail.
  lemma {:induction false} FirstSteps(acts: seq<Action>) returns (more: seq<Action>)
    requires Legal(acts) && OutsideWaits(After(acts))
    ensures Continues(acts, more) && OutsideWaits(After(acts + more)) && NoRetry(After(acts + more))
  {
    var s := After(acts);
    RunKeeps(acts);
    if s.hold.ByClient? && InWait(s.hold.call.at) {
      more := ToNoRetry(acts);
    } else if s.hold.ByClient? && s.hold.call.at.RequestTry? {
      var a := Action.Inside(0, true);
      TryOnce(s);
      LegalSnoc(acts, a);
      StepOutsideWaits(s, a);
      more := [a];
    } else {
      more := [];
      assert acts + more == acts;
    }
  }

  /** From every reachable state in which no task of the pool waits for the pool's exit, the threads come to
      rest without any further call: every try-lock and every poll ends. */
  lemma {:induction false} ComesToRest(acts: seq<Action>) returns (more: seq<Action>)
    requires Legal(acts) && OutsideWaits(After(acts))
    ensures Continues(acts, more) && Quiescent(After(acts + more))
  {
    var first := FirstSteps(acts);
    var rest := RestFrom(acts + first);
    more := first + rest;
    ContinuesOn(acts, first, rest);
  }

  lemma TryOnce(s: State)
    requires Inv(s) && s.hold.ByClient? && s.hold.call.at.RequestTry?
    ensures Enabled(s, Action.Inside(0, true)) && NoRetry(Step(s, Action.Inside(0, true)))
  {
  }

  // ----- a task that waits for its own thread

  // Worker w's task polls in wp_wait_exit.
  predicate Polls(s: State, w: nat) {
    || (Worker(w) in s.waiting && s.waiting[Worker(w)] == WaitExit(true))
    || (s.hold.ByClient? && s.hold.tid == Worker(w)
        && (s.hold.call.at.WaitNext? || s.hold.call.at.WaitLock? || s.hold.call.at.WaitRead? || s.hold.call.at.WaitRetry?))
  }

  lemma PollsOn(s: State, a: Action, w: nat)
    requires Inv(s) && Polls(s, w) && Enabled(s, a) && Inv(Step(s, a))
    ensures Polls(Step(s, a), w)
  {
    assert InCall(s, Worker(w)) && w < |s.workers|;
    if a.Inside? && s.hold.tid == Worker(w) && InWait(s.hold.call.at) {
      WalkGoesOn(s, a.pick, w);
    } else if a.Inside? {
      OthersCall(s, a.pick, a.spawn);
    }
  }

  lemma OthersCall(s: State, pick: nat, spawn: bool)
    requires s.hold.ByClient? && InBounds(s, s.hold.call) && CanAdvance(s, s.hold.call, pick)
    ensures forall tid :: tid in s.waiting && tid != s.hold.tid ==>
      var s' := Advance(s, s.hold.tid, s.hold.call, pick, spawn);
      tid in s'.waiting && s'.waiting[tid] == s.waiting[tid]
  {
    if Submitting(s.hold.call.at) {
      SubmitSameCall(s, pick, spawn);
    } else if InWait(s.hold.call.at) {
      WaitSameThread(s, pick);
    } else {
      OtherSameCall(s, pick, spawn);
    }
  }

  // The walk never ends well: the thread of w runs the task that walks.
  lemma WalkGoesOn(s: State, pick: nat, w: nat)
    requires Inv(s) && Polls(s, w) && s.hold.ByClient? && s.hold.tid == Worker(w) && InWait(s.hold.call.at)
    requires CanAdvance(s, s.hold.call, pick)
    ensures Polls(AdvanceWait(s, s.hold.tid, s.hold.call, pick), w)
  {
    assert InCall(s, Worker(w)) && w < |s.workers| && s.workers[w].thread.pc == Running;
    assert WorkerOk(s, w);
    assert !Seen(s.hold, w);
  }

  /** Whatever happens afterwards, such a pool never comes to rest. */
  lemma {:induction false} PollsForEver(acts: seq<Action>, more: seq<Action>, w: nat)
    requires Legal(acts) && Polls(After(acts), w) && Legal(acts + more)
    ensures !Quiescent(After(acts + more))
  {
    StillPolls(acts, more, w);
    RunKeeps(acts + more);
  }

  lemma {:induction false} StillPolls(acts: seq<Action>, more: seq<Action>, w: nat)
    requires Legal(acts) && Polls(After(acts), w) && Legal(acts + more)
    ensures Polls(After(acts + more), w)
    decreases |more|
  {
    if more == [] {
      assert acts + more == acts;
    } else {
      var last := |more| - 1;
      assert (acts + more)[..|acts + more| - 1] == acts + more[..last];
      StillPolls(acts, more[..last], w);
      RunKeeps(acts + more[..last]);
      RunKeeps(acts + more);
      PollsOn(After(acts + more[..last]), more[last], w);
    }
  }
}
