/** When the worker pool can come to rest by itself: exactly as long as no task of the pool waits, past the
    status test of wp_wait_exit, for the exit of its own thread, nor is bound to. */
module WorkerPoolExit {
  import opened RerunnableThread
  import opened WorkerPool
  import opened WorkerPoolInvariant
  import opened WorkerPoolTheorems
  import opened WorkerPoolRest

  // The status the pool will have when the call in progress gives pool_lock back.
  function Outcome(s: State): PoolStatus {
    if s.hold.ByClient? && s.hold.call.at.ShutdownCheck? && s.status == Available then ShuttingDown
    else if s.hold.ByClient? && s.hold.call.at.WaitCheck? && s.status == ShuttingDown then PoolExited
    else s.status
  }

  // The call in progress has passed, or will pass, the status test of wp_wait_exit.
  predicate Walking(s: State) {
    s.hold.ByClient? &&
    var at := s.hold.call.at;
    || at.WaitNext? || at.WaitLock? || at.WaitRead? || at.WaitRetry?
    || (at.WaitCheck? && s.status == ShuttingDown)
  }

  predicate FirstWait(s: State, tid: ThreadId) {
    tid in s.waiting && s.waiting[tid] == WaitExit(false)
  }

  ghost predicate TaskWaits(s: State) {
    exists w: nat :: FirstWait(s, Worker(w))
  }

  ghost predicate OutsiderWaits(s: State) {
    exists id: nat :: FirstWait(s, Client(id))
  }

  // A task polls, or is at the status test, which it will pass; or a task's first wait is pending, it will
  // find the pool shutting down, and no outside caller's first wait can come before it.
  ghost predicate Doomed(s: State) {
    || (exists w: nat :: Polls(s, w))
    || (Walking(s) && s.hold.tid.Worker?)
    || (TaskWaits(s) && Outcome(s) == ShuttingDown && !OutsiderWaits(s))
  }

  // ----- what a call in progress leaves behind

  // From s to s' only the call in progress in s has gone on.
  ghost predicate Onwards(s: State, s': State) {
    && Outcome(s') == Outcome(s)
    && (forall tid :: tid in s.waiting ==> tid in s'.waiting && s'.waiting[tid] == s.waiting[tid])
    && (forall tid :: tid in s'.waiting && tid !in s.waiting ==>
          Walking(s) && tid == s.hold.tid && s'.waiting[tid] == WaitExit(true))
    && (Walking(s') ==> Walking(s) && s'.hold.tid == s.hold.tid)
  }

  lemma OnwardsTrans(a: State, b: State, c: State)
    requires Onwards(a, b) && Onwards(b, c)
    ensures Onwards(a, c)
  {
  }

  lemma SubmitOnwards(s: State, pick: nat, spawn: bool)
    requires s.hold.ByClient? && InBounds(s, s.hold.call) && CanAdvance(s, s.hold.call, pick) && Submitting(s.hold.call.at)
    ensures Onwards(s, AdvanceSubmit(s, s.hold.tid, s.hold.call, pick, spawn))
  {
  }

  lemma RerunOnwards(s: State)
    requires s.hold.ByClient? && InBounds(s, s.hold.call) && Rerunning(s.hold.call.at)
    ensures Onwards(s, AdvanceRerun(s, s.hold.tid, s.hold.call))
  {
  }

  lemma ShutdownOnwards(s: State, pick: nat)
    requires s.hold.ByClient? && InBounds(s, s.hold.call) && CanAdvance(s, s.hold.call, pick) && ShuttingAll(s.hold.call.at)
    ensures Onwards(s, AdvanceShutdown(s, s.hold.tid, s.hold.call, pick))
  {
  }

  lemma RequestOnwards(s: State)
    requires s.hold.ByClient? && InBounds(s, s.hold.call) && Requesting(s.hold.call.at)
    ensures Onwards(s, AdvanceRequest(s, s.hold.tid, s.hold.call))
  {
  }

  lemma WaitOnwards(s: State, pick: nat)
    requires s.hold.ByClient? && InBounds(s, s.hold.call) && CanAdvance(s, s.hold.call, pick) && InWait(s.hold.call.at)
    requires s.hold.tid !in s.waiting
    ensures Onwards(s, AdvanceWait(s, s.hold.tid, s.hold.call, pick))
  {
  }

  lemma InsideOnwards(s: State, pick: nat, spawn: bool)
    requires s.hold.ByClient? && InBounds(s, s.hold.call) && CanAdvance(s, s.hold.call, pick) && s.hold.tid !in s.waiting
    ensures Onwards(s, Advance(s, s.hold.tid, s.hold.call, pick, spawn))
  {
    var at := s.hold.call.at;
    if Submitting(at) {
      SubmitOnwards(s, pick, spawn);
    } else if Rerunning(at) {
      RerunOnwards(s);
    } else if ShuttingAll(at) {
      ShutdownOnwards(s, pick);
    } else if Requesting(at) {
      RequestOnwards(s);
    } else {
      WaitOnwards(s, pick);
    }
  }

  // Any step that neither begins nor enters a call.
  lemma StepOnwards(s: State, a: Action)
    requires Enabled(s, a) && !a.Begin? && !a.Enter? && (s.hold.ByClient? ==> s.hold.tid !in s.waiting)
    ensures Onwards(s, Step(s, a))
  {
    if a.Inside? { InsideOnwards(s, a.pick, a.spawn); }
  }

  // ----- a doomed pool stays doomed

  lemma WalkingPolls(s: State, w: nat)
    requires s.hold.ByClient? && s.hold.tid == Worker(w) && Walking(s) && !s.hold.call.at.WaitCheck?
    ensures Polls(s, w)
  {
  }

  // The task passes the test and begins to poll.
  lemma CheckedPolls(s: State, a: Action)
    requires Inv(s) && Walking(s) && s.hold.tid.Worker? && s.hold.call.at.WaitCheck? && Enabled(s, a) && !a.Begin?
    ensures Doomed(Step(s, a))
  {
    var s' := Step(s, a);
    if a.Inside? {
      assert s' == AdvanceWait(s, s.hold.tid, s.hold.call, a.pick);
      assert Polls(s', s.hold.tid.index);
    }
  }

  lemma PendingOn(s: State, a: Action)
    requires Inv(s) && TaskWaits(s) && Outcome(s) == ShuttingDown && !OutsiderWaits(s)
    requires Enabled(s, a) && !a.Begin?
    ensures Doomed(Step(s, a))
  {
    var s' := Step(s, a);
    var w: nat :| FirstWait(s, Worker(w));
    if a.Enter? {
      if a.tid != Worker(w) {
        assert FirstWait(s', Worker(w));
        forall id: nat ensures !FirstWait(s', Client(id)) { assert !FirstWait(s, Client(id)); }
        if a.tid.Client? { assert !FirstWait(s, Client(a.tid.id)); }
      }
    } else {
      StepOnwards(s, a);
      assert FirstWait(s', Worker(w));
      forall id: nat ensures !FirstWait(s', Client(id)) { assert !FirstWait(s, Client(id)); }
    }
  }

  lemma DoomedOn(s: State, a: Action)
    requires Inv(s) && Doomed(s) && Enabled(s, a) && !a.Begin? && Inv(Step(s, a))
    ensures Doomed(Step(s, a))
  {
    if w: nat :| Polls(s, w) {
      PollsOn(s, a, w);
    } else if Walking(s) && s.hold.tid.Worker? {
      if !s.hold.call.at.WaitCheck? { WalkingPolls(s, s.hold.tid.index); }
      CheckedPolls(s, a);
    } else {
      PendingOn(s, a);
    }
  }

  lemma RestNotDoomed(s: State)
    requires Quiescent(s)
    ensures !Doomed(s)
  {
  }

  lemma {:induction false} StaysDoomed(acts: seq<Action>, more: seq<Action>)
    requires Legal(acts) && Doomed(After(acts)) && Continues(acts, more)
    ensures Doomed(After(acts + more))
    decreases |more|
  {
    if more == [] {
      assert acts + more == acts;
    } else {
      var last := |more| - 1;
      assert (acts + more)[..|acts + more| - 1] == acts + more[..last];
      assert (acts + more)[|acts + more| - 1] == more[last];
      StaysDoomed(acts, more[..last]);
      RunKeeps(acts + more[..last]);
      RunKeeps(acts + more);
      DoomedOn(After(acts + more[..last]), more[last]);
    }
  }

  // ----- any other pool comes to rest

  // The try-lock of the call in progress will succeed.
  predicate TryFree(s: State) {
    s.hold.ByClient? && s.hold.call.at.RequestTry? ==>
      s.hold.call.w < |s.workers| && s.workers[s.hold.call.w].thread.condLock == Free
  }

  // A step towards giving the lock back.
  lemma HeldStep(s: State) returns (a: Action)
    requires Inv(s) && s.hold != Unlocked && TryFree(s)
    ensures Enabled(s, a) && !a.Begin? && !a.Enter? && TryFree(Step(s, a))
    ensures Progress(s, a) || Step(s, a).hold == Unlocked
  {
    if s.hold.ByWorker? {
      a := if s.hold.moved then DropPool(s.hold.w) else Move(s.hold.w);
    } else if InWait(s.hold.call.at) {
      a := WaitHeldStep(s);
    } else {
      WalkFree(s);
      a := CallerNext(s);
      NextTryFree(s, a);
    }
  }

  lemma WalkFree(s: State)
    requires s.hold.ByClient? && !InWait(s.hold.call.at) && TryFree(s)
    ensures NoRetry(s)
  {
  }

  lemma NextTryFree(s: State, a: Action)
    requires Enabled(s, a) && NoRetry(Step(s, a))
    ensures TryFree(Step(s, a))
  {
  }

  lemma WaitTryFree(s: State, pick: nat)
    requires s.hold.ByClient? && InBounds(s, s.hold.call) && CanAdvance(s, s.hold.call, pick) && InWait(s.hold.call.at)
    ensures var s' := AdvanceWait(s, s.hold.tid, s.hold.call, pick);
      TryFree(s') && (s.hold.call.at.WaitRetry? ==> s'.hold == Unlocked)
  {
  }

  lemma WaitHeldStep(s: State) returns (a: Action)
    requires Inv(s) && s.hold.ByClient? && InWait(s.hold.call.at)
    ensures Enabled(s, a) && !a.Begin? && !a.Enter? && TryFree(Step(s, a))
    ensures Progress(s, a) || Step(s, a).hold == Unlocked
  {
    var c := s.hold.call;
    var pick :| c.at.WaitNext? && c.todo != {} ==> pick in c.todo;
    if CanAdvance(s, c, pick) {
      a := Action.Inside(pick, true);
      assert Step(s, a) == AdvanceWait(s, s.hold.tid, c, pick);
      WaitTryFree(s, pick);
    } else {
      HolderMoves(s);
      a := Exec(c.w);
    }
  }

  lemma {:induction false} UnlockFrom(acts: seq<Action>) returns (more: seq<Action>)
    requires Legal(acts) && TryFree(After(acts))
    ensures Continues(acts, more) && After(acts + more).hold == Unlocked && Onwards(After(acts), After(acts + more))
    decreases |After(acts).waiting|, Phase(After(acts).hold), Left(After(acts).hold), Work(After(acts).workers), Turn(After(acts).hold)
  {
    var s := After(acts);
    RunKeeps(acts);
    if s.hold == Unlocked {
      more := [];
      assert acts + more == acts;
    } else {
      var a := HeldStep(s);
      StepOnwards(s, a);
      LegalSnoc(acts, a);
      if Step(s, a).hold == Unlocked {
        more := [a];
      } else {
        StepGoesDown(s, a);
        var rest := UnlockFrom(acts + [a]);
        more := [a] + rest;
        ContinuesOn(acts, [a], rest);
        OnwardsTrans(s, Step(s, a), After(acts + more));
      }
    }
  }

  // The call in progress gives the lock back.
  lemma {:induction false} Unlock(acts: seq<Action>) returns (more: seq<Action>)
    requires Legal(acts)
    ensures Continues(acts, more) && After(acts + more).hold == Unlocked && Onwards(After(acts), After(acts + more))
  {
    var s := After(acts);
    RunKeeps(acts);
    if TryFree(s) {
      more := UnlockFrom(acts);
    } else {
      var a := Action.Inside(0, true);
      TryOnce(s);
      StepOnwards(s, a);
      LegalSnoc(acts, a);
      NextTryFree(s, a);
      var rest := UnlockFrom(acts + [a]);
      more := [a] + rest;
      ContinuesOn(acts, [a], rest);
      OnwardsTrans(s, Step(s, a), After(acts + more));
    }
  }

  // The lock is free, and the first waits of tasks that are pending will be refused.
  ghost predicate WillRefuse(s: State) {
    s.hold == Unlocked && s.status != ShuttingDown && forall w: nat :: !Polls(s, w)
  }

  // A wait that is at its test, and will be refused.
  predicate AtTest(s: State, tid: ThreadId) {
    s.hold.ByClient? && s.hold.tid == tid && s.hold.call.at.WaitCheck? && s.status != ShuttingDown
  }

  lemma Tested(s: State, tid: ThreadId)
    requires AtTest(s, tid)
    ensures Enabled(s, Action.Inside(0, true))
    ensures var s1 := Step(s, Action.Inside(0, true));
      && Enabled(s1, Action.Inside(0, true))
      && var s2 := Step(s1, Action.Inside(0, true));
      s2.hold == Unlocked && s2.status == s.status && s2.waiting == s.waiting
  {
    var s1 := Step(s, Action.Inside(0, true));
    assert s1 == AdvanceWait(s, tid, s.hold.call, 0);
    assert Step(s1, Action.Inside(0, true)) == AdvanceWait(s1, tid, s1.hold.call, 0);
  }

  // It gets the lock, finds the status, and gives the lock back.
  lemma RefusedStates(s: State, w: nat)
    requires WillRefuse(s) && FirstWait(s, Worker(w))
    ensures Enabled(s, Enter(Worker(w))) && AtTest(Step(s, Enter(Worker(w))), Worker(w))
    ensures Step(s, Enter(Worker(w))).waiting == s.waiting - {Worker(w)} && Step(s, Enter(Worker(w))).status == s.status
  {
  }

  lemma StillRefuses(s: State, s': State, w: nat)
    requires WillRefuse(s) && s'.hold == Unlocked && s'.status == s.status && s'.waiting == s.waiting - {Worker(w)}
    ensures WillRefuse(s')
  {
    forall v: nat ensures !Polls(s', v) { assert !Polls(s, v); }
  }

  lemma {:induction false} Refuse(acts: seq<Action>, w: nat) returns (more: seq<Action>)
    requires Legal(acts) && WillRefuse(After(acts)) && FirstWait(After(acts), Worker(w))
    ensures Continues(acts, more) && WillRefuse(After(acts + more))
    ensures After(acts + more).waiting == After(acts).waiting - {Worker(w)}
  {
    var enter := [Enter(Worker(w))];
    RefusedStates(After(acts), w);
    LegalSnoc(acts, enter[0]);
    var test := Test(acts + enter, Worker(w));
    more := enter + test;
    ContinuesOn(acts, enter, test);
    StillRefuses(After(acts), After(acts + more), w);
  }

  lemma {:induction false} Test(acts: seq<Action>, tid: ThreadId) returns (more: seq<Action>)
    requires Legal(acts) && AtTest(After(acts), tid)
    ensures Continues(acts, more)
    ensures var s, s' := After(acts), After(acts + more);
      s'.hold == Unlocked && s'.status == s.status && s'.waiting == s.waiting
  {
    var step: Action := Action.Inside(0, true);
    Tested(After(acts), tid);
    LegalSnoc(acts, step);
    LegalSnoc(acts + [step], step);
    more := [step, step];
    assert acts + [step] + [step] == acts + more;
  }

  lemma NoTaskInside(s: State)
    requires s.hold == Unlocked && (forall w: nat :: !Polls(s, w)) && forall w: nat :: !FirstWait(s, Worker(w))
    ensures OutsideWaits(s)
  {
    forall w: nat ensures Worker(w) in s.waiting ==> !s.waiting[Worker(w)].WaitExit? {
      assert !Polls(s, w) && !FirstWait(s, Worker(w));
    }
    assert forall tid: ThreadId :: tid.Worker? ==> tid == Worker(tid.index);
  }

  lemma {:induction false} RefuseAll(acts: seq<Action>) returns (more: seq<Action>)
    requires Legal(acts) && WillRefuse(After(acts))
    ensures Continues(acts, more) && OutsideWaits(After(acts + more))
    decreases |After(acts).waiting|
  {
    var s := After(acts);
    if w: nat :| FirstWait(s, Worker(w)) {
      var first := Refuse(acts, w);
      assert |s.waiting - {Worker(w)}| == |s.waiting| - 1;
      var rest := RefuseAll(acts + first);
      more := first + rest;
      ContinuesOn(acts, first, rest);
    } else {
      more := [];
      assert acts + more == acts;
      NoTaskInside(s);
    }
  }

  // An outside caller's first wait goes first and makes the pool exited.
  lemma {:induction false} OutsiderFirst(acts: seq<Action>, id: nat) returns (more: seq<Action>)
    requires Legal(acts) && After(acts).hold == Unlocked && After(acts).status == ShuttingDown
    requires FirstWait(After(acts), Client(id)) && forall w: nat :: !Polls(After(acts), w)
    ensures Continues(acts, more) && WillRefuse(After(acts + more))
  {
    var s, a := After(acts), Enter(Client(id));
    LegalSnoc(acts, a);
    var rest := Unlock(acts + [a]);
    more := [a] + rest;
    ContinuesOn(acts, [a], rest);
    var s1, s2 := Step(s, a), After(acts + more);
    assert Outcome(s1) == PoolExited;
    forall w: nat ensures !Polls(s2, w) {
      assert !Polls(s, w);
      if Worker(w) in s2.waiting && Worker(w) in s1.waiting { assert s1.waiting[Worker(w)] == s.waiting[Worker(w)]; }
    }
  }

  lemma NonePolls(s: State, s': State)
    requires !Doomed(s) && Onwards(s, s') && s'.hold == Unlocked
    ensures forall w: nat :: !Polls(s', w)
  {
    forall w: nat ensures !Polls(s', w) {
      assert !Polls(s, w);
    }
  }

  lemma {:induction false} NotDoomedRests(acts: seq<Action>) returns (more: seq<Action>)
    requires Legal(acts) && !Doomed(After(acts))
    ensures Continues(acts, more) && Quiescent(After(acts + more))
  {
    var s := After(acts);
    var first := Unlock(acts);
    var s1 := After(acts + first);
    NonePolls(s, s1);
    var second: seq<Action>;
    if s1.status != ShuttingDown {
      second := RefuseAll(acts + first);
    } else if OutsiderWaits(s1) {
      var id: nat :| FirstWait(s1, Client(id));
      var enter := OutsiderFirst(acts + first, id);
      var refuse := RefuseAll(acts + first + enter);
      second := enter + refuse;
      ContinuesOn(acts + first, enter, refuse);
    } else {
      second := [];
      assert acts + first + second == acts + first;
      NoTaskWaits(s, s1);
    }
    var third := ComesToRest(acts + first + second);
    ContinuesOn(acts, first, second);
    more := first + second + third;
    ContinuesOn(acts, first + second, third);
  }

  lemma NoTaskWaits(s: State, s': State)
    requires !Doomed(s) && Onwards(s, s') && s'.hold == Unlocked && s'.status == ShuttingDown && !OutsiderWaits(s')
    requires forall w: nat :: !Polls(s', w)
    ensures OutsideWaits(s')
  {
    if id: nat :| FirstWait(s, Client(id)) { assert FirstWait(s', Client(id)); }
    forall w: nat ensures !FirstWait(s', Worker(w)) {
      assert FirstWait(s', Worker(w)) ==> FirstWait(s, Worker(w));
    }
    NoTaskInside(s');
  }

  /** From any reachable state the pool can come to rest without new calls exactly when it is not doomed. */
  lemma {:induction false} RestIff(acts: seq<Action>)
    requires Legal(acts)
    ensures (exists more :: Continues(acts, more) && Quiescent(After(acts + more))) <==> !Doomed(After(acts))
  {
    if Doomed(After(acts)) {
      forall more | Continues(acts, more) ensures !Quiescent(After(acts + more)) {
        StaysDoomed(acts, more);
        if Quiescent(After(acts + more)) { RestNotDoomed(After(acts + more)); }
      }
    } else {
      var more := NotDoomedRests(acts);
    }
  }
}
