/** What each call of the worker pool returns, and what it does to the pool, in every run. */
module WorkerPoolCodes {
  import opened RerunnableThread
  import opened WorkerPool
  import opened WorkerPoolInvariant

  // The lists, the installed tasks and the number of threads.
  predicate SameLists(s: State, s': State) {
    s'.free == s.free && s'.busy == s.busy && s'.home == s.home && |s'.workers| == |s.workers|
  }

  // Action k of the run gets pool_lock for a call (each prefix of a legal run is one).
  predicate GetsLock(acts: seq<Action>, k: nat, req: Request)
  {
    k < |acts| && acts[k].Enter? && Legal(acts[..k]) && var s := After(acts[..k]);
      acts[k].tid in s.waiting && s.waiting[acts[k].tid] == req
  }

  // ----- wp_submit_task

  // The submit that got the lock in s has thread w in hand: a free one, or a new one when none was free.
  predicate Took(s: State, s': State, w: nat) {
    if s.free != {} then w in s.free && s'.free == s.free - {w} && |s'.workers| == |s.workers|
    else w == |s.workers| && s'.free == {} && |s'.workers| == |s.workers| + 1
  }

  // Where the submit that got the lock in s stands in s'.
  predicate SubmitStands(s: State, s': State, c: Frame) {
    s'.status == s.status &&
    if c.at.SubmitCheck? then SameLists(s, s')
    else if c.at.SubmitReturn? then SubmitReturns(s, s', c)
    else if c.at.SubmitPick? then s.status == Available && SameLists(s, s')
    else
      && s.status == Available && InSubmit(c.at) && Took(s, s', c.w)
      && s'.busy == (if c.at.SubmitQueue? then s.busy else s.busy + {c.w})
      && s'.home ==
         (if c.at.SubmitQueue? || c.at.RerunLock? || c.at.RerunTest? then s.home else s.home[c.ticket := c.w])
  }

  // It is about to return: a pool under shutdown refuses it; an available one gives the task to a free
  // thread, or to a new one when none is free; it refuses only then, when no thread can be made.
  predicate SubmitReturns(s: State, s': State, c: Frame) {
    && s'.status == s.status
    && (s.status != Available ==> c.code == UnderShutdown && SameLists(s, s'))
    && (s.status == Available && s.free != {} ==> c.code == Success)
    && (s.status == Available ==> c.code == Success || c.code == CannotSpawn)
    && (c.code == CannotSpawn ==> SameLists(s, s'))
    && (c.code == Success ==>
          Took(s, s', c.w) && s'.busy == s.busy + {c.w} && s'.home == s.home[c.ticket := c.w])
  }

  // The call that got the lock in s has it still, or has returned.
  predicate SubmitSince(s: State, s': State) {
    && s'.issued > s.issued
    && (s'.hold.ByClient? && s'.hold.call.ticket == s.issued ==> SubmitStands(s, s', s'.hold.call))
  }

  // While a call has the lock, the steps of others leave it, the lists and the pool's status alone.
  lemma OthersKeep(s: State, a: Action)
    requires Enabled(s, a) && s.hold.ByClient? && !a.Inside?
    ensures Step(s, a).hold == s.hold && SameLists(s, Step(s, a)) && Step(s, a).status == s.status
    ensures Step(s, a).issued == s.issued
  {
  }

  // A ticket is never handed out again.
  lemma TicketsRise(s: State, a: Action, n: nat)
    requires Enabled(s, a) && n < s.issued && !(s.hold.ByClient? && s.hold.call.ticket == n)
    ensures Step(s, a).issued > n && !(Step(s, a).hold.ByClient? && Step(s, a).hold.call.ticket == n)
  {
    if a.Inside? { SameTicket(s, a.pick, a.spawn); }
  }

  lemma SameTicket(s: State, pick: nat, spawn: bool)
    requires Enabled(s, Action.Inside(pick, spawn))
    ensures var s' := Advance(s, s.hold.tid, s.hold.call, pick, spawn);
      s'.issued == s.issued && (s'.hold.ByClient? ==> s'.hold.call.ticket == s.hold.call.ticket)
  {
    var c := s.hold.call;
    if Submitting(c.at) {
      SubmitSameTicket(s, pick, spawn);
    } else if Rerunning(c.at) {
    } else if ShuttingAll(c.at) {
    } else if Requesting(c.at) {
    } else {
      WaitSameTicket(s, pick);
    }
  }

  lemma SubmitSameTicket(s: State, pick: nat, spawn: bool)
    requires Enabled(s, Action.Inside(pick, spawn)) && Submitting(s.hold.call.at)
    ensures var s' := AdvanceSubmit(s, s.hold.tid, s.hold.call, pick, spawn);
      s'.issued == s.issued && (s'.hold.ByClient? ==> s'.hold.call.ticket == s.hold.call.ticket)
  {
  }

  lemma WaitSameTicket(s: State, pick: nat)
    requires s.hold.ByClient? && InBounds(s, s.hold.call) && CanAdvance(s, s.hold.call, pick) && InWait(s.hold.call.at)
    ensures var s' := AdvanceWait(s, s.hold.tid, s.hold.call, pick);
      s'.issued == s.issued && (s'.hold.ByClient? ==> s'.hold.call.ticket == s.hold.call.ticket)
  {
  }

  lemma SubmittingStands(s: State, s': State, pick: nat, spawn: bool)
    requires Enabled(s', Action.Inside(pick, spawn)) && SubmitStands(s, s', s'.hold.call)
    requires Submitting(s'.hold.call.at) && !s'.hold.call.at.SubmitReturn?
    ensures var s1 := AdvanceSubmit(s', s'.hold.tid, s'.hold.call, pick, spawn);
      s1.hold.ByClient? && SubmitStands(s, s1, s1.hold.call)
  {
  }

  lemma RerunningStands(s: State, s': State)
    requires Inv(s') && s'.hold.ByClient? && Rerunning(s'.hold.call.at) && SubmitStands(s, s', s'.hold.call)
    ensures var s1 := AdvanceRerun(s', s'.hold.tid, s'.hold.call);
      s1.hold.ByClient? && SubmitStands(s, s1, s1.hold.call)
  {
    assert WorkerOk(s', s'.hold.call.w);
  }

  lemma SubmitGoesOn(s: State, s': State, a: Action)
    requires Inv(s') && SubmitSince(s, s') && Enabled(s', a)
    ensures SubmitSince(s, Step(s', a))
  {
    if !(s'.hold.ByClient? && s'.hold.call.ticket == s.issued) {
      TicketsRise(s', a, s.issued);
    } else if !a.Inside? {
      OthersKeep(s', a);
    } else {
      SameTicket(s', a.pick, a.spawn);
      if Rerunning(s'.hold.call.at) {
        RerunningStands(s, s');
      } else if !s'.hold.call.at.SubmitReturn? {
        SubmittingStands(s, s', a.pick, a.spawn);
      }
    }
  }

  lemma SubmitBegins(s: State, a: Action)
    requires Enabled(s, a) && a.Enter? && s.waiting[a.tid] == Submit
    ensures SubmitSince(s, Step(s, a))
  {
  }

  lemma {:induction false} SubmitSoFar(acts: seq<Action>, k: nat)
    requires Legal(acts) && GetsLock(acts, k, Submit)
    ensures SubmitSince(After(acts[..k]), After(acts))
    decreases |acts|
  {
    var acts' := acts[..|acts| - 1];
    if k == |acts'| {
      SubmitBegins(After(acts'), acts[k]);
    } else {
      assert acts'[..k] == acts[..k];
      SubmitSoFar(acts', k);
      RunKeeps(acts');
      SubmitGoesOn(After(acts[..k]), After(acts'), acts[|acts| - 1]);
    }
  }

  /** What a submit does that got the lock with action k and is about to return, in every run: see SubmitReturns. */
  lemma {:induction false} SubmitOutcome(acts: seq<Action>, k: nat)
    requires Legal(acts) && GetsLock(acts, k, Submit)
    requires After(acts).hold.ByClient? && After(acts).hold.call.ticket == After(acts[..k]).issued
    requires After(acts).hold.call.at.SubmitReturn?
    ensures SubmitReturns(After(acts[..k]), After(acts), After(acts).hold.call)
  {
    SubmitSoFar(acts, k);
  }

  // Whether a new thread could be made for the call that got the lock with action k.
  predicate SpawnsAll(acts: seq<Action>, k: nat, spawn: bool) {
    forall i :: k < i < |acts| && acts[i].Inside? ==> acts[i].spawn == spawn
  }

  /** With no free thread, an available pool takes the task when a thread can be made and refuses it when none can. */
  lemma {:induction false} SpawnDecides(acts: seq<Action>, k: nat, spawn: bool)
    requires Legal(acts) && GetsLock(acts, k, Submit) && SpawnsAll(acts, k, spawn)
    requires After(acts[..k]).status == Available && After(acts[..k]).free == {}
    requires After(acts).hold.ByClient? && After(acts).hold.call.ticket == After(acts[..k]).issued
    requires After(acts).hold.call.at.SubmitReturn?
    ensures After(acts).hold.call.code == if spawn then Success else CannotSpawn
  {
    SubmitOutcome(acts, k);
    SpawnGoesOn(acts, k, spawn);
  }

  lemma {:induction false} SpawnGoesOn(acts: seq<Action>, k: nat, spawn: bool)
    requires Legal(acts) && GetsLock(acts, k, Submit) && SpawnsAll(acts, k, spawn)
    requires After(acts[..k]).status == Available && After(acts[..k]).free == {}
    ensures SpawnSince(After(acts[..k]), After(acts), spawn)
    decreases |acts|
  {
    var acts' := acts[..|acts| - 1];
    if k < |acts'| {
      assert acts'[..k] == acts[..k];
      assert SpawnsAll(acts', k, spawn);
      SpawnGoesOn(acts', k, spawn);
      SubmitSoFar(acts', k);
      SpawnStep(After(acts[..k]), After(acts'), acts[|acts| - 1], spawn);
    }
  }

  predicate SpawnSince(s: State, s': State, spawn: bool) {
    s'.hold.ByClient? && s'.hold.call.ticket == s.issued ==> SpawnStands(s'.hold.call, spawn)
  }

  predicate SpawnStands(c: Frame, spawn: bool) {
    if spawn then !(c.at.SubmitReturn? && c.code == CannotSpawn)
    else c.at.SubmitCheck? || c.at.SubmitPick? || (c.at.SubmitReturn? && c.code == CannotSpawn)
  }

  lemma SpawnStep(s: State, s': State, a: Action, spawn: bool)
    requires SubmitSince(s, s') && Enabled(s', a) && s.status == Available && s.free == {}
    requires (a.Inside? ==> a.spawn == spawn) && SpawnSince(s, s', spawn)
    ensures SpawnSince(s, Step(s', a), spawn)
  {
    if !(s'.hold.ByClient? && s'.hold.call.ticket == s.issued) {
      TicketsRise(s', a, s.issued);
    } else if !a.Inside? {
      OthersKeep(s', a);
    }
  }

  // ----- what was accepted

  // The submit of task n, which it has installed, is about to return 0.
  predicate Returning(s: State, n: nat) {
    && s.hold.ByClient? && InSubmit(s.hold.call.at) && s.hold.call.ticket == n
    && (s.hold.call.at.SubmitReturn? ==> s.hold.call.code == Success)
  }

  // The history is only written by submits.
  lemma OthersAccept(s: State, a: Action)
    requires Enabled(s, a) && (a.Inside? ==> !InSubmit(s.hold.call.at))
    ensures Step(s, a).home == s.home && Step(s, a).accepted == s.accepted
  {
    if a.Inside? {
      if ShuttingAll(s.hold.call.at) {
      } else if Requesting(s.hold.call.at) {
      } else {
        WaitAccepts(s, a.pick);
      }
    }
  }

  lemma WaitAccepts(s: State, pick: nat)
    requires s.hold.ByClient? && InBounds(s, s.hold.call) && CanAdvance(s, s.hold.call, pick) && InWait(s.hold.call.at)
    ensures var s' := AdvanceWait(s, s.hold.tid, s.hold.call, pick); s'.home == s.home && s'.accepted == s.accepted
  {
  }

  lemma SubmitAccepts(s: State, a: Action, n: nat)
    requires Enabled(s, a) && a.Inside? && Submitting(s.hold.call.at) && SubmitOk(s)
    requires n in s.home ==> n in s.accepted || Returning(s, n)
    ensures n in Step(s, a).home ==> n in Step(s, a).accepted || Returning(Step(s, a), n)
  {
  }

  lemma RerunAccepts(s: State, a: Action, n: nat)
    requires Inv(s) && Enabled(s, a) && a.Inside? && Rerunning(s.hold.call.at)
    requires n in s.home ==> n in s.accepted || Returning(s, n)
    ensures n in Step(s, a).home ==> n in Step(s, a).accepted || Returning(Step(s, a), n)
  {
    assert WorkerOk(s, s.hold.call.w);
  }

  /** Every task that was given to a thread is one whose submit returned 0, or is about to. */
  lemma {:induction false} InstalledIsAccepted(acts: seq<Action>, n: nat)
    requires Legal(acts) && n in After(acts).home
    ensures n in After(acts).accepted || Returning(After(acts), n)
    decreases |acts|
  {
    var acts', a := acts[..|acts| - 1], acts[|acts| - 1];
    var s := After(acts');
    RunKeeps(acts');
    if n in s.home { InstalledIsAccepted(acts', n); }
    if a.Inside? && Submitting(s.hold.call.at) {
      SubmitAccepts(s, a, n);
    } else if a.Inside? && Rerunning(s.hold.call.at) {
      RerunAccepts(s, a, n);
    } else {
      OthersAccept(s, a);
      if s.hold.ByClient? && !a.Inside? { OthersKeep(s, a); }
    }
  }

  // ----- wp_shutdown

  // Where the shutdown that got the lock in s stands in s'.
  predicate ShutdownStands(s: State, s': State, c: Frame) {
    SameLists(s, s') &&
    if c.at.ShutdownCheck? then s'.status == s.status
    else if c.at.ShutdownReturn? then ShutdownReturns(s, s', c)
    else (c.at.ShutdownNext? || Requesting(c.at)) && s.status == Available && s'.status == ShuttingDown
  }

  // It is about to return: an available pool is under shutdown now, any other is left as it was.
  predicate ShutdownReturns(s: State, s': State, c: Frame) {
    SameLists(s, s') &&
    if s.status == Available then c.code == Success && s'.status == ShuttingDown
    else c.code == IllegalRequest && s'.status == s.status
  }

  predicate ShutdownSince(s: State, s': State) {
    && s'.issued > s.issued
    && (s'.hold.ByClient? && s'.hold.call.ticket == s.issued ==> ShutdownStands(s, s', s'.hold.call))
  }

  lemma ShutdownWalks(s: State, s': State, pick: nat)
    requires s'.hold.ByClient? && InBounds(s', s'.hold.call) && CanAdvance(s', s'.hold.call, pick)
    requires ShuttingAll(s'.hold.call.at) && !s'.hold.call.at.ShutdownReturn? && ShutdownStands(s, s', s'.hold.call)
    ensures var s1 := AdvanceShutdown(s', s'.hold.tid, s'.hold.call, pick);
      s1.hold.ByClient? && ShutdownStands(s, s1, s1.hold.call)
  {
  }

  lemma ShutdownRequests(s: State, s': State)
    requires Inv(s') && s'.hold.ByClient? && Requesting(s'.hold.call.at) && ShutdownStands(s, s', s'.hold.call)
    ensures var s1 := AdvanceRequest(s', s'.hold.tid, s'.hold.call);
      s1.hold.ByClient? && ShutdownStands(s, s1, s1.hold.call)
  {
    assert WorkerOk(s', s'.hold.call.w);
  }

  lemma ShutdownGoesOn(s: State, s': State, a: Action)
    requires Inv(s') && ShutdownSince(s, s') && Enabled(s', a)
    ensures ShutdownSince(s, Step(s', a))
  {
    if !(s'.hold.ByClient? && s'.hold.call.ticket == s.issued) {
      TicketsRise(s', a, s.issued);
    } else if !a.Inside? {
      OthersKeep(s', a);
    } else {
      SameTicket(s', a.pick, a.spawn);
      if Requesting(s'.hold.call.at) {
        ShutdownRequests(s, s');
      } else if !s'.hold.call.at.ShutdownReturn? {
        ShutdownWalks(s, s', a.pick);
      }
    }
  }

  lemma ShutdownBegins(s: State, a: Action)
    requires Enabled(s, a) && a.Enter? && s.waiting[a.tid] == Shutdown
    ensures ShutdownSince(s, Step(s, a))
  {
  }

  lemma {:induction false} ShutdownSoFar(acts: seq<Action>, k: nat)
    requires Legal(acts) && GetsLock(acts, k, Shutdown)
    ensures ShutdownSince(After(acts[..k]), After(acts))
    decreases |acts|
  {
    var acts' := acts[..|acts| - 1];
    if k == |acts'| {
      ShutdownBegins(After(acts'), acts[k]);
    } else {
      assert acts'[..k] == acts[..k];
      ShutdownSoFar(acts', k);
      RunKeeps(acts');
      ShutdownGoesOn(After(acts[..k]), After(acts'), acts[|acts| - 1]);
    }
  }

  /** A shutdown succeeds exactly on an available pool; then every thread has been asked to exit, and the lists are as
      they were. */
  lemma {:induction false} ShutdownOutcome(acts: seq<Action>, k: nat)
    requires Legal(acts) && GetsLock(acts, k, Shutdown)
    requires After(acts).hold.ByClient? && After(acts).hold.call.ticket == After(acts[..k]).issued
    requires After(acts).hold.call.at.ShutdownReturn?
    ensures ShutdownReturns(After(acts[..k]), After(acts), After(acts).hold.call)
    ensures After(acts).hold.call.code == Success ==> forall w :: 0 <= w < |After(acts).workers| ==>
      After(acts).workers[w].thread.status == ShutdownRequested || After(acts).workers[w].thread.status == Exited
  {
    var s' := After(acts);
    ShutdownSoFar(acts, k);
    RunKeeps(acts);
    forall w | s'.hold.call.code == Success && 0 <= w < |s'.workers|
      ensures s'.workers[w].thread.status == ShutdownRequested || s'.workers[w].thread.status == Exited
    {
      assert WorkerOk(s', w);
    }
  }

  // ----- wp_wait_exit

  predicate HasExited(s: State, w: nat) {
    w < |s.workers| && s.workers[w].thread.status == Exited
  }

  // Where the wait that got the lock in s, for the first time or to look again, stands in s'.
  ghost predicate WaitStands(s: State, s': State, c: Frame, polling: bool) {
    && SameLists(s, s') && (forall w: nat :: HasExited(s, w) ==> HasExited(s', w))
    && if c.at.WaitCheck? then !polling && s'.status == s.status
       else if c.at.WaitReturn? && c.code != Success then WaitRefuses(s, s', c, polling)
       else
         && (c.at.WaitNext? || c.at.WaitLock? || c.at.WaitRead? || c.at.WaitRetry? || c.at.WaitReturn?)
         && (polling || s.status == ShuttingDown) && s'.status == PoolExited
         && (c.at.WaitRetry? ==> c.w < |s.workers| && !HasExited(s, c.w))
  }

  // Only a pool under shutdown, and not yet waited for, can be waited for.
  predicate WaitRefuses(s: State, s': State, c: Frame, polling: bool) {
    c.code == NotShuttingDown && !polling && s.status != ShuttingDown && s'.status == s.status
  }

  ghost predicate WaitSince(s: State, s': State, polling: bool) {
    && s'.issued > s.issued
    && (s'.hold.ByClient? && s'.hold.call.ticket == s.issued ==> WaitStands(s, s', s'.hold.call, polling))
  }

  // A thread that has exited takes no more steps.
  lemma ExitedStays(s: State, a: Action, w: nat)
    requires Enabled(s, a) && !a.Inside? && HasExited(s, w)
    requires s.workers[w].thread.pc == Gone && !(s.hold.ByWorker? && s.hold.w == w)
    ensures HasExited(Step(s, a), w)
  {
  }

  lemma ExitedIsGone(s: State, w: nat)
    requires Inv(s) && HasExited(s, w)
    ensures s.workers[w].thread.pc == Gone && !(s.hold.ByWorker? && s.hold.w == w)
  {
    assert WorkerOk(s, w);
  }

  lemma WaitReads(s: State, s': State, pick: nat, polling: bool)
    requires s'.hold.ByClient? && InBounds(s', s'.hold.call) && CanAdvance(s', s'.hold.call, pick)
    requires (s'.hold.call.at.WaitLock? || s'.hold.call.at.WaitRead?) && WaitStands(s, s', s'.hold.call, polling)
    ensures var s1 := AdvanceWait(s', s'.hold.tid, s'.hold.call, pick);
      s1.hold.ByClient? && WaitStands(s, s1, s1.hold.call, polling)
  {
    var s1 := AdvanceWait(s', s'.hold.tid, s'.hold.call, pick);
    assert forall w: nat :: HasExited(s', w) ==> HasExited(s1, w);
  }

  lemma WaitWalks(s: State, s': State, pick: nat, polling: bool)
    requires s'.hold.ByClient? && InBounds(s', s'.hold.call) && CanAdvance(s', s'.hold.call, pick)
    requires (s'.hold.call.at.WaitCheck? || s'.hold.call.at.WaitNext?) && WaitStands(s, s', s'.hold.call, polling)
    ensures var s1 := AdvanceWait(s', s'.hold.tid, s'.hold.call, pick);
      s1.hold.ByClient? && WaitStands(s, s1, s1.hold.call, polling)
  {
  }

  lemma WaitOthers(s: State, s': State, a: Action, polling: bool)
    requires Inv(s') && Enabled(s', a) && s'.hold.ByClient? && !a.Inside? && WaitStands(s, s', s'.hold.call, polling)
    ensures Step(s', a).hold == s'.hold && WaitStands(s, Step(s', a), s'.hold.call, polling)
  {
    OthersKeep(s', a);
    forall w: nat | HasExited(s, w) ensures HasExited(Step(s', a), w) {
      ExitedIsGone(s', w);
      ExitedStays(s', a, w);
    }
  }

  lemma WaitInside(s: State, s': State, a: Action, polling: bool)
    requires WaitSince(s, s', polling) && Enabled(s', a) && a.Inside? && s'.hold.call.ticket == s.issued
    ensures WaitSince(s, Step(s', a), polling)
  {
    assert InWait(s'.hold.call.at);
    assert Step(s', a) == AdvanceWait(s', s'.hold.tid, s'.hold.call, a.pick);
    WaitSameTicket(s', a.pick);
    if s'.hold.call.at.WaitLock? || s'.hold.call.at.WaitRead? {
      WaitReads(s, s', a.pick, polling);
    } else if s'.hold.call.at.WaitCheck? || s'.hold.call.at.WaitNext? {
      WaitWalks(s, s', a.pick, polling);
    }
  }

  lemma WaitGoesOn(s: State, s': State, a: Action, polling: bool)
    requires Inv(s') && WaitSince(s, s', polling) && Enabled(s', a)
    ensures WaitSince(s, Step(s', a), polling)
  {
    if !(s'.hold.ByClient? && s'.hold.call.ticket == s.issued) {
      TicketsRise(s', a, s.issued);
    } else if !a.Inside? {
      WaitOthers(s, s', a, polling);
      OthersKeep(s', a);
    } else {
      WaitInside(s, s', a, polling);
    }
  }

  lemma WaitBegins(s: State, a: Action, polling: bool)
    requires PoolOk(s) && Enabled(s, a) && a.Enter? && s.waiting[a.tid] == WaitExit(polling)
    ensures WaitSince(s, Step(s, a), polling)
  {
  }

  lemma {:induction false} WaitSoFar(acts: seq<Action>, k: nat, polling: bool)
    requires Legal(acts) && GetsLock(acts, k, WaitExit(polling))
    ensures WaitSince(After(acts[..k]), After(acts), polling)
    decreases |acts|
  {
    var acts' := acts[..|acts| - 1];
    RunKeeps(acts');
    if k == |acts'| {
      WaitBegins(After(acts'), acts[k], polling);
    } else {
      assert acts'[..k] == acts[..k];
      WaitSoFar(acts', k, polling);
      WaitGoesOn(After(acts[..k]), After(acts'), acts[|acts| - 1], polling);
    }
  }

  /** A wait is refused exactly when the pool was not under shutdown; it succeeds only when every thread has exited, and
      looks again only when some thread had not. */
  lemma {:induction false} WaitOutcome(acts: seq<Action>, k: nat, polling: bool)
    requires Legal(acts) && GetsLock(acts, k, WaitExit(polling))
    requires After(acts).hold.ByClient? && After(acts).hold.call.ticket == After(acts[..k]).issued
    requires After(acts).hold.call.at.WaitReturn? || After(acts).hold.call.at.WaitRetry?
    ensures var s, s', c := After(acts[..k]), After(acts), After(acts).hold.call;
      && (if !polling && s.status != ShuttingDown
          then c.at.WaitReturn? && c.code == NotShuttingDown && s'.status == s.status
          else (c.at.WaitReturn? ==> c.code == Success) && s'.status == PoolExited)
      && (c.at.WaitReturn? && c.code == Success ==> forall w :: 0 <= w < |s'.workers| ==> HasExited(s', w))
      && (c.at.WaitRetry? ==> exists w :: 0 <= w < |s.workers| && !HasExited(s, w))
  {
    var s', c := After(acts), After(acts).hold.call;
    WaitSoFar(acts, k, polling);
    RunKeeps(acts);
    forall w | c.at.WaitReturn? && c.code == Success && 0 <= w < |s'.workers| ensures HasExited(s', w) {
      assert WorkerOk(s', w);
    }
  }

  // ----- in every reachable state

  ghost predicate CodeOk(s: State) {
    s.hold.ByClient? && s.hold.call.at.SubmitReturn? ==>
      var c := s.hold.call;
      && (c.code == UnderShutdown <==> s.status != Available)
      && (c.code == CannotSpawn ==> s.free == {})
      && (c.code == Success <==> c.ticket in s.home)
      && (c.code == Success || c.code == UnderShutdown || c.code == CannotSpawn)
  }

  lemma SubmitKeepsCode(s: State, a: Action)
    requires CallOk(s) && CodeOk(s) && Enabled(s, a) && a.Inside? && Submitting(s.hold.call.at)
    ensures CodeOk(Step(s, a))
  {
  }

  lemma RerunKeepsCode(s: State, a: Action)
    requires Inv(s) && CodeOk(s) && Enabled(s, a) && a.Inside? && Rerunning(s.hold.call.at)
    ensures CodeOk(Step(s, a))
  {
    assert WorkerOk(s, s.hold.call.w);
  }

  lemma OthersKeepCode(s: State, a: Action)
    requires CodeOk(s) && Enabled(s, a) && a.Inside? && !InSubmit(s.hold.call.at)
    ensures CodeOk(Step(s, a))
  {
    if ShuttingAll(s.hold.call.at) {
    } else if Requesting(s.hold.call.at) {
    } else {
    }
  }

  /** A submit that is about to return refuses for shutdown exactly when the pool is not available, and for want of a
      thread only when no thread is free; it returns 0 exactly when its task was given to a thread. */
  lemma {:induction false} SubmitCodes(acts: seq<Action>)
    requires Legal(acts)
    ensures CodeOk(After(acts))
    decreases |acts|
  {
    if acts != [] {
      var acts', a := acts[..|acts| - 1], acts[|acts| - 1];
      var s := After(acts');
      SubmitCodes(acts');
      RunKeeps(acts');
      if !a.Inside? {
        if s.hold.ByClient? { OthersKeep(s, a); }
      } else if Submitting(s.hold.call.at) {
        SubmitKeepsCode(s, a);
      } else if Rerunning(s.hold.call.at) {
        RerunKeepsCode(s, a);
      } else {
        OthersKeepCode(s, a);
      }
    }
  }
}
