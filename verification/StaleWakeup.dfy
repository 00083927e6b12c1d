/** A re-runnable thread on its own.  rrt_try_rerun_if_free sets the status under rt_lock, releases it,
    and only then takes the condition's mutex to broadcast; nothing stops the executor from finishing
    the task and parking again in between.  The late broadcast then wakes it with nothing to run. */
module StaleWakeup {
  import opened RerunnableThread

  // Where the one outside caller stands in rrt_try_rerun_if_free.
  datatype Caller = Away | Installing | Signalling

  // `guarded`: on_release_callback waits for a lock that the caller holds for the whole call, as the
  // worker pool's callback does.  Otherwise there is no callback, or one that returns without waiting.
  datatype Bare = Bare(guarded: bool, t: Thread, caller: Caller)

  datatype Move = Exec | CallTask | EndTask | Release | Rerun | TakeCondLock | Broadcast

  predicate CanMove(b: Bare, m: Move) {
    match m
    case Exec => ExecutorCanStep(b.t)
    case CallTask => b.t.pc == Call(Given)
    case EndTask => b.t.pc == Running
    case Release => b.t.pc == Callback && (b.guarded ==> b.caller == Away)
    case Rerun => b.caller == Away && b.t.rtLock == Free
    case TakeCondLock => b.caller == Installing && b.t.condLock == Free
    case Broadcast => b.caller == Signalling
  }

  function Moved(b: Bare, m: Move): Bare
    requires CanMove(b, m)
  {
    match m
    case Exec => b.(t := ExecutorStep(b.t))
    case CallTask => b.(t := b.t.(pc := Running))
    case EndTask => b.(t := b.t.(pc := Clear))
    case Release => b.(t := b.t.(pc := TakeCond))
    case Rerun => if b.t.status == Idle then b.(t := Installed(b.t), caller := Installing) else b
    case TakeCondLock => b.(t := b.t.(condLock := ByCaller), caller := Signalling)
    case Broadcast => b.(t := Signalled(b.t).(condLock := Free), caller := Away)
  }

  // The moves are taken one after the other from b.
  predicate CanRun(b: Bare, moves: seq<Move>)
    decreases |moves|
  {
    moves == [] || (CanMove(b, moves[0]) && CanRun(Moved(b, moves[0]), moves[1..]))
  }

  function Ran(b: Bare, moves: seq<Move>): Bare
    requires CanRun(b, moves)
    decreases |moves|
  {
    if moves == [] then b else Ran(Moved(b, moves[0]), moves[1..])
  }

  function Started(guarded: bool): Bare {
    Bare(guarded, STARTED, Away)
  }

  // Some run leads the executor to call a null function.
  ghost predicate CallsNull(guarded: bool) {
    exists moves :: CanRun(Started(guarded), moves) && Ran(Started(guarded), moves).t.pc == Call(NoFunction)
  }

  predicate BareOk(b: Bare) {
    && b.guarded
    && LocksMatch(b.t)
    && (b.t.status == Idle || b.t.status == Busy) && !Leaving(b.t.pc)
    && (Waiting(b.t.pc) || b.t.pc == Callback ==> b.t.run == if b.t.status == Idle then NoFunction else Given)
    && (Committed(b.t.pc) || Working(b.t.pc) ==> b.t.status == Busy)
    && (b.t.pc.Call? ==> b.t.pc.fn == Given)
    && (b.t.pc.DecideLock? || b.t.pc.Decide? ==> b.t.run == NoFunction)
    && (b.t.condLock == ByCaller <==> b.caller == Signalling) && b.t.rtLock != ByCaller
    && (b.t.pc.Sleep? || b.t.pc.Parked? ==> b.t.status == Idle || b.caller != Away)
    && (b.caller != Away && b.t.status == Idle ==> b.t.pc == Callback)
  }

  lemma MoveKeeps(b: Bare, m: Move)
    requires BareOk(b) && CanMove(b, m)
    ensures BareOk(Moved(b, m))
  {
  }

  lemma {:induction false} RunKeeps(b: Bare, moves: seq<Move>)
    requires BareOk(b) && CanRun(b, moves)
    ensures BareOk(Ran(b, moves))
    decreases |moves|
  {
    if moves != [] {
      MoveKeeps(b, moves[0]);
      RunKeeps(Moved(b, moves[0]), moves[1..]);
    }
  }

  // The states a late broadcast passes through.
  const FETCHED := Bare(false, Thread(Busy, Given, Free, Free, Call(Given)), Installing)
  const ENDED := Bare(false, Thread(Idle, NoFunction, Free, Free, Callback), Installing)
  const PARKED_AGAIN := Bare(false, Thread(Idle, NoFunction, Free, ByCaller, Parked), Signalling)

  const FETCH := [Rerun, Exec, Exec, Exec, Exec, Exec, Exec]
  const WORK := [CallTask, EndTask, Exec, Exec, Exec]
  const PARK := [Release, Exec, Exec, Exec, Exec, TakeCondLock]
  const WAKE := [Broadcast, Exec, Exec, Exec, Exec]

  lemma FetchRuns() ensures CanRun(Started(false), FETCH) && Ran(Started(false), FETCH) == FETCHED {
    assert FETCH[1..][1..][1..] == [Exec, Exec, Exec, Exec];
  }

  lemma WorkRuns() ensures CanRun(FETCHED, WORK) && Ran(FETCHED, WORK) == ENDED {}

  lemma ParkRuns() ensures CanRun(ENDED, PARK) && Ran(ENDED, PARK) == PARKED_AGAIN {}

  lemma WakeRuns() ensures CanRun(PARKED_AGAIN, WAKE) && Ran(PARKED_AGAIN, WAKE).t.pc == Call(NoFunction) {}

  // One whole task while the caller is still on its way to the broadcast, then the broadcast.
  lemma LateBroadcast() returns (moves: seq<Move>)
    ensures CanRun(Started(false), moves) && Ran(Started(false), moves).t.pc == Call(NoFunction)
  {
    moves := FETCH + (WORK + (PARK + WAKE));
    FetchRuns();
    WorkRuns();
    ParkRuns();
    WakeRuns();
    Joined(ENDED, PARK, WAKE);
    Joined(FETCHED, WORK, PARK + WAKE);
    Joined(Started(false), FETCH, WORK + (PARK + WAKE));
  }

  lemma {:induction false} Joined(b: Bare, first: seq<Move>, then': seq<Move>)
    requires CanRun(b, first) && CanRun(Ran(b, first), then')
    ensures CanRun(b, first + then') && Ran(b, first + then') == Ran(Ran(b, first), then')
    decreases |first|
  {
    if first == [] {
      assert first + then' == then';
    } else {
      assert (first + then')[1..] == first[1..] + then';
      Joined(Moved(b, first[0]), first[1..], then');
    }
  }

  /** A thread used on its own can be made to call a null function; it never does exactly when its
      callback waits for the caller that is still inside rrt_try_rerun_if_free. */
  lemma NullCallIffUnguarded(guarded: bool)
    ensures CallsNull(guarded) <==> !guarded
  {
    if guarded {
      forall moves | CanRun(Started(guarded), moves) ensures Ran(Started(guarded), moves).t.pc != Call(NoFunction) {
        RunKeeps(Started(guarded), moves);
      }
    } else {
      var moves := LateBroadcast();
    }
  }

  // ----- run by run

  // The executor was woken and is past its status test, and there is nothing to fetch.
  predicate Stale(b: Bare) {
    Committed(b.t.pc) && b.t.status == Idle
  }

  predicate StaleBroadcast(b: Bare, m: Move) {
    m == Broadcast && b.caller == Signalling && b.t.pc == Parked && b.t.status == Idle
  }

  // What holds with any callback, up to a null call.
  predicate AnyOk(b: Bare) {
    b.t.pc == Call(NoFunction) ||
    (&& LocksMatch(b.t)
     && (b.t.status == Idle || b.t.status == Busy) && !Leaving(b.t.pc)
     && (Waiting(b.t.pc) || b.t.pc == Callback ==> b.t.run == if b.t.status == Idle then NoFunction else Given)
     && (Working(b.t.pc) ==> b.t.status == Busy)
     && (b.t.pc.Call? ==> b.t.pc.fn == Given)
     && (b.t.pc.DecideLock? || b.t.pc.Decide? ==> b.t.run == NoFunction)
     && (b.t.condLock == ByCaller <==> b.caller == Signalling) && b.t.rtLock != ByCaller
     && (Stale(b) ==> b.caller == Away))
  }

  lemma AnyKeeps(b: Bare, m: Move)
    requires AnyOk(b) && CanMove(b, m)
    ensures AnyOk(Moved(b, m))
    ensures Stale(Moved(b, m)) ==> Stale(b) || StaleBroadcast(b, m)
    ensures b.t.pc != Call(NoFunction) && Moved(b, m).t.pc == Call(NoFunction) ==> Stale(b)
  {
  }

  // Some move of the run was a broadcast to an executor that had parked with nothing to do.
  ghost predicate HadStaleBroadcast(b: Bare, moves: seq<Move>)
    requires CanRun(b, moves)
    decreases |moves|
  {
    moves != [] && (StaleBroadcast(b, moves[0]) || HadStaleBroadcast(Moved(b, moves[0]), moves[1..]))
  }

  lemma {:induction false} NullNeedsStale(b: Bare, moves: seq<Move>)
    requires AnyOk(b) && CanRun(b, moves) && b.t.pc != Call(NoFunction) && Ran(b, moves).t.pc == Call(NoFunction)
    ensures Stale(b) || HadStaleBroadcast(b, moves)
    decreases |moves|
  {
    AnyKeeps(b, moves[0]);
    if Moved(b, moves[0]).t.pc != Call(NoFunction) {
      NullNeedsStale(Moved(b, moves[0]), moves[1..]);
    }
  }

  /** Whatever the callback: every run that calls null had such a broadcast. */
  lemma {:induction false} NullCallHadStaleBroadcast(guarded: bool, moves: seq<Move>)
    requires CanRun(Started(guarded), moves) && Ran(Started(guarded), moves).t.pc == Call(NoFunction)
    ensures HadStaleBroadcast(Started(guarded), moves)
  {
    NullNeedsStale(Started(guarded), moves);
  }

  lemma {:induction false} AnyRunKeeps(b: Bare, moves: seq<Move>)
    requires AnyOk(b) && CanRun(b, moves)
    ensures AnyOk(Ran(b, moves))
    decreases |moves|
  {
    if moves != [] {
      AnyKeeps(b, moves[0]);
      AnyRunKeeps(Moved(b, moves[0]), moves[1..]);
    }
  }

  const ON := [Exec, Exec, Exec, Exec]

  /** And at any broadcast of any run: the executor, taking its next four steps alone, calls null exactly
      when it had parked with nothing to do. */
  lemma {:induction false} BroadcastCallsNullIff(guarded: bool, moves: seq<Move>)
    requires CanRun(Started(guarded), moves)
    requires var b := Ran(Started(guarded), moves); CanMove(b, Broadcast) && b.t.pc != Call(NoFunction)
    ensures var b := Ran(Started(guarded), moves);
      StaleBroadcast(b, Broadcast) <==>
      CanRun(Moved(b, Broadcast), ON) && Ran(Moved(b, Broadcast), ON).t.pc == Call(NoFunction)
  {
    AnyRunKeeps(Started(guarded), moves);
    BroadcastIff(Ran(Started(guarded), moves));
  }

  lemma {:induction false} BroadcastIff(b: Bare)
    requires AnyOk(b) && CanMove(b, Broadcast) && b.t.pc != Call(NoFunction)
    ensures StaleBroadcast(b, Broadcast) <==>
            CanRun(Moved(b, Broadcast), ON) && Ran(Moved(b, Broadcast), ON).t.pc == Call(NoFunction)
  {
    var c := Moved(b, Broadcast);
    if StaleBroadcast(b, Broadcast) {
      AnyKeeps(b, Broadcast);
      WakesToNull(c);
    } else if CanRun(c, ON) && Ran(c, ON).t.pc == Call(NoFunction) {
      OnlyStaleCalls(b);
    }
  }

  lemma {:induction false} OnlyStaleCalls(b: Bare)
    requires AnyOk(b) && CanMove(b, Broadcast) && b.t.pc != Call(NoFunction) && CanRun(Moved(b, Broadcast), ON)
    requires Ran(Moved(b, Broadcast), ON).t.pc == Call(NoFunction)
    ensures StaleBroadcast(b, Broadcast)
  {
    var c := Moved(b, Broadcast);
    AnyKeeps(b, Broadcast);
    NullNeedsStale(c, ON);
    ExecsBroadcastNothing(c, ON);
  }

  lemma {:induction false} WakesToNull(c: Bare)
    requires AnyOk(c) && c.t.pc == Wake && c.t.status == Idle
    ensures CanRun(c, ON) && Ran(c, ON).t.pc == Call(NoFunction)
  {
    var c1 := Moved(c, Exec);
    var c2 := Moved(c1, Exec);
    var c3 := Moved(c2, Exec);
    assert ON[1..] == [Exec, Exec, Exec] && [Exec, Exec, Exec][1..] == [Exec, Exec] && [Exec, Exec][1..] == [Exec];
    assert CanRun(c3, [Exec]) && Ran(c3, [Exec]) == Ran(Moved(c3, Exec), []);
    assert CanRun(c2, [Exec, Exec]) && CanRun(c1, [Exec, Exec, Exec]);
  }

  lemma {:induction false} ExecsBroadcastNothing(c: Bare, moves: seq<Move>)
    requires CanRun(c, moves) && forall i :: 0 <= i < |moves| ==> moves[i] == Exec
    ensures !HadStaleBroadcast(c, moves)
    decreases |moves|
  {
    if moves != [] { ExecsBroadcastNothing(Moved(c, moves[0]), moves[1..]); }
  }
}
