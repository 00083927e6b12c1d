/** A run in which a task of the worker pool waits for the pool's exit, and so for its own: it is submitted and
    started, a client shuts the pool down, and the task calls wp_wait_exit. */
module WorkerPoolSelfWait {
  import opened RerunnableThread
  import opened WorkerPool
  import opened WorkerPoolRest

  predicate Goes(s: State, a: Action, s': State) {
    Enabled(s, a) && Step(s, a) == s'
  }

  ghost predicate Path(ss: seq<State>, acts: seq<Action>) {
    |ss| == |acts| + 1 && forall i :: 0 <= i < |acts| ==> Goes(ss[i], acts[i], ss[i + 1])
  }

  // A run that has reached the first state of a path goes on to its last.
  lemma {:induction false} PathRuns(before: seq<Action>, ss: seq<State>, acts: seq<Action>)
    requires Path(ss, acts) && Legal(before) && After(before) == ss[0]
    ensures Legal(before + acts) && After(before + acts) == ss[|acts|]
    decreases |acts|
  {
    if acts == [] {
      assert before + acts == before;
    } else {
      OneMore(before, ss[0], acts[0], ss[1]);
      PathTail(ss, acts);
      PathRuns(before + [acts[0]], ss[1..], acts[1..]);
      Regroup(before, acts);
    }
  }

  lemma Regroup<T>(a: seq<T>, b: seq<T>)
    requires b != []
    ensures a + b == a + [b[0]] + b[1..]
  {
  }

  lemma {:induction false} OneMore(before: seq<Action>, s: State, a: Action, s': State)
    requires Legal(before) && After(before) == s && Goes(s, a, s')
    ensures Legal(before + [a]) && After(before + [a]) == s'
  {
    LegalSnoc(before, a);
  }

  lemma PathTail(ss: seq<State>, acts: seq<Action>)
    requires Path(ss, acts) && acts != []
    ensures Path(ss[1..], acts[1..])
  {
    forall i | 0 <= i < |acts[1..]| ensures Goes(ss[1..][i], acts[1..][i], ss[1..][i + 1]) {
      assert Goes(ss[i + 1], acts[i + 1], ss[i + 2]);
    }
  }

  const GO: Action := Action.Inside(0, true)

  // A call by client 0 stands at `at`.
  function At0(at: At, ticket: nat, todo: set<nat>): Hold {
    ByClient(Client(0), Frame(at, ticket, 0, todo, false, Success))
  }

  function One(t: Thread): seq<PoolThread> {
    [PoolThread(t, 0)]
  }

  const BUSY: Thread := STARTED.(status := Busy, run := Given)
  const TASK: Thread := BUSY.(pc := Running)
  const ASKED: Thread := TASK.(status := ShutdownRequested)

  // ----- a client submits a task to the new pool

  const NEW: State := INITIAL
  const SUBMIT: State := NEW.(waiting := map[Client(0) := Submit])
  const CHECK: State := NEW.(hold := At0(SubmitCheck, 0, {}), issued := 1)
  const PICK: State := CHECK.(hold := At0(SubmitPick, 0, {}))
  const SPAWNED: State := PICK.(hold := At0(SubmitQueue, 0, {}), workers := One(STARTED))
  const LISTED: State := SPAWNED.(hold := At0(RerunLock, 0, {}), busy := {0})

  lemma SubmitStep1()
    ensures Goes(NEW, Begin(Client(0), Submit), SUBMIT)
    ensures Goes(SUBMIT, Enter(Client(0)), CHECK)
  {
  }

  lemma SubmitStep2()
    ensures Goes(CHECK, GO, PICK)
    ensures Goes(PICK, GO, SPAWNED)
  {
  }

  lemma SubmitStep3()
    ensures Goes(SPAWNED, GO, LISTED)
  {
  }

  lemma {:induction false} Submits(before: seq<Action>)
    requires Legal(before) && After(before) == NEW
    ensures var acts := before + [Begin(Client(0), Submit), Enter(Client(0)), GO, GO, GO];
      Legal(acts) && After(acts) == LISTED
  {
    SubmitStep1();
    SubmitStep2();
    SubmitStep3();
    PathRuns(before, [NEW, SUBMIT, CHECK, PICK, SPAWNED, LISTED],
             [Begin(Client(0), Submit), Enter(Client(0)), GO, GO, GO]);
  }

  // ----- it is installed in the thread created for it

  const TEST: State := LISTED.(hold := At0(RerunTest, 0, {}), workers := One(STARTED.(rtLock := ByCaller)))
  const INSTALLED: State := LISTED.(hold := At0(RerunNotify, 0, {}), workers := One(BUSY), home := map[0 := 0])
  const NOTIFY: State := INSTALLED.(hold := At0(RerunBroadcast, 0, {}), workers := One(BUSY.(condLock := ByCaller)))
  const NOTIFIED: State := INSTALLED.(hold := At0(RerunUnlock, 0, {}), workers := One(BUSY.(condLock := ByCaller)))
  const RETURN: State := INSTALLED.(hold := At0(SubmitReturn, 0, {}))
  const SUBMITTED: State := INSTALLED.(hold := Unlocked, accepted := {0})

  lemma InstallStep1()
    ensures Goes(LISTED, GO, TEST)
    ensures Goes(TEST, GO, INSTALLED)
  {
  }

  lemma InstallStep2()
    ensures Goes(INSTALLED, GO, NOTIFY)
  {
  }

  lemma InstallStep3()
    ensures Goes(NOTIFY, GO, NOTIFIED)
  {
  }

  lemma InstallStep4()
    ensures Goes(NOTIFIED, GO, RETURN)
    ensures Goes(RETURN, GO, SUBMITTED)
  {
  }

  lemma {:induction false} Installs(before: seq<Action>)
    requires Legal(before) && After(before) == LISTED
    ensures var acts := before + [GO, GO, GO];
      Legal(acts) && After(acts) == NOTIFY
  {
    InstallStep1();
    InstallStep2();
    InstallStep3();
    PathRuns(before, [LISTED, TEST, INSTALLED, NOTIFY], [GO, GO, GO]);
  }

  lemma {:induction false} Returns(before: seq<Action>)
    requires Legal(before) && After(before) == NOTIFY
    ensures var acts := before + [GO, GO, GO];
      Legal(acts) && After(acts) == SUBMITTED
  {
    InstallStep2();
    InstallStep3();
    InstallStep4();
    PathRuns(before, [NOTIFY, NOTIFIED, RETURN, SUBMITTED], [GO, GO, GO]);
  }

  // A run in which the task has been accepted.
  lemma {:induction false} Accepted() returns (acts: seq<Action>)
    ensures Legal(acts) && After(acts) == SUBMITTED
  {
    acts := [];
    Submits(acts);
    acts := acts + [Begin(Client(0), Submit), Enter(Client(0)), GO, GO, GO];
    Installs(acts);
    acts := acts + [GO, GO, GO];
    Returns(acts);
    acts := acts + [GO, GO, GO];
  }

  // ----- the thread calls it

  const WAIT: State := SUBMITTED.(workers := One(BUSY.(condLock := ByExecutor, pc := PeekLock)))
  const PEEK: State := SUBMITTED.(workers := One(BUSY.(condLock := ByExecutor, rtLock := ByExecutor, pc := Peek)))
  const SEEN: State := SUBMITTED.(workers := One(BUSY.(condLock := ByExecutor, pc := DropCond)))
  const FREED: State := SUBMITTED.(workers := One(BUSY.(pc := FetchLock)))
  const FETCH: State := SUBMITTED.(workers := One(BUSY.(rtLock := ByExecutor, pc := Fetch)))
  const FETCHED: State := SUBMITTED.(workers := One(BUSY.(pc := Call(Given))))
  const RUNNING: State := SUBMITTED.(workers := One(TASK), started := multiset{0})

  lemma StartStep1()
    ensures Goes(SUBMITTED, Exec(0), WAIT)
    ensures Goes(WAIT, Exec(0), PEEK)
  {
  }

  lemma StartStep2()
    ensures Goes(PEEK, Exec(0), SEEN)
    ensures Goes(SEEN, Exec(0), FREED)
  {
  }

  lemma StartStep3()
    ensures Goes(FREED, Exec(0), FETCH)
    ensures Goes(FETCH, Exec(0), FETCHED)
  {
  }

  lemma StartStep4()
    ensures Goes(FETCHED, Start(0), RUNNING)
  {
  }

  lemma {:induction false} Starts(before: seq<Action>)
    requires Legal(before) && After(before) == SUBMITTED
    ensures var acts := before + [Exec(0), Exec(0), Exec(0), Exec(0), Exec(0), Exec(0), Start(0)];
      Legal(acts) && After(acts) == RUNNING
  {
    StartStep1();
    StartStep2();
    StartStep3();
    StartStep4();
    PathRuns(before, [SUBMITTED, WAIT, PEEK, SEEN, FREED, FETCH, FETCHED, RUNNING],
             [Exec(0), Exec(0), Exec(0), Exec(0), Exec(0), Exec(0), Start(0)]);
  }

  // ----- the client shuts the pool down while the task runs

  const STOP: State := RUNNING.(waiting := map[Client(0) := Shutdown])
  const STOPCHECK: State := RUNNING.(hold := At0(ShutdownCheck, 1, {}), issued := 2)
  const STOPPING: State := STOPCHECK.(hold := At0(ShutdownNext, 1, {0}), status := ShuttingDown)
  const REQUEST: State := STOPPING.(hold := At0(RequestLock, 1, {0}))
  const TRY: State := STOPPING.(hold := At0(RequestTry, 1, {0}), workers := One(TASK.(rtLock := ByCaller)))
  const DECIDE: State :=
    STOPPING.(hold := At0(RequestDecide, 1, {0}), workers := One(TASK.(rtLock := ByCaller, condLock := ByCaller)))

  lemma AskStep1()
    ensures Goes(RUNNING, Begin(Client(0), Shutdown), STOP)
    ensures Goes(STOP, Enter(Client(0)), STOPCHECK)
  {
  }

  lemma AskStep2()
    ensures Goes(STOPCHECK, GO, STOPPING)
  {
    assert STOPCHECK.free + STOPCHECK.busy == {0};
  }

  lemma AskStep3()
    ensures Goes(STOPPING, GO, REQUEST)
  {
  }

  lemma AskStep4()
    ensures Goes(REQUEST, GO, TRY)
  {
  }

  lemma AskStep5()
    ensures Goes(TRY, GO, DECIDE)
  {
  }

  lemma {:induction false} Asks(before: seq<Action>)
    requires Legal(before) && After(before) == RUNNING
    ensures var acts := before + [Begin(Client(0), Shutdown), Enter(Client(0)), GO, GO, GO, GO];
      Legal(acts) && After(acts) == DECIDE
  {
    AskStep1();
    AskStep2();
    AskStep3();
    AskStep4();
    AskStep5();
    PathRuns(before, [RUNNING, STOP, STOPCHECK, STOPPING, REQUEST, TRY, DECIDE],
             [Begin(Client(0), Shutdown), Enter(Client(0)), GO, GO, GO, GO]);
  }

  // ----- the task's thread is asked to exit

  const DECIDED: State :=
    STOPPING.(hold := At0(RequestDropCond, 1, {0}), workers := One(ASKED.(rtLock := ByCaller, condLock := ByCaller)))
  const DROPPED: State := STOPPING.(hold := At0(RequestDropLock, 1, {0}), workers := One(ASKED.(rtLock := ByCaller)))
  const WALKED: State := STOPPING.(hold := At0(ShutdownNext, 1, {}), workers := One(ASKED))
  const STOPRETURN: State := STOPPING.(hold := At0(ShutdownReturn, 1, {}), workers := One(ASKED))
  const STOPPED: State := STOPPING.(hold := Unlocked, workers := One(ASKED))

  lemma StopStep1()
    ensures Goes(DECIDE, GO, DECIDED)
  {
  }

  lemma StopStep2()
    ensures Goes(DECIDED, GO, DROPPED)
  {
  }

  lemma StopStep3()
    ensures Goes(DROPPED, GO, WALKED)
  {
    assert {0} - {0} == {};
  }

  lemma StopStep4()
    ensures Goes(WALKED, GO, STOPRETURN)
  {
  }

  lemma StopStep5()
    ensures Goes(STOPRETURN, GO, STOPPED)
  {
  }

  lemma {:induction false} Stops(before: seq<Action>)
    requires Legal(before) && After(before) == DECIDE
    ensures var acts := before + [GO, GO, GO, GO, GO];
      Legal(acts) && After(acts) == STOPPED
  {
    StopStep1();
    StopStep2();
    StopStep3();
    StopStep4();
    StopStep5();
    PathRuns(before, [DECIDE, DECIDED, DROPPED, WALKED, STOPRETURN, STOPPED],
             [GO, GO, GO, GO, GO]);
  }

  // A run in which the pool has been shut down while the task runs.
  lemma {:induction false} Shut() returns (acts: seq<Action>)
    ensures Legal(acts) && After(acts) == STOPPED
  {
    acts := Accepted();
    Starts(acts);
    acts := acts + [Exec(0), Exec(0), Exec(0), Exec(0), Exec(0), Exec(0), Start(0)];
    Asks(acts);
    acts := acts + [Begin(Client(0), Shutdown), Enter(Client(0)), GO, GO, GO, GO];
    Stops(acts);
    acts := acts + [GO, GO, GO, GO, GO];
  }

  // ----- the task waits for the pool's exit

  const ASKS: State := STOPPED.(waiting := map[Worker(0) := WaitExit(false)])
  const ATTEST: State := STOPPED.(hold := ByClient(Worker(0), Frame(WaitCheck, 2, 0, {}, false, Success)), issued := 3)
  const POLLS: State := ATTEST.(hold := ByClient(Worker(0), Frame(WaitNext, 2, 0, {0}, false, Success)), status := PoolExited)

  lemma WaitStep1()
    ensures Goes(STOPPED, Begin(Worker(0), WaitExit(false)), ASKS)
    ensures Goes(ASKS, Enter(Worker(0)), ATTEST)
  {
  }

  lemma WaitStep2()
    ensures Goes(ATTEST, GO, POLLS)
  {
    assert ATTEST.busy + ATTEST.free == {0};
  }

  lemma {:induction false} Waits(before: seq<Action>)
    requires Legal(before) && After(before) == STOPPED
    ensures var acts := before + [Begin(Worker(0), WaitExit(false)), Enter(Worker(0)), GO];
      Legal(acts) && After(acts) == POLLS
  {
    WaitStep1();
    WaitStep2();
    PathRuns(before, [STOPPED, ASKS, ATTEST, POLLS],
             [Begin(Worker(0), WaitExit(false)), Enter(Worker(0)), GO]);
  }

  /** The task is about to look for live threads, and is one. */
  lemma {:induction false} TaskPolls() returns (acts: seq<Action>)
    ensures Legal(acts) && Polls(After(acts), 0)
  {
    acts := Shut();
    Waits(acts);
    acts := acts + [Begin(Worker(0), WaitExit(false)), Enter(Worker(0)), GO];
  }
}
