/** A schedule under which the try-lock of a shutdown never succeeds, though every thread that can always move does:
    the executor holds the condition's mutex and can take rt_lock only while the shutdown has just released it. */
module WorkerPoolTryLock {
  import opened RerunnableThread
  import opened WorkerPool
  import opened WorkerPoolInvariant
  import opened WorkerPoolRest
  import opened WorkerPoolFair
  import opened WorkerPoolSelfWait

  // An agent that can move at every moment from some point on moves again and again.
  ghost predicate WeaklyFairTo(run: nat -> State, step: nat -> Action, g: Agent) {
    forall n: nat :: (forall m: nat :: n <= m ==> CanMove(run(m), g)) ==> MovesAfter(step, g, n)
  }

  ghost predicate WeaklyFair(run: nat -> State, step: nat -> Action) {
    forall g :: WeaklyFairTo(run, step, g)
  }

  // The thread of a task just submitted is about to look at its status; a client shuts the pool down.
  const LOOKS: Thread := BUSY.(condLock := ByExecutor, pc := PeekLock)
  const CALLED: State := WAIT.(waiting := map[Client(0) := Shutdown])
  const ENTERED: State := WAIT.(hold := At0(ShutdownCheck, 1, {}), issued := 2)
  const WALKS: State := ENTERED.(hold := At0(ShutdownNext, 1, {0}), status := ShuttingDown)
  const LOCKS: State := WALKS.(hold := At0(RequestLock, 1, {0}))
  const TRIES: State := WALKS.(hold := At0(RequestTry, 1, {0}), workers := One(LOOKS.(rtLock := ByCaller)))

  lemma CallStep1()
    ensures Goes(WAIT, Begin(Client(0), Shutdown), CALLED)
    ensures Goes(CALLED, Enter(Client(0)), ENTERED)
  {
  }

  lemma CallStep2()
    ensures Goes(ENTERED, GO, WALKS)
  {
    assert ENTERED.free + ENTERED.busy == {0};
  }

  lemma CallStep3()
    ensures Goes(WALKS, GO, LOCKS)
  {
  }

  lemma TryStep()
    ensures Goes(LOCKS, GO, TRIES)
  {
  }

  lemma FailStep()
    ensures Goes(TRIES, GO, LOCKS)
  {
  }

  lemma {:induction false} Reached() returns (acts: seq<Action>)
    ensures Legal(acts) && After(acts) == LOCKS
  {
    acts := Accepted();
    StartStep1();
    CallStep1();
    CallStep2();
    CallStep3();
    PathRuns(acts, [SUBMITTED, WAIT, CALLED, ENTERED, WALKS, LOCKS],
             [Exec(0), Begin(Client(0), Shutdown), Enter(Client(0)), GO, GO]);
    acts := acts + [Exec(0), Begin(Client(0), Shutdown), Enter(Client(0)), GO, GO];
  }

  function Turns(i: nat): State {
    if i % 2 == 0 then LOCKS else TRIES
  }

  function Tries(i: nat): Action {
    GO
  }

  // The run takes turns in two states.
  ghost predicate TurnAt(run: nat -> State, step: nat -> Action, i: nat, s: State, a: Action, s': State) {
    && run(i) == (if i % 2 == 0 then s else s')
    && run(i + 1) == (if i % 2 == 0 then s' else s)
    && step(i) == a
  }

  lemma TurnSteps(run: nat -> State, step: nat -> Action, i: nat, s: State, a: Action, s': State)
    requires Inv(s) && Inv(s') && Goes(s, a, s') && Goes(s', a, s) && !a.Begin?
    requires TurnAt(run, step, i, s, a, s')
    ensures StepsAt(run, step, i)
  {
  }

  lemma TurnsGo(run: nat -> State, step: nat -> Action, s: State, a: Action, s': State)
    requires Inv(s) && Inv(s') && Goes(s, a, s') && Goes(s', a, s) && !a.Begin?
    requires forall i: nat :: TurnAt(run, step, i, s, a, s')
    ensures Endless(run, step)
  {
    forall i: nat ensures StepsAt(run, step, i) {
      assert TurnAt(run, step, i, s, a, s');
      TurnSteps(run, step, i, s, a, s');
    }
  }

  lemma TurnsAt(i: nat)
    ensures TurnAt(Turns, Tries, i, LOCKS, GO, TRIES)
  {
  }

  // While the shutdown holds rt_lock nobody else can move.
  lemma OnlyHolder(g: Agent)
    requires CanMove(TRIES, g)
    ensures g == Holder
  {
    var a :| Enabled(TRIES, a) && !a.Begin? && AgentOf(a) == g;
  }

  lemma TurnsFairTo(g: Agent)
    ensures WeaklyFairTo(Turns, Tries, g)
  {
    forall n: nat | forall m: nat :: n <= m ==> CanMove(Turns(m), g) ensures MovesAfter(Tries, g, n) {
      assert CanMove(Turns(2 * n + 1), g);
      assert Turns(2 * n + 1) == TRIES;
      OnlyHolder(g);
      assert AgentOf(Tries(n)) == g;
    }
  }

  lemma EndlessMoves(run: nat -> State, step: nat -> Action, n: nat)
    requires StepsAt(run, step, n)
    ensures !RestsAt(run, n)
  {
    if RestsAt(run, n) { NobodySteps(run, step, n); }
  }

  /** The shutdown tries for ever: weak fairness is not enough. */
  lemma {:induction false} TriesForEver() returns (acts: seq<Action>, run: nat -> State, step: nat -> Action)
    ensures Legal(acts) && run(0) == After(acts) && OutsideWaits(run(0))
    ensures Endless(run, step) && WeaklyFair(run, step) && forall n: nat :: !RestsAt(run, n)
  {
    acts := Reached();
    run, step := Turns, Tries;
    RunKeeps(acts);
    TryStep();
    FailStep();
    StepKeeps(LOCKS, GO);
    forall i: nat ensures TurnAt(run, step, i, LOCKS, GO, TRIES) { TurnsAt(i); }
    TurnsGo(run, step, LOCKS, GO, TRIES);
    forall n: nat ensures !RestsAt(run, n) { assert StepsAt(run, step, n); EndlessMoves(run, step, n); }
    forall g ensures WeaklyFairTo(run, step, g) { TurnsFairTo(g); }
  }
}
