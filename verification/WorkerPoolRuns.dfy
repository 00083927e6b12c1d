/** Whole runs of the worker pool from its start on: what fair scheduling guarantees. */
module WorkerPoolRuns {
  import opened RerunnableThread
  import opened WorkerPool
  import opened WorkerPoolInvariant
  import opened WorkerPoolTheorems
  import opened WorkerPoolRest
  import opened WorkerPoolExit
  import opened WorkerPoolFair
  import opened WorkerPoolSelfWait

  // An infinite run that goes on where acts ends.
  ghost predicate From(acts: seq<Action>, run: nat -> State, step: nat -> Action) {
    Legal(acts) && run(0) == After(acts) && WorkerPoolFair.GoesOn(run, step)
  }

  lemma {:induction false} Reaches(acts: seq<Action>, run: nat -> State, step: nat -> Action, n: nat)
    returns (more: seq<Action>)
    requires From(acts, run, step)
    ensures Continues(acts, more) && After(acts + more) == run(n)
    decreases n
  {
    if n == 0 {
      more := [];
      assert acts + [] == acts;
    } else {
      more := Reaches(acts, run, step, n - 1);
      more := ReachesNext(acts, run, step, n - 1, more);
    }
  }

  lemma {:induction false} ReachesNext(
    acts: seq<Action>, run: nat -> State, step: nat -> Action, n: nat, sofar: seq<Action>)
    returns (more: seq<Action>)
    requires From(acts, run, step) && Continues(acts, sofar) && After(acts + sofar) == run(n)
    ensures Continues(acts, more) && After(acts + more) == run(n + 1)
  {
    if StepsAt(run, step, n) {
      LegalSnoc(acts + sofar, step(n));
      more := sofar + [step(n)];
      assert acts + more == acts + sofar + [step(n)];
    } else {
      assert StaysAt(run, n);
      more := sofar;
    }
  }

  ghost predicate NeverDoomed(run: nat -> State) {
    forall i: nat :: !Doomed(run(i))
  }

  lemma {:induction false} DoomedAlways(acts: seq<Action>, run: nat -> State, step: nat -> Action, n: nat, m: nat)
    requires From(acts, run, step) && Doomed(run(n)) && n <= m
    ensures Doomed(run(m))
    decreases m
  {
    if n < m {
      DoomedAlways(acts, run, step, n, m - 1);
      DoomedNext(run, step, m - 1);
    }
  }

  lemma DoomedNext(run: nat -> State, step: nat -> Action, n: nat)
    requires WorkerPoolFair.GoesOn(run, step) && Doomed(run(n))
    ensures Doomed(run(n + 1))
  {
    if StepsAt(run, step, n) {
      StepKeeps(run(n), step(n));
      DoomedOn(run(n), step(n));
    } else {
      assert StaysAt(run, n);
    }
  }

  lemma {:induction false} RestNeverDoomed(acts: seq<Action>, run: nat -> State, step: nat -> Action, n: nat)
    requires From(acts, run, step) && RestsAt(run, n)
    ensures NeverDoomed(run)
  {
    forall i: nat ensures !Doomed(run(i)) {
      var m := if i <= n then n else i;
      RestStays(run, step, n, m);
      RestNotDoomed(run(m));
      if Doomed(run(i)) { DoomedAlways(acts, run, step, i, m); }
    }
  }

  /** From every reachable state: a run without new calls comes to rest exactly when it is fair and never doomed. */
  lemma {:induction false} FairRestIff(acts: seq<Action>, run: nat -> State, step: nat -> Action)
    requires From(acts, run, step)
    ensures (exists n: nat :: RestsAt(run, n)) <==> Fair(run, step) && NeverDoomed(run)
  {
    if n: nat :| RestsAt(run, n) {
      RestIsFair(run, step, n);
      RestNeverDoomed(acts, run, step, n);
    } else if NeverDoomed(run) {
      forall i: nat ensures NoPolls(run(i)) { assert !Doomed(run(i)); }
      RestIffFair(run, step);
    }
  }

  // ----- every task is done

  ghost predicate AllDone(s: State) {
    forall n :: n in s.accepted ==> s.started[n] == s.finished[n] == 1
  }

  /** In every fair run that is never doomed there comes a moment from which on the pool is at rest and every task
      whose submit returned 0 has started once and finished once. */
  lemma {:induction false} FairRunsDoAll(acts: seq<Action>, run: nat -> State, step: nat -> Action) returns (n: nat)
    requires From(acts, run, step) && Fair(run, step) && NeverDoomed(run)
    ensures forall m: nat :: n <= m ==> RestsAt(run, m) && AllDone(run(m))
  {
    FairRestIff(acts, run, step);
    n :| RestsAt(run, n);
    forall m: nat | n <= m ensures RestsAt(run, m) && AllDone(run(m)) {
      RestStays(run, step, n, m);
      RestDone(acts, run, step, m);
    }
  }

  lemma {:induction false} RestDone(acts: seq<Action>, run: nat -> State, step: nat -> Action, m: nat)
    requires From(acts, run, step) && RestsAt(run, m)
    ensures AllDone(run(m))
  {
    var more := Reaches(acts, run, step, m);
    RunKeeps(acts + more);
    forall n | n in run(m).accepted ensures run(m).started[n] == run(m).finished[n] == 1 {
      AtRestAllDone(acts + more, n);
    }
  }

  /** So it is in every fair run that starts with no task inside wp_wait_exit. */
  lemma {:induction false} OutsideRunsDoAll(acts: seq<Action>, run: nat -> State, step: nat -> Action) returns (n: nat)
    requires From(acts, run, step) && Fair(run, step) && OutsideWaits(run(0))
    ensures forall m: nat :: n <= m ==> RestsAt(run, m) && AllDone(run(m))
  {
    forall i: nat ensures !Doomed(run(i)) { OutsideLater(run, step, i); }
    n := FairRunsDoAll(acts, run, step);
  }

  // ----- a state from which it depends on the scheduler

  // An outside caller and the task both wait to make the status test of wp_wait_exit.
  const ONE: State := STOPPED.(waiting := map[Client(1) := WaitExit(false)])
  const BOTH: State := STOPPED.(waiting := map[Client(1) := WaitExit(false), Worker(0) := WaitExit(false)])
  const TESTS: State :=
    ONE.(hold := ByClient(Worker(0), Frame(WaitCheck, 2, 0, {}, false, Success)), issued := 3)
  const FIRST: State :=
    TESTS.(hold := ByClient(Worker(0), Frame(WaitNext, 2, 0, {0}, false, Success)), status := PoolExited)

  lemma BothStep1()
    ensures Goes(STOPPED, Begin(Client(1), WaitExit(false)), ONE)
    ensures Goes(ONE, Begin(Worker(0), WaitExit(false)), BOTH)
  {
  }

  lemma BothStep2()
    ensures Goes(BOTH, Enter(Worker(0)), TESTS)
  {
    assert BOTH.waiting - {Worker(0)} == ONE.waiting;
  }

  lemma BothStep3()
    ensures Goes(TESTS, GO, FIRST)
  {
    assert TESTS.busy + TESTS.free == {0};
  }

  lemma BothNotDoomed()
    ensures !Doomed(BOTH)
  {
    assert FirstWait(BOTH, Client(1));
  }

  /** A state that is not doomed, from which a run may still become so: when the task goes first. */
  lemma {:induction false} TaskFirst() returns (acts: seq<Action>, more: seq<Action>)
    ensures Legal(acts) && !Doomed(After(acts))
    ensures Continues(acts, more) && Polls(After(acts + more), 0) && Doomed(After(acts + more))
  {
    acts := Shut();
    BothStep1();
    PathRuns(acts, [STOPPED, ONE, BOTH], [Begin(Client(1), WaitExit(false)), Begin(Worker(0), WaitExit(false))]);
    acts := acts + [Begin(Client(1), WaitExit(false)), Begin(Worker(0), WaitExit(false))];
    BothNotDoomed();
    BothStep2();
    BothStep3();
    more := [Enter(Worker(0)), GO];
    PathRuns(acts, [BOTH, TESTS, FIRST], more);
  }
}
