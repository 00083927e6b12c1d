/** The loop breaker: a call made while another is under way only queues its task, and the outermost call
    runs the queue until it is empty.  Beside `QueuedBoard`, where gates are functions of their inputs and values
    are counted, this leaves the gate code open: while a task runs it may make any number of calls, and a task
    is only its number.  So the order in which tasks start, that none starts inside another, and that every reference
    is given back hold whatever gates do, also when the outermost call never ends. */
module LoopBreaker {
  import opened Options

  // A call in progress: its task was created; a task runs; a task's gate code has returned; the next
  // task is to be taken.  Tasks are numbered in the order of their creation.
  datatype Frame = Created(task: nat) | Running(task: nat) | Returned(task: nat) | Taking

  // The call stack, innermost last; the queue, if there is one; the number of tasks created; the tasks
  // that started to run, in order; and the tasks whose reference to their value is not given back.
  datatype State = State(stack: seq<Frame>, queue: Option<seq<nat>>, created: nat, started: seq<nat>, held: set<nat>)

  datatype Action = Call | Proceed

  const INITIAL := State([], None, 0, [], {})

  // A call is made from outside, or by the gate code that is running.
  predicate CanCall(s: State) {
    s.stack == [] || s.stack[|s.stack| - 1].Running?
  }

  predicate Enabled(s: State, a: Action) {
    match a
    case Call => CanCall(s)
    case Proceed => s.stack != []
  }

  function WithTop(s: State, f: Frame): seq<Frame>
    requires s.stack != []
  {
    s.stack[..|s.stack| - 1] + [f]
  }

  function Popped(s: State): seq<Frame>
    requires s.stack != []
  {
    s.stack[..|s.stack| - 1]
  }

  // Creates the task, with a reference to its value.
  function Enter(s: State): State {
    s.(stack := s.stack + [Created(s.created)], created := s.created + 1, held := s.held + {s.created})
  }

  function Start(s: State, task: nat, queue: seq<nat>): State
    requires s.stack != []
  {
    s.(stack := WithTop(s, Running(task)), queue := Some(queue), started := s.started + [task])
  }

  // The next step of the innermost call.
  function Advance(s: State): State
    requires s.stack != []
  {
    match s.stack[|s.stack| - 1]
    case Created(task) =>
      if s.queue.None? then Start(s, task, [])
      else s.(stack := Popped(s), queue := Some(s.queue.value + [task]))
    case Running(task) => s.(stack := WithTop(s, Returned(task)))
    case Returned(task) => s.(stack := WithTop(s, Taking), held := s.held - {task})
    case Taking =>
      if s.queue.Some? && s.queue.value != [] then Start(s, s.queue.value[0], s.queue.value[1..])
      else s.(stack := Popped(s), queue := None)
  }

  function Step(s: State, a: Action): State
    requires Enabled(s, a)
  {
    if a.Call? then Enter(s) else Advance(s)
  }

  predicate Legal(s: State, run: seq<Action>)
    decreases |run|
  {
    run == [] || (Enabled(s, run[0]) && Legal(Step(s, run[0]), run[1..]))
  }

  function After(s: State, run: seq<Action>): State
    requires Legal(s, run)
    decreases |run|
  {
    if run == [] then s else After(Step(s, run[0]), run[1..])
  }

  // ----- the invariant

  function Range(from: nat, to: nat): seq<nat>
    requires from <= to
  {
    seq(to - from, i requires 0 <= i => from + i)
  }

  // The outermost call has started a task; a nested one has only just created its own.
  ghost predicate StackOk(s: State) {
    && |s.stack| <= 2
    && (|s.stack| == 2 ==> s.stack[0].Running? && s.stack[1].Created?)
    && (s.queue.None? <==> s.stack == [] || s.stack[0].Created?)
  }

  // The task of the innermost call when it is not queued yet.
  function Entering(s: State): nat {
    if s.stack != [] && s.stack[|s.stack| - 1].Created? then 1 else 0
  }

  function Queued(s: State): seq<nat> {
    if s.queue.Some? then s.queue.value else []
  }

  // The task whose reference the outermost call still has to give back.
  function Active(s: State): nat {
    if s.stack != [] && (s.stack[0].Running? || s.stack[0].Returned?) then 1 else 0
  }

  // Tasks start in the order of their creation, and the queue holds those between the started ones and
  // the one that is being created.
  ghost predicate Ordered(s: State) {
    && |s.started| <= s.created - Entering(s)
    && s.started == Range(0, |s.started|)
    && Queued(s) == Range(|s.started|, s.created - Entering(s))
    && (Entering(s) == 1 ==> s.stack[|s.stack| - 1].task == s.created - 1)
    && (Active(s) == 1 ==> |s.started| > 0 && s.stack[0].task == |s.started| - 1)
  }

  ghost predicate HeldOk(s: State) {
    |s.started| >= Active(s) && forall t: nat :: t in s.held <==> |s.started| - Active(s) <= t < s.created
  }

  ghost predicate Inv(s: State) {
    StackOk(s) && Ordered(s) && HeldOk(s)
  }

  lemma InitialOk()
    ensures Inv(INITIAL)
  {
  }

  lemma StepKeeps(s: State, a: Action)
    requires Inv(s) && Enabled(s, a)
    ensures Inv(Step(s, a))
  {
  }

  lemma {:induction false} RunKeeps(s: State, run: seq<Action>)
    requires Inv(s) && Legal(s, run)
    ensures Inv(After(s, run))
    decreases |run|
  {
    if run != [] {
      StepKeeps(s, run[0]);
      RunKeeps(Step(s, run[0]), run[1..]);
    }
  }

  ghost predicate InOrder(s: State) {
    s.started == Range(0, |s.started|) && |s.started| <= s.created
  }

  // Only the outermost call has a task that runs or ran.
  ghost predicate NotNested(s: State) {
    forall i :: 0 < i < |s.stack| ==> s.stack[i].Created?
  }

  /** In every run prefix: tasks have started in the order of their calls, each at most once, and no task
      started while another was running, however deeply gate code called back. */
  lemma {:induction false} InOrderNeverNested(run: seq<Action>)
    requires Legal(INITIAL, run)
    ensures InOrder(After(INITIAL, run)) && NotNested(After(INITIAL, run))
  {
    InitialOk();
    RunKeeps(INITIAL, run);
    InvInOrder(After(INITIAL, run));
  }

  lemma InvInOrder(s: State)
    requires Inv(s)
    ensures InOrder(s) && NotNested(s)
  {
  }

  ghost predicate AllDone(s: State) {
    s.queue == None && s.started == Range(0, s.created) && s.held == {}
  }

  /** Whenever the outermost call has returned, every task has run, the queue is gone and every reference
      is given back. */
  lemma {:induction false} OutermostReturnsDone(run: seq<Action>)
    requires Legal(INITIAL, run) && After(INITIAL, run).stack == []
    ensures AllDone(After(INITIAL, run))
  {
    InitialOk();
    RunKeeps(INITIAL, run);
    InvDone(After(INITIAL, run));
  }

  lemma InvDone(s: State)
    requires Inv(s) && s.stack == []
    ensures AllDone(s)
  {
    assert |Queued(s)| == s.created - |s.started|;
    assert forall t :: t !in s.held;
  }

  // ----- without further calls the outermost call returns

  function Work(s: State): nat {
    3 * |Queued(s)| + (if s.stack == [] then 0
                       else match s.stack[0]
                         case Created(_) => 4
                         case Running(_) => 3
                         case Returned(_) => 2
                         case Taking => 1) + (if |s.stack| == 2 then 4 else 0)
  }

  /** Every step but a new call brings the outermost call closer to its end, and there is always one to take. */
  lemma WorkFalls(s: State)
    requires Inv(s) && s.stack != []
    ensures Work(Step(s, Proceed)) < Work(s)
  {
  }
}
