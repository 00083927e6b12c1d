/** Circuits whose gates are notified in different ways: at once, through the queue of the loop breaker, or
    by a task posted for a worker.  Small steps of one thread inside the circuit, with an explicit call
    stack and every reference to a value counted. */
module QueuedBoard {
  import opened Circuit
  import opened Options
  import opened ReferenceCounts
  import opened DirectBoard

  // The execution behaviour of a gate.
  datatype Mode = AtOnce | Breaker | Posting

  // A queued or posted notification; it holds a reference to its value.
  datatype Task<+V> = Task(gate: nat, r: Ref<V>)

  // A call in progress.  Notifying: the loop over the drivens of w, of which taps are left.  Driving: a
  // gate drives its output ports from j on; `driven` when the drive of port j has returned.  Draining: the
  // outermost call of the loop breaker, and Posted: a worker's call; `ran` when the task's gate code has
  // returned.
  datatype Frame<+W, +V> =
    | Notifying(w: W, r: Ref<V>, taps: seq<Tap>)
    | Driving(gate: nat, hs: seq<Handle<V>>, j: nat, driven: bool)
    | Draining(task: Task<V>, ran: bool)
    | Posted(task: Task<V>, ran: bool)

  // Slots and cells as on a board; the call stack, innermost last; the queue of the loop breaker, if there
  // is one; the tasks posted and not yet taken; the references of clients; what clients drove.
  datatype State<!W(==), V> = State(
    slot: map<W, Ref<V>>, cells: map<nat, Cell<V>>, next: nat, stack: seq<Frame<W, V>>,
    queue: Option<seq<Task<V>>>, posted: seq<Task<V>>, client: multiset<nat>, log: seq<(W, V)>)

  // With no call in progress a client creates a value, references the value of a wire, gives a reference
  // back, drives a wire, or notifies a gate; or a worker takes a posted task.  Proceed is the next step of
  // the innermost call.
  datatype Action<+W, +V> =
    New(v: V) | Hold(w: W) | Give(id: nat) | Drive(w: W, r: Ref<V>) | Kick(gate: nat, r: Ref<V>) | Take(i: nat) | Proceed

  // ----- references

  function FrameRefs<W, V>(f: Frame<W, V>): multiset<nat> {
    match f
    case Notifying(_, _, _) => multiset{}
    case Driving(_, hs, j, _) => if j <= |hs| then Owned(hs[j..]) else multiset{}
    case Draining(t, _) => One(t.r)
    case Posted(t, _) => One(t.r)
  }

  function StackRefs<W, V>(stack: seq<Frame<W, V>>): multiset<nat> {
    if stack == [] then multiset{}
    else StackRefs(stack[..|stack| - 1]) + FrameRefs(stack[|stack| - 1])
  }

  function TaskRefs<V>(ts: seq<Task<V>>): multiset<nat> {
    if ts == [] then multiset{} else One(ts[0].r) + TaskRefs(ts[1..])
  }

  function Queued<W, V>(s: State<W, V>): seq<Task<V>> {
    if s.queue.Some? then s.queue.value else []
  }

  // Every reference but those of the slots.
  function Outside<W, V>(s: State<W, V>): multiset<nat> {
    s.client + StackRefs(s.stack) + TaskRefs(Queued(s)) + TaskRefs(s.posted)
  }

  lemma {:induction false} StackSnoc<W, V>(stack: seq<Frame<W, V>>, f: Frame<W, V>)
    ensures StackRefs(stack + [f]) == StackRefs(stack) + FrameRefs(f)
  {
    assert (stack + [f])[..|stack|] == stack;
  }

  lemma {:induction false} TasksConcat<V>(a: seq<Task<V>>, b: seq<Task<V>>)
    ensures TaskRefs(a + b) == TaskRefs(a) + TaskRefs(b)
    decreases |a|
  {
    if a == [] {
      assert a + b == b;
    } else {
      assert (a + b)[1..] == a[1..] + b;
      TasksConcat(a[1..], b);
    }
  }

  // ----- steps

  function Inner<W, V>(s: State<W, V>): Frame<W, V>
    requires s.stack != []
  {
    s.stack[|s.stack| - 1]
  }

  function Outer<W, V>(s: State<W, V>): seq<Frame<W, V>>
    requires s.stack != []
  {
    s.stack[..|s.stack| - 1]
  }

  function Push<W, V>(s: State<W, V>, f: Frame<W, V>): State<W, V> {
    s.(stack := s.stack + [f])
  }

  function Pop<W, V>(s: State<W, V>): State<W, V>
    requires s.stack != []
  {
    s.(stack := Outer(s))
  }

  function Replace<W, V>(s: State<W, V>, f: Frame<W, V>): State<W, V>
    requires s.stack != []
  {
    s.(stack := Outer(s) + [f])
  }

  // Value id is what a gate creates for its port id - next.
  predicate Creates<V>(os: seq<Output<V>>, n: nat, next: nat, id: nat) {
    next <= id < next + n && id - next < |os| && os[id - next].Fresh?
  }

  // The values that a firing creates, with one reference each.
  function Born<V>(os: seq<Output<V>>, n: nat, next: nat): map<nat, Cell<V>> {
    map id: nat | next <= id < next + n && Creates(os, n, next, id) :: Cell(os[id - next].v, 1)
  }

  function HandleFor<V>(os: seq<Output<V>>, refs: seq<Ref<V>>, next: nat, j: nat): Handle<V> {
    if j >= |os| then Silent
    else
      match os[j]
      case Nothing => Silent
      case Pass(k) => if k < |refs| then Lent(refs[k]) else Silent
      case Fresh(_) => Made(next + j)
      case Constant(v) => Lent(Static(v))
  }

  function Handles<V>(os: seq<Output<V>>, refs: seq<Ref<V>>, next: nat, n: nat): seq<Handle<V>> {
    seq(n, j requires 0 <= j < n => HandleFor(os, refs, next, j))
  }

  function PointersOf<W, V>(slot: map<W, Ref<V>>, ws: seq<W>): seq<Ref<V>>
    requires forall w :: w in ws ==> w in slot
  {
    seq(|ws|, k requires 0 <= k < |ws| => assert ws[k] in ws; slot[ws[k]])
  }

  // The gate's code has run: it is about to drive its n ports with os.
  function Fired<W, V>(s: State<W, V>, g: nat, os: seq<Output<V>>, refs: seq<Ref<V>>, n: nat): State<W, V> {
    Push(s.(cells := s.cells + Born(os, n, s.next), next := s.next + n), Driving(g, Handles(os, refs, s.next, n), 0, false))
  }

  // The gate reads all its wired inputs, or gives up at the first that is missing.
  ghost function Fire<W(!new), V>(c: Net<W, V>, s: State<W, V>, g: nat): State<W, V>
    requires g < |c.gates| && AllLive(s.slot, s.cells)
  {
    var gate, val := c.gates[g], Values(s.slot, s.cells);
    if Ready(gate, val)
    then Fired(s, g, gate.f(Inputs(gate, val)), PointersOf(s.slot, Wired(gate.ins)), |gate.outs|) else s
  }

  // Runs a task, unless the gate is disabled.
  ghost function Execute<W(!new), V>(c: Net<W, V>, s: State<W, V>, g: nat): State<W, V>
    requires g < |c.gates| && AllLive(s.slot, s.cells)
  {
    if c.gates[g].enabled then Fire(c, s, g) else s
  }

  // A task takes a reference to its value; a gate that is notified at once is handed nothing it reads.
  predicate Handable<W, V>(mode: nat -> Mode, s: State<W, V>, g: nat, r: Ref<V>) {
    mode(g) != AtOnce ==> Live(r, s.cells)
  }

  // The gate is notified of r, in its own way.
  ghost function Notify<W(!new), V>(c: Net<W, V>, mode: nat -> Mode, s: State<W, V>, g: nat, r: Ref<V>): State<W, V>
    requires g < |c.gates| && AllLive(s.slot, s.cells) && Handable(mode, s, g, r)
  {
    match mode(g)
    case AtOnce => Fire(c, s, g)
    case Breaker =>
      var s1 := s.(cells := Referenced(s.cells, r));
      if s.queue.None? then Push(s1.(queue := Some([])), Draining(Task(g, r), false))
      else s1.(queue := Some(s.queue.value + [Task(g, r)]))
    case Posting => s.(cells := Referenced(s.cells, r), posted := s.posted + [Task(g, r)])
  }

  ghost function DriveWire<W(!new), V>(c: Net<W, V>, s: State<W, V>, w: W, r: Ref<V>): State<W, V>
    requires AllLive(s.slot, s.cells) && Live(r, s.cells)
  {
    Push(s.(slot := s.slot[w := r], cells := Imported(s.slot, s.cells, w, r)), Notifying(w, r, Taps(c, w)))
  }

  // What the handle points at.
  function Pointer<V>(hd: Handle<V>): Ref<V>
    requires !hd.Silent?
  {
    if hd.Made? then Counted(hd.id) else hd.r
  }

  // The drive of port j has returned: the value created for it is given back.
  function Given<W, V>(s: State<W, V>): State<W, V>
    requires s.stack != [] && Inner(s).Driving? && Inner(s).j < |Inner(s).hs|
    requires Inner(s).hs[Inner(s).j].Made? ==> Inner(s).hs[Inner(s).j].id in s.cells
  {
    var f := Inner(s);
    Replace(s, f.(j := f.j + 1, driven := false)).(
      cells := if f.hs[f.j].Made? then Dropped(s.cells, Counted(f.hs[f.j].id)) else s.cells)
  }

  // The step of a gate that drives its outputs.
  ghost function DriveStep<W(!new), V>(c: Net<W, V>, s: State<W, V>): State<W, V>
    requires AllLive(s.slot, s.cells) && SafeCall(c, s) && Inner(s).Driving?
  {
    var f := Inner(s);
    var gate := c.gates[f.gate];
    if f.j == |f.hs| then Pop(s)
    else if f.driven then Given(s)
    else
      var s1 := Replace(s, f.(driven := true));
      if gate.outs[f.j].Some? && !f.hs[f.j].Silent? && Guarded(gate, f.j, Value(Pointer(f.hs[f.j]), s.cells))
      then DriveWire(c, s1, gate.outs[f.j].value, Pointer(f.hs[f.j])) else s1
  }

  // The task's code has returned: its reference is given back, and the loop breaker takes the next task.
  function TaskDone<W, V>(s: State<W, V>): State<W, V>
    requires s.stack != [] && (Inner(s).Draining? || Inner(s).Posted?) && Live(Inner(s).task.r, s.cells)
  {
    var s1 := s.(cells := Dropped(s.cells, Inner(s).task.r));
    if Inner(s).Posted? then Pop(s1)
    else if Queued(s) == [] then Pop(s1).(queue := None)
    else Push(Pop(s1).(queue := Some(Queued(s)[1..])), Draining(Queued(s)[0], false))
  }

  // The task's code is called.
  function Begun<W, V>(s: State<W, V>): State<W, V>
    requires s.stack != [] && (Inner(s).Draining? || Inner(s).Posted?)
  {
    Replace(s, Inner(s).(ran := true))
  }

  ghost function RunStep<W(!new), V>(c: Net<W, V>, s: State<W, V>): State<W, V>
    requires AllLive(s.slot, s.cells) && SafeCall(c, s) && (Inner(s).Draining? || Inner(s).Posted?)
  {
    if Inner(s).ran then TaskDone(s) else Execute(c, Begun(s), Inner(s).task.gate)
  }

  // The next step of the innermost call.
  ghost function Advance<W(!new), V>(c: Net<W, V>, mode: nat -> Mode, s: State<W, V>): State<W, V>
    requires AllLive(s.slot, s.cells) && SafeInner(c, mode, s)
  {
    match Inner(s)
    case Notifying(w, r, taps) =>
      if taps == [] then Pop(s)
      else
        var s1 := Replace(s, Notifying(w, r, taps[1..]));
        if c.gates[taps[0].gate].enabled then Notify(c, mode, s1, taps[0].gate, r) else s1
    case Driving(_, _, _, _) => DriveStep(c, s)
    case _ => RunStep(c, s)
  }

  // A client may use constants and the values it holds a reference to.
  predicate Holds<W, V>(s: State<W, V>, r: Ref<V>) {
    r.Counted? ==> r.id in s.client
  }

  predicate Enabled<W(==), V>(c: Net<W, V>, s: State<W, V>, a: Action<W, V>) {
    match a
    case New(_) => s.stack == []
    case Hold(w) => s.stack == [] && w in s.slot
    case Give(id) => s.stack == [] && id in s.client
    case Drive(_, r) => s.stack == [] && Holds(s, r)
    case Kick(g, r) => s.stack == [] && g < |c.gates| && Holds(s, r)
    case Take(i) => s.stack == [] && i < |s.posted|
    case Proceed => s.stack != []
  }

  // The values that a gate drives its next port with or gives back, and those of tasks, are in memory.
  ghost predicate SafeCall<W(!new), V>(c: Net<W, V>, s: State<W, V>) {
    s.stack != [] &&
    match Inner(s)
    case Notifying(_, _, taps) => taps != [] ==> taps[0].gate < |c.gates|
    case Driving(g, hs, j, driven) =>
      && g < |c.gates| && j <= |hs| == |c.gates[g].outs|
      && (j < |hs| && driven && hs[j].Made? ==> hs[j].id in s.cells)
      && (j < |hs| && !driven && c.gates[g].outs[j].Some? && !hs[j].Silent? ==> Live(Pointer(hs[j]), s.cells))
    case Draining(t, _) => t.gate < |c.gates| && Live(t.r, s.cells)
    case Posted(t, _) => t.gate < |c.gates| && Live(t.r, s.cells)
  }

  // The next gate to be notified of r is handed it in a task.
  predicate Queues<W(==), V>(c: Net<W, V>, mode: nat -> Mode, g: nat) {
    g < |c.gates| && c.gates[g].enabled && mode(g) != AtOnce
  }

  // Every value that the innermost call reads, hands on, references or gives back is in memory.
  ghost predicate SafeInner<W(!new), V>(c: Net<W, V>, mode: nat -> Mode, s: State<W, V>) {
    && SafeCall(c, s)
    && (Inner(s).Notifying? && Inner(s).taps != [] && Queues(c, mode, Inner(s).taps[0].gate) ==> Live(Inner(s).r, s.cells))
  }

  // The action touches no value that is not in memory, and no slot points at one.
  ghost predicate Safe<W(!new), V>(c: Net<W, V>, mode: nat -> Mode, s: State<W, V>, a: Action<W, V>) {
    AllLive(s.slot, s.cells) &&
    match a
    case New(_) => true
    case Hold(w) => w in s.slot && Live(s.slot[w], s.cells)
    case Give(id) => id in s.cells
    case Drive(_, r) => Live(r, s.cells)
    case Kick(g, r) => g < |c.gates| && Handable(mode, s, g, r)
    case Take(i) => i < |s.posted|
    case Proceed => SafeInner(c, mode, s)
  }

  ghost function Step<W(!new), V>(c: Net<W, V>, mode: nat -> Mode, s: State<W, V>, a: Action<W, V>): State<W, V>
    requires Safe(c, mode, s, a)
  {
    match a
    case New(v) => s.(cells := s.cells[s.next := Cell(v, 1)], next := s.next + 1, client := s.client + multiset{s.next})
    case Hold(w) => s.(cells := Referenced(s.cells, s.slot[w]), client := s.client + One(s.slot[w]))
    case Give(id) => s.(cells := Dropped(s.cells, Counted(id)), client := s.client - multiset{id})
    case Drive(w, r) => DriveWire(c, s.(log := s.log + [(w, Value(r, s.cells))]), w, r)
    case Kick(g, r) => Notify(c, mode, s, g, r)
    case Take(i) => Push(s.(posted := s.posted[..i] + s.posted[i + 1..]), Posted(s.posted[i], false))
    case Proceed => Advance(c, mode, s)
  }

  ghost predicate Legal<W(!new), V>(c: Net<W, V>, mode: nat -> Mode, s: State<W, V>, run: seq<Action<W, V>>)
    decreases |run|
  {
    run == [] || (Enabled(c, s, run[0]) && Safe(c, mode, s, run[0]) && Legal(c, mode, Step(c, mode, s, run[0]), run[1..]))
  }

  ghost function After<W(!new), V>(c: Net<W, V>, mode: nat -> Mode, s: State<W, V>, run: seq<Action<W, V>>): State<W, V>
    requires Legal(c, mode, s, run)
    decreases |run|
  {
    if run == [] then s else After(c, mode, Step(c, mode, s, run[0]), run[1..])
  }

  function Initial<W(==), V>(): State<W, V> {
    State(map[], map[], 0, [], None, [], multiset{}, [])
  }
}
