/** On an acyclic circuit every call ends, whatever queues its notifications: the work left, which counts the
    paths below every call in progress and every task, falls at each step. */
module QueuedEnds {
  import opened Circuit
  import opened Options
  import opened ReferenceCounts
  import opened DirectBoard
  import opened QueuedBoard
  import opened QueuedBooks
  import opened QueuedCalls

  // A bound above everything gate g drives.
  ghost function Rank<W(!new), V>(c: Net<W, V>, h: W -> nat, g: nat): nat
    requires g < |c.gates|
  {
    if Wired(c.gates[g].outs) == [] then 0 else Highest(Wired(c.gates[g].outs), h) + 1
  }

  lemma RankAbove<W(!new), V>(c: Net<W, V>, h: W -> nat, g: nat, j: nat, o: W)
    requires Drives(c, g, j, o)
    ensures h(o) < Rank(c, h, g)
  {
    WiredIs(c.gates[g].outs);
    assert Some(o) in c.gates[g].outs;
    HighestIs(Wired(c.gates[g].outs), h, o);
  }

  lemma RankBelow<W(!new), V>(c: Net<W, V>, h: W -> nat, g: nat, w: W)
    requires Acyclic(c, h) && Reads(c, g, w)
    ensures Rank(c, h, g) <= h(w)
  {
    WiredIs(c.gates[g].outs);
    forall o | o in Wired(c.gates[g].outs) ensures h(o) < h(w) {
      var j: nat :| j < |c.gates[g].outs| && c.gates[g].outs[j] == Some(o);
      assert Drives(c, g, j, o);
    }
    HighestBelow(Wired(c.gates[g].outs), h, h(w));
  }

  lemma {:induction false} HighestBelow<W>(ws: seq<W>, h: W -> nat, b: nat)
    requires forall o :: o in ws ==> h(o) < b
    ensures ws != [] ==> Highest(ws, h) < b
  {
    if ws != [] {
      assert ws[0] in ws;
      forall o | o in ws[1..] ensures h(o) < b { assert o in ws; }
      HighestBelow(ws[1..], h, b);
    }
  }

  // ----- the steps that a drive, a notification or a firing can still take

  ghost function WireWork<W(!new), V>(c: Net<W, V>, h: W -> nat, w: W): nat
    requires WellFormed(c, h)
    decreases h(w), 3, 0
  {
    TapsWork(c, h, w, Taps(c, w))
  }

  ghost function TapsWork<W(!new), V>(c: Net<W, V>, h: W -> nat, w: W, taps: seq<Tap>): nat
    requires WellFormed(c, h)
    requires forall i :: 0 <= i < |taps| ==> IsTap(c, w, taps[i])
    decreases h(w), 2, |taps|
  {
    if taps == [] then 1
    else
      assert Reads(c, taps[0].gate, w);
      RankBelow(c, h, taps[0].gate, w);
      1 + TaskWork(c, h, taps[0].gate) + TapsWork(c, h, w, taps[1..])
  }

  // A task that is queued or posted: it is taken, run and ended.
  ghost function TaskWork<W(!new), V>(c: Net<W, V>, h: W -> nat, g: nat): nat
    requires WellFormed(c, h) && g < |c.gates|
    decreases Rank(c, h, g), 1, 0
  {
    4 + PortsWork(c, h, g, 0)
  }

  ghost function PortsWork<W(!new), V>(c: Net<W, V>, h: W -> nat, g: nat, j: nat): nat
    requires WellFormed(c, h) && g < |c.gates|
    decreases Rank(c, h, g), 0, |c.gates[g].outs| - j
  {
    if j >= |c.gates[g].outs| then 1
    else if c.gates[g].outs[j].None? then 2 + PortsWork(c, h, g, j + 1)
    else
      var o := c.gates[g].outs[j].value;
      assert Drives(c, g, j, o);
      RankAbove(c, h, g, j, o);
      2 + WireWork(c, h, o) + PortsWork(c, h, g, j + 1)
  }

  ghost predicate Known<W(!new), V>(c: Net<W, V>, f: Frame<W, V>) {
    match f
    case Notifying(w, _, taps) => forall i :: 0 <= i < |taps| ==> IsTap(c, w, taps[i])
    case Driving(g, _, _, _) => g < |c.gates|
    case Draining(t, _) => t.gate < |c.gates|
    case Posted(t, _) => t.gate < |c.gates|
  }

  ghost function FrameWork<W(!new), V>(c: Net<W, V>, h: W -> nat, f: Frame<W, V>): nat
    requires WellFormed(c, h) && Known(c, f)
  {
    match f
    case Notifying(w, _, taps) => TapsWork(c, h, w, taps)
    case Driving(g, _, j, driven) => if driven then 1 + PortsWork(c, h, g, j + 1) else PortsWork(c, h, g, j)
    case Draining(t, ran) => if ran then 1 else TaskWork(c, h, t.gate) - 1
    case Posted(t, ran) => if ran then 1 else TaskWork(c, h, t.gate) - 1
  }

  ghost function StackWork<W(!new), V>(c: Net<W, V>, h: W -> nat, stack: seq<Frame<W, V>>): nat
    requires WellFormed(c, h) && forall i :: 0 <= i < |stack| ==> Known(c, stack[i])
  {
    if stack == [] then 0
    else StackWork(c, h, stack[..|stack| - 1]) + FrameWork(c, h, stack[|stack| - 1])
  }

  ghost function TasksWork<W(!new), V>(c: Net<W, V>, h: W -> nat, ts: seq<Task<V>>): nat
    requires WellFormed(c, h) && TasksOk(c, ts)
  {
    if ts == [] then 0 else TaskWork(c, h, ts[0].gate) + TasksWork(c, h, ts[1..])
  }

  ghost predicate AllKnown<W(!new), V>(c: Net<W, V>, s: State<W, V>) {
    (forall i :: 0 <= i < |s.stack| ==> Known(c, s.stack[i])) && TasksOk(c, Queued(s)) && TasksOk(c, s.posted)
  }

  ghost function Work<W(!new), V>(c: Net<W, V>, h: W -> nat, s: State<W, V>): nat
    requires WellFormed(c, h) && AllKnown(c, s)
  {
    StackWork(c, h, s.stack) + TasksWork(c, h, Queued(s)) + TasksWork(c, h, s.posted)
  }

  lemma InvKnown<W(!new), V>(c: Net<W, V>, h: W -> nat, s: State<W, V>)
    requires Inv(c, h, s)
    ensures AllKnown(c, s)
  {
    forall i | 0 <= i < |s.stack| ensures Known(c, s.stack[i]) {
      assert FrameOk(c, h, s, i);
    }
  }

  lemma {:induction false} TasksWorkConcat<W(!new), V>(c: Net<W, V>, h: W -> nat, a: seq<Task<V>>, b: seq<Task<V>>)
    requires WellFormed(c, h) && TasksOk(c, a) && TasksOk(c, b)
    ensures TasksOk(c, a + b) && TasksWork(c, h, a + b) == TasksWork(c, h, a) + TasksWork(c, h, b)
    decreases |a|
  {
    if a == [] {
      assert a + b == b;
    } else {
      assert (a + b)[1..] == a[1..] + b;
      TasksWorkConcat(c, h, a[1..], b);
    }
  }

  lemma {:induction false} OneTaskWork<W(!new), V>(c: Net<W, V>, h: W -> nat, t: Task<V>)
    requires WellFormed(c, h) && t.gate < |c.gates|
    ensures TasksOk(c, [t]) && TasksWork(c, h, [t]) == TaskWork(c, h, t.gate)
  {
    assert [t][1..] == [];
  }

  lemma PushWork<W(!new), V>(c: Net<W, V>, h: W -> nat, s: State<W, V>, f: Frame<W, V>)
    requires WellFormed(c, h) && AllKnown(c, s) && Known(c, f)
    ensures AllKnown(c, Push(s, f)) && Work(c, h, Push(s, f)) == Work(c, h, s) + FrameWork(c, h, f)
  {
    assert (s.stack + [f])[..|s.stack|] == s.stack;
  }

  lemma PopWork<W(!new), V>(c: Net<W, V>, h: W -> nat, s: State<W, V>)
    requires WellFormed(c, h) && AllKnown(c, s) && s.stack != []
    ensures AllKnown(c, Pop(s)) && Work(c, h, s) == Work(c, h, Pop(s)) + FrameWork(c, h, Inner(s))
  {
  }

  lemma ReplaceWork<W(!new), V>(c: Net<W, V>, h: W -> nat, s: State<W, V>, f: Frame<W, V>)
    requires WellFormed(c, h) && AllKnown(c, s) && s.stack != [] && Known(c, f)
    ensures AllKnown(c, Replace(s, f))
    ensures Work(c, h, Replace(s, f)) + FrameWork(c, h, Inner(s)) == Work(c, h, s) + FrameWork(c, h, f)
  {
    PopWork(c, h, s);
    PushWork(c, h, Pop(s), f);
  }

  lemma {:induction false} FireWork<W(!new), V>(c: Net<W, V>, h: W -> nat, s: State<W, V>, g: nat)
    requires WellFormed(c, h) && AllKnown(c, s) && g < |c.gates| && AllLive(s.slot, s.cells)
    ensures AllKnown(c, Fire(c, s, g)) && AllKnown(c, Execute(c, s, g))
    ensures Work(c, h, Fire(c, s, g)) <= Work(c, h, s) + PortsWork(c, h, g, 0)
    ensures Work(c, h, Execute(c, s, g)) <= Work(c, h, s) + PortsWork(c, h, g, 0)
  {
    var gate, val := c.gates[g], Values(s.slot, s.cells);
    if Ready(gate, val) {
      var os, refs, n := gate.f(Inputs(gate, val)), PointersOf(s.slot, Wired(gate.ins)), |gate.outs|;
      var s1 := s.(cells := s.cells + Born(os, n, s.next), next := s.next + n);
      assert Work(c, h, s1) == Work(c, h, s);
      PushWork(c, h, s1, Driving(g, Handles(os, refs, s.next, n), 0, false));
    }
  }

  lemma {:induction false} NotifyWork<W(!new), V>(c: Net<W, V>, h: W -> nat, mode: nat -> Mode, s: State<W, V>, g: nat, r: Ref<V>)
    requires WellFormed(c, h) && AllKnown(c, s) && g < |c.gates| && AllLive(s.slot, s.cells) && Handable(mode, s, g, r)
    ensures AllKnown(c, Notify(c, mode, s, g, r))
    ensures Work(c, h, Notify(c, mode, s, g, r)) <= Work(c, h, s) + TaskWork(c, h, g)
  {
    var t := Task(g, r);
    OneTaskWork(c, h, t);
    match mode(g) {
      case AtOnce => FireWork(c, h, s, g);
      case Breaker =>
        if s.queue.None? {
          PushWork(c, h, s.(cells := Referenced(s.cells, r), queue := Some([])), Draining(t, false));
        } else {
          TasksWorkConcat(c, h, s.queue.value, [t]);
        }
      case Posting => TasksWorkConcat(c, h, s.posted, [t]);
    }
  }

  lemma TurnWork<W(!new), V>(c: Net<W, V>, h: W -> nat, mode: nat -> Mode, s: State<W, V>)
    requires WellFormed(c, h) && AllKnown(c, s) && AllLive(s.slot, s.cells) && SafeInner(c, mode, s) && Inner(s).Notifying?
    ensures AllKnown(c, Advance(c, mode, s)) && Work(c, h, Advance(c, mode, s)) < Work(c, h, s)
  {
    var f := Inner(s);
    PopWork(c, h, s);
    if f.taps != [] {
      var f' := Notifying(f.w, f.r, f.taps[1..]);
      ReplaceWork(c, h, s, f');
      if c.gates[f.taps[0].gate].enabled { NotifyWork(c, h, mode, Replace(s, f'), f.taps[0].gate, f.r); }
    }
  }

  // What is left of a gate's call before, inside and after the drive of port j.
  lemma {:induction false} PortWork<W(!new), V>(c: Net<W, V>, h: W -> nat, f: Frame<W, V>)
    requires WellFormed(c, h) && f.Driving? && f.gate < |c.gates| && f.j < |c.gates[f.gate].outs| && !f.driven
    ensures var inside, port := FrameWork(c, h, f.(driven := true)), c.gates[f.gate].outs[f.j];
      && FrameWork(c, h, f.(j := f.j + 1)) < inside < FrameWork(c, h, f)
      && (port.Some? ==> inside + WireWork(c, h, port.value) < FrameWork(c, h, f))
  {
  }

  lemma GivenWork<W(!new), V>(c: Net<W, V>, h: W -> nat, s: State<W, V>)
    requires WellFormed(c, h) && AllKnown(c, s) && s.stack != [] && Inner(s).Driving? && Inner(s).driven
    requires Inner(s).j < |Inner(s).hs| == |c.gates[Inner(s).gate].outs|
    requires Inner(s).hs[Inner(s).j].Made? ==> Inner(s).hs[Inner(s).j].id in s.cells
    ensures AllKnown(c, Given(s)) && Work(c, h, Given(s)) < Work(c, h, s)
  {
    var f := Inner(s);
    var f' := f.(j := f.j + 1, driven := false);
    PortWork(c, h, f.(driven := false));
    ReplaceWork(c, h, s, f');
    assert Work(c, h, Given(s)) == Work(c, h, Replace(s, f'));
  }

  lemma DriveStepWork<W(!new), V>(c: Net<W, V>, h: W -> nat, s: State<W, V>)
    requires WellFormed(c, h) && AllKnown(c, s) && AllLive(s.slot, s.cells) && SafeCall(c, s) && Inner(s).Driving?
    ensures AllKnown(c, DriveStep(c, s)) && Work(c, h, DriveStep(c, s)) < Work(c, h, s)
  {
    var f := Inner(s);
    if f.j == |f.hs| {
      PopWork(c, h, s);
    } else if f.driven {
      GivenWork(c, h, s);
    } else {
      var s1 := Replace(s, f.(driven := true));
      PortWork(c, h, f);
      ReplaceWork(c, h, s, f.(driven := true));
      if DriveStep(c, s) != s1 {
        DriveWireWork(c, h, s1, c.gates[f.gate].outs[f.j].value, Pointer(f.hs[f.j]));
      }
    }
  }

  lemma {:induction false} DriveWireWork<W(!new), V>(c: Net<W, V>, h: W -> nat, s: State<W, V>, w: W, r: Ref<V>)
    requires WellFormed(c, h) && AllKnown(c, s) && AllLive(s.slot, s.cells) && Live(r, s.cells)
    ensures AllKnown(c, DriveWire(c, s, w, r))
    ensures Work(c, h, DriveWire(c, s, w, r)) == Work(c, h, s) + WireWork(c, h, w)
  {
    var s1 := s.(slot := s.slot[w := r], cells := Imported(s.slot, s.cells, w, r));
    assert Work(c, h, s1) == Work(c, h, s);
    PushWork(c, h, s1, Notifying(w, r, Taps(c, w)));
  }

  lemma TaskDoneWork<W(!new), V>(c: Net<W, V>, h: W -> nat, s: State<W, V>)
    requires WellFormed(c, h) && AllKnown(c, s) && s.stack != [] && (Inner(s).Draining? || Inner(s).Posted?)
    requires Live(Inner(s).task.r, s.cells) && Inner(s).ran
    ensures AllKnown(c, TaskDone(s)) && Work(c, h, TaskDone(s)) < Work(c, h, s)
  {
    PopWork(c, h, s);
    if Inner(s).Draining? && Queued(s) != [] {
      PushWork(c, h, Pop(s).(queue := Some(Queued(s)[1..])), Draining(Queued(s)[0], false));
    }
  }

  lemma RunWork<W(!new), V>(c: Net<W, V>, h: W -> nat, s: State<W, V>)
    requires WellFormed(c, h) && AllKnown(c, s) && AllLive(s.slot, s.cells) && SafeCall(c, s)
    requires Inner(s).Draining? || Inner(s).Posted?
    ensures AllKnown(c, RunStep(c, s)) && Work(c, h, RunStep(c, s)) < Work(c, h, s)
  {
    if Inner(s).ran {
      TaskDoneWork(c, h, s);
    } else {
      ReplaceWork(c, h, s, Inner(s).(ran := true));
      FireWork(c, h, Begun(s), Inner(s).task.gate);
    }
  }

  lemma TakeWork<W(!new), V>(c: Net<W, V>, h: W -> nat, s: State<W, V>, i: nat)
    requires WellFormed(c, h) && AllKnown(c, s) && i < |s.posted|
    ensures var s' := Push(s.(posted := s.posted[..i] + s.posted[i + 1..]), Posted(s.posted[i], false));
      AllKnown(c, s') && Work(c, h, s') < Work(c, h, s)
  {
    var ts := s.posted;
    assert ts == ts[..i] + ts[i..] && ts[i..][1..] == ts[i + 1..];
    TasksWorkConcat(c, h, ts[..i], ts[i..]);
    TasksWorkConcat(c, h, ts[..i], ts[i + 1..]);
    PushWork(c, h, s.(posted := ts[..i] + ts[i + 1..]), Posted(ts[i], false));
  }

  // A step that no client makes.
  predicate Internal<W, V>(a: Action<W, V>) {
    a.Proceed? || a.Take?
  }

  /** Each step of the circuit and of the workers lowers the work left. */
  lemma WorkFalls<W(!new), V>(c: Net<W, V>, h: W -> nat, mode: nat -> Mode, s: State<W, V>, a: Action<W, V>)
    requires WellFormed(c, h) && AllKnown(c, s) && Enabled(c, s, a) && Safe(c, mode, s, a) && Internal(a)
    ensures AllKnown(c, Step(c, mode, s, a)) && Work(c, h, Step(c, mode, s, a)) < Work(c, h, s)
  {
    if a.Take? {
      TakeWork(c, h, s, a.i);
    } else {
      match Inner(s) {
        case Notifying(_, _, _) => TurnWork(c, h, mode, s);
        case Driving(_, _, _, _) => DriveStepWork(c, h, s);
        case _ => RunWork(c, h, s);
      }
    }
  }

  /** So no run without clients is longer than the work left at its start. */
  lemma {:induction false} RunsEnd<W(!new), V>(
    c: Net<W, V>, h: W -> nat, mode: nat -> Mode, s: State<W, V>, run: seq<Action<W, V>>)
    requires WellFormed(c, h) && AllKnown(c, s) && Legal(c, mode, s, run)
    requires forall i :: 0 <= i < |run| ==> Internal(run[i])
    ensures |run| <= Work(c, h, s)
    decreases |run|
  {
    if run != [] {
      WorkFalls(c, h, mode, s, run[0]);
      RunsEnd(c, h, mode, Step(c, mode, s, run[0]), run[1..]);
    }
  }

  // No call is in progress and no task is waiting.
  predicate AtRest<W, V>(s: State<W, V>) {
    s.stack == [] && s.posted == []
  }

  lemma NextInternal<W(!new), V(!new)>(c: Net<W, V>, h: W -> nat, mode: nat -> Mode, s: State<W, V>)
    returns (a: Action<W, V>)
    requires WellFormed(c, h) && Inv(c, h, s) && !AtRest(s)
    ensures Internal(a) && Enabled(c, s, a) && Safe(c, mode, s, a) && Inv(c, h, Step(c, mode, s, a))
  {
    a := if s.stack != [] then Proceed else Take(0);
    StepKeeps(c, h, mode, s, a);
  }

  /** And from every reachable state the circuit and the workers come to rest by themselves. */
  lemma {:induction false} ComesToRest<W(!new), V(!new)>(c: Net<W, V>, h: W -> nat, mode: nat -> Mode, s: State<W, V>)
    returns (run: seq<Action<W, V>>)
    requires WellFormed(c, h) && Inv(c, h, s)
    ensures Legal(c, mode, s, run) && (forall i :: 0 <= i < |run| ==> Internal(run[i]))
    ensures AtRest(After(c, mode, s, run))
    decreases (InvKnown(c, h, s); Work(c, h, s))
  {
    if AtRest(s) {
      run := [];
    } else {
      var a := NextInternal(c, h, mode, s);
      InvKnown(c, h, s);
      WorkFalls(c, h, mode, s, a);
      var rest := ComesToRest(c, h, mode, Step(c, mode, s, a));
      run := [a] + rest;
      assert run[1..] == rest;
    }
  }
}
