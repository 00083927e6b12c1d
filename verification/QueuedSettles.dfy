/** Whatever way the gates of an acyclic circuit are notified, once nothing is under way the wires hold the
    values that depth-first propagation settles at. */
module QueuedSettles {
  import opened Circuit
  import opened Options
  import opened ReferenceCounts
  import opened DirectBoard
  import opened QueuedBoard
  import opened QueuedBooks
  import opened QueuedCalls
  import D = DirectWires
  import QueuedEnds

  ghost function Val<W(!new), V>(s: State<W, V>): map<W, V>
    requires AllLive(s.slot, s.cells)
  {
    Values(s.slot, s.cells)
  }

  // ----- what is still going to be brought into agreement

  // The call will notify gate g, or run it, or drive its port j.
  ghost predicate FramePending<W, V>(f: Frame<W, V>, g: nat, j: nat) {
    match f
    case Notifying(_, _, taps) => exists k :: 0 <= k < |taps| && taps[k].gate == g
    case Driving(g', _, j', driven) => g' == g && (if driven then j' < j else j' <= j)
    case Draining(t, ran) => !ran && t.gate == g
    case Posted(t, ran) => !ran && t.gate == g
  }

  ghost predicate StackPending<W, V>(stack: seq<Frame<W, V>>, g: nat, j: nat) {
    exists i :: 0 <= i < |stack| && FramePending(stack[i], g, j)
  }

  ghost predicate TaskPending<V>(ts: seq<Task<V>>, g: nat) {
    exists k :: 0 <= k < |ts| && ts[k].gate == g
  }

  ghost predicate Pending<W, V>(s: State<W, V>, g: nat, j: nat) {
    StackPending(s.stack, g, j) || TaskPending(Queued(s), g) || TaskPending(s.posted, g)
  }

  // Every output port shows its gate's function of the current inputs, or is going to.
  ghost predicate Ports<W(!new), V>(c: Net<W, V>, s: State<W, V>) {
    AllLive(s.slot, s.cells) && forall g, j :: D.PortOk(c, Val(s), g, j) || Pending(s, g, j)
  }

  // The handle carries what the gate has for its port.
  ghost predicate Carries<V>(hd: Handle<V>, out: Option<V>, cells: map<nat, Cell<V>>) {
    if hd.Silent? then out == None else Live(Pointer(hd), cells) && out == Some(Value(Pointer(hd), cells))
  }

  // A gate that is driving still reads at its inputs what its outputs are made of.
  ghost predicate Current<W(!new), V>(c: Net<W, V>, s: State<W, V>, f: Frame<W, V>)
    requires AllLive(s.slot, s.cells)
  {
    f.Driving? ==>
      && f.gate < |c.gates| && |f.hs| == |c.gates[f.gate].outs| && Ready(c.gates[f.gate], Val(s))
      && forall k :: f.j <= k < |f.hs| ==>
           Carries(f.hs[k], Offered(c.gates[f.gate], Inputs(c.gates[f.gate], Val(s)), k), s.cells)
  }

  ghost predicate AllCurrent<W(!new), V>(c: Net<W, V>, s: State<W, V>) {
    AllLive(s.slot, s.cells) && forall i :: 0 <= i < |s.stack| ==> Current(c, s, s.stack[i])
  }

  // The sources hold what they were last driven with.
  ghost predicate SourcesOk<W(!new), V>(c: Net<W, V>, s: State<W, V>) {
    && AllLive(s.slot, s.cells)
    && (forall k :: 0 <= k < |s.log| ==> Source(c, s.log[k].0))
    && (forall x :: Source(c, x) ==> D.Same(D.Last(s.log), Val(s), x))
  }

  // ----- values along a step

  ghost predicate SameCells<V>(a: map<nat, Cell<V>>, b: map<nat, Cell<V>>) {
    forall id :: id in a && id in b ==> a[id].v == b[id].v
  }

  lemma ValKept<W(!new), V>(s: State<W, V>, s': State<W, V>)
    requires AllLive(s.slot, s.cells) && AllLive(s'.slot, s'.cells) && SameCells(s.cells, s'.cells) && s'.slot == s.slot
    ensures Val(s') == Val(s)
  {
    forall w | w in s.slot ensures Val(s')[w] == Val(s)[w] {
      assert Live(s.slot[w], s.cells) && Live(s.slot[w], s'.cells);
    }
  }

  lemma ValWritten<W(!new), V>(s: State<W, V>, s': State<W, V>, o: W, r: Ref<V>)
    requires AllLive(s.slot, s.cells) && AllLive(s'.slot, s'.cells) && SameCells(s.cells, s'.cells)
    requires s'.slot == s.slot[o := r] && Live(r, s.cells)
    ensures Val(s') == Val(s)[o := Value(r, s.cells)]
  {
    assert s'.slot[o] == r && Live(r, s'.cells);
    forall w | w in s.slot && w != o ensures Val(s')[w] == Val(s)[w] {
      assert Live(s.slot[w], s.cells) && s'.slot[w] == s.slot[w] && Live(s'.slot[w], s'.cells);
    }
  }

  lemma CountsSame<W(!new), V>(slot: map<W, Ref<V>>, cells: map<nat, Cell<V>>, w: W, r: Ref<V>)
    requires Live(r, cells) && (w in slot ==> Live(slot[w], cells))
    ensures SameCells(cells, Referenced(cells, r)) && SameCells(cells, Dropped(cells, r))
    ensures SameCells(cells, Imported(slot, cells, w, r))
  {
  }

  // What a step needs to know of memory: no slot points at freed memory, and new values get new identities.
  ghost predicate Sound<W(!new), V>(s: State<W, V>) {
    AllLive(s.slot, s.cells) && forall id :: id in s.cells ==> id < s.next
  }

  lemma FireSame<W(!new), V>(c: Net<W, V>, s: State<W, V>, g: nat)
    requires Sound(s) && g < |c.gates|
    ensures SameCells(s.cells, Fire(c, s, g).cells) && Fire(c, s, g).slot == s.slot
  {
  }

  lemma NotifySame<W(!new), V>(c: Net<W, V>, mode: nat -> Mode, s: State<W, V>, g: nat, r: Ref<V>)
    requires Sound(s) && g < |c.gates| && Handable(mode, s, g, r)
    ensures SameCells(s.cells, Notify(c, mode, s, g, r).cells) && Notify(c, mode, s, g, r).slot == s.slot
  {
    if mode(g) == AtOnce {
      FireSame(c, s, g);
    } else {
      assert Notify(c, mode, s, g, r).cells == Referenced(s.cells, r);
    }
  }

  lemma DriveStepSame<W(!new), V>(c: Net<W, V>, s: State<W, V>)
    requires Sound(s) && SafeCall(c, s) && Inner(s).Driving?
    ensures SameCells(s.cells, DriveStep(c, s).cells)
  {
    var f := Inner(s);
    if f.j < |f.hs| && !f.driven && c.gates[f.gate].outs[f.j].Some? && !f.hs[f.j].Silent? {
      var o := c.gates[f.gate].outs[f.j].value;
      assert o in s.slot ==> Live(s.slot[o], s.cells);
      CountsSame(s.slot, s.cells, o, Pointer(f.hs[f.j]));
    }
  }

  lemma TurnSame<W(!new), V>(c: Net<W, V>, mode: nat -> Mode, s: State<W, V>)
    requires Sound(s) && SafeInner(c, mode, s) && Inner(s).Notifying?
    ensures SameCells(s.cells, Advance(c, mode, s).cells) && Advance(c, mode, s).slot == s.slot
  {
    var f := Inner(s);
    if f.taps != [] && c.gates[f.taps[0].gate].enabled {
      NotifySame(c, mode, Replace(s, Notifying(f.w, f.r, f.taps[1..])), f.taps[0].gate, f.r);
    }
  }

  lemma DoneSame<W(!new), V>(s: State<W, V>)
    requires s.stack != [] && (Inner(s).Draining? || Inner(s).Posted?) && Live(Inner(s).task.r, s.cells)
    ensures SameCells(s.cells, TaskDone(s).cells) && TaskDone(s).slot == s.slot
  {
    TaskDoneFields(s);
  }

  lemma RunSame<W(!new), V>(c: Net<W, V>, s: State<W, V>)
    requires Sound(s) && SafeCall(c, s) && (Inner(s).Draining? || Inner(s).Posted?)
    ensures SameCells(s.cells, RunStep(c, s).cells) && RunStep(c, s).slot == s.slot
  {
    if Inner(s).ran {
      DoneSame(s);
    } else {
      FireSame(c, Begun(s), Inner(s).task.gate);
    }
  }

  // ----- gates that are driving

  lemma {:induction false} FrameRefsIn<W, V>(stack: seq<Frame<W, V>>, i: nat)
    requires i < |stack|
    ensures FrameRefs(stack[i]) <= StackRefs(stack)
    decreases |stack|
  {
    if i < |stack| - 1 { FrameRefsIn(stack[..|stack| - 1], i); }
  }

  lemma FrameOutside<W, V>(s: State<W, V>, i: nat, id: nat)
    requires i < |s.stack| && id in FrameRefs(s.stack[i])
    ensures id in Outside(s)
  {
    FrameRefsIn(s.stack, i);
    assert id in StackRefs(s.stack);
  }

  lemma OwnedHas<V>(hs: seq<Handle<V>>, j: nat, k: nat)
    requires j <= k < |hs| && hs[k].Made?
    ensures hs[k].id in Owned(hs[j..])
  {
    OwnedPart(hs[j..], k - j);
    assert hs[k].id in Owned([hs[k]]);
  }

  lemma HandleLive<W(!new), V>(c: Net<W, V>, h: W -> nat, s: State<W, V>, i: nat, k: nat)
    requires Books(s) && i < |s.stack| && FrameOk(c, h, s, i) && s.stack[i].Driving? && s.stack[i].j <= k < |s.stack[i].hs|
    ensures !s.stack[i].hs[k].Silent? ==> Live(Pointer(s.stack[i].hs[k]), s.cells)
  {
    var f := s.stack[i];
    assert HandleOk(c, h, s, f.gate, f.hs[k]);
    if f.hs[k].Made? {
      OwnedHas(f.hs, f.j, k);
      FrameOutside(s, i, f.hs[k].id);
    }
  }

  lemma CurrentKept<W(!new), V>(c: Net<W, V>, h: W -> nat, s: State<W, V>, s': State<W, V>, i: nat)
    requires Inv(c, h, s') && AllCurrent(c, s) && SameCells(s.cells, s'.cells)
    requires i < |s.stack| && i < |s'.stack| && s.stack[i].Driving? && s'.stack[i].Driving?
    requires s'.stack[i].gate == s.stack[i].gate && s'.stack[i].hs == s.stack[i].hs && s.stack[i].j <= s'.stack[i].j
    requires s.stack[i].gate < |c.gates| ==>
      forall x :: x in Wired(c.gates[s.stack[i].gate].ins) ==> (D.Same(Val(s), Val(s'), x))
    ensures Current(c, s', s'.stack[i])
  {
    var f, f' := s.stack[i], s'.stack[i];
    var gate := c.gates[f.gate];
    assert Current(c, s, f);
    D.InputsFrame(gate, Val(s), Val(s'));
    forall k | f'.j <= k < |f'.hs| ensures Carries(f'.hs[k], Offered(gate, Inputs(gate, Val(s')), k), s'.cells) {
      assert FrameOk(c, h, s', i);
      HandleLive(c, h, s', i, k);
      assert Carries(f.hs[k], Offered(gate, Inputs(gate, Val(s)), k), s.cells);
    }
  }

  // f' is f, or a later stage of it.
  ghost predicate Later<W, V>(f: Frame<W, V>, f': Frame<W, V>) {
    f'.Driving? ==> f.Driving? && f'.gate == f.gate && f'.hs == f.hs && f.j <= f'.j
  }

  // The calls of s' are calls of s that go on, or current ones that begin.
  ghost predicate Extends<W(!new), V>(c: Net<W, V>, s: State<W, V>, s': State<W, V>)
    requires AllLive(s'.slot, s'.cells)
  {
    forall i :: 0 <= i < |s'.stack| ==>
      (i < |s.stack| && Later(s.stack[i], s'.stack[i])) || !s'.stack[i].Driving? || Current(c, s', s'.stack[i])
  }

  lemma AllCurrentKept<W(!new), V>(c: Net<W, V>, h: W -> nat, s: State<W, V>, s': State<W, V>)
    requires Inv(c, h, s') && AllCurrent(c, s) && s'.slot == s.slot && SameCells(s.cells, s'.cells) && Extends(c, s, s')
    ensures AllCurrent(c, s')
  {
    ValKept(s, s');
    forall i | 0 <= i < |s'.stack| ensures Current(c, s', s'.stack[i]) {
      if i < |s.stack| && Later(s.stack[i], s'.stack[i]) && s'.stack[i].Driving? { CurrentKept(c, h, s, s', i); }
    }
  }

  lemma AllCurrentWritten<W(!new), V>(c: Net<W, V>, h: W -> nat, s: State<W, V>, s': State<W, V>, j: nat, o: W, r: Ref<V>)
    requires Inv(c, h, s) && Inv(c, h, s') && Acyclic(c, h) && AllCurrent(c, s) && SameCells(s.cells, s'.cells)
    requires s'.slot == s.slot[o := r] && Live(r, s.cells)
    requires s.stack != [] ==> Inner(s).Driving? && Drives(c, Inner(s).gate, j, o)
    requires |s'.stack| == |s.stack| + 1 && Inner(s').Notifying?
    requires forall i :: 0 <= i < |s.stack| ==> Later(s.stack[i], s'.stack[i])
    ensures AllCurrent(c, s')
  {
    ValWritten(s, s', o, r);
    forall i | 0 <= i < |s'.stack| ensures Current(c, s', s'.stack[i]) {
      if s'.stack[i].Driving? {
        WriteUntouched(c, h, s, j, o, i);
        CurrentKept(c, h, s, s', i);
      }
    }
  }

  lemma FiredCarries<W(!new), V>(c: Net<W, V>, s: State<W, V>, s': State<W, V>, g: nat, k: nat)
    requires g < |c.gates| && AllLive(s.slot, s.cells) && Ready(c.gates[g], Val(s)) && k < |c.gates[g].outs|
    requires (forall id :: id in s.cells ==> id < s.next) && s' == Fire(c, s, g)
    ensures Carries(Inner(s').hs[k], Offered(c.gates[g], Inputs(c.gates[g], Val(s)), k), s'.cells)
  {
    var gate := c.gates[g];
    var xs, ws := Inputs(gate, Val(s)), Wired(gate.ins);
    var os := gate.f(xs);
    if k < |os| && os[k].Pass? && os[k].index < |ws| {
      assert ws[os[k].index] in ws && Live(s.slot[ws[os[k].index]], s.cells);
    } else if k < |os| && os[k].Fresh? {
      assert Creates(os, |gate.outs|, s.next, s.next + k);
    }
  }

  lemma FiredCurrent<W(!new), V>(c: Net<W, V>, s: State<W, V>, g: nat)
    requires g < |c.gates| && Sound(s) && Ready(c.gates[g], Val(s)) && AllLive(s.slot, Fire(c, s, g).cells)
    ensures Current(c, Fire(c, s, g), Inner(Fire(c, s, g)))
  {
    var s' := Fire(c, s, g);
    ValKept(s, s');
    forall k | 0 <= k < |c.gates[g].outs|
      ensures Carries(Inner(s').hs[k], Offered(c.gates[g], Inputs(c.gates[g], Val(s)), k), s'.cells)
    {
      FiredCarries(c, s, s', g, k);
    }
  }

  // ----- pending work along a step

  lemma PushPending<W, V>(s: State<W, V>, f: Frame<W, V>, g: nat, j: nat)
    ensures Pending(s, g, j) ==> Pending(Push(s, f), g, j)
    ensures FramePending(f, g, j) ==> Pending(Push(s, f), g, j)
  {
    var s' := Push(s, f);
    assert s'.stack[|s.stack|] == f && forall i :: 0 <= i < |s.stack| ==> s'.stack[i] == s.stack[i];
  }

  lemma PopPending<W, V>(s: State<W, V>, g: nat, j: nat)
    requires s.stack != [] && Pending(s, g, j)
    ensures Pending(Pop(s), g, j) || FramePending(Inner(s), g, j)
  {
    assert forall i :: 0 <= i < |s.stack| - 1 ==> Pop(s).stack[i] == s.stack[i];
  }

  // The innermost call has gone on to f.
  lemma ReplacePending<W, V>(s: State<W, V>, f: Frame<W, V>, g: nat, j: nat)
    requires s.stack != [] && Pending(s, g, j)
    ensures Pending(Replace(s, f), g, j) || (FramePending(Inner(s), g, j) && !FramePending(f, g, j))
  {
    PopPending(s, g, j);
    PushPending(Pop(s), f, g, j);
  }

  lemma FirePending<W(!new), V>(c: Net<W, V>, s: State<W, V>, g: nat, g': nat, j: nat)
    requires g < |c.gates| && AllLive(s.slot, s.cells)
    ensures Pending(s, g', j) ==> Pending(Fire(c, s, g), g', j) && Pending(Execute(c, s, g), g', j)
    ensures Pending(Fire(c, s, g), g, j) || D.PortOk(c, Val(s), g, j)
    ensures Pending(Execute(c, s, g), g, j) || D.PortOk(c, Val(s), g, j)
  {
    var gate, val := c.gates[g], Val(s);
    if Ready(gate, val) {
      var os, refs, n := gate.f(Inputs(gate, val)), PointersOf(s.slot, Wired(gate.ins)), |gate.outs|;
      var s1 := s.(cells := s.cells + Born(os, n, s.next), next := s.next + n);
      assert Pending(s, g', j) ==> Pending(s1, g', j);
      PushPending(s1, Driving(g, Handles(os, refs, s.next, n), 0, false), g', j);
      PushPending(s1, Driving(g, Handles(os, refs, s.next, n), 0, false), g, j);
    }
  }

  lemma SnocPending<V>(ts: seq<Task<V>>, t: Task<V>, g: nat)
    ensures TaskPending(ts + [t], g) <==> TaskPending(ts, g) || t.gate == g
  {
    assert forall k :: 0 <= k < |ts| ==> (ts + [t])[k] == ts[k];
    assert (ts + [t])[|ts|] == t;
  }

  lemma NotifyPending<W(!new), V>(c: Net<W, V>, mode: nat -> Mode, s: State<W, V>, g: nat, r: Ref<V>, g': nat, j: nat)
    requires g < |c.gates| && AllLive(s.slot, s.cells) && Handable(mode, s, g, r)
    ensures Pending(s, g', j) ==> Pending(Notify(c, mode, s, g, r), g', j)
    ensures Pending(Notify(c, mode, s, g, r), g, j) || D.PortOk(c, Val(s), g, j)
  {
    var t := Task(g, r);
    match mode(g) {
      case AtOnce => FirePending(c, s, g, g', j);
      case Breaker =>
        if s.queue.None? {
          var s1 := s.(cells := Referenced(s.cells, r));
          PushPending(s1.(queue := Some([])), Draining(t, false), g', j);
          PushPending(s1.(queue := Some([])), Draining(t, false), g, j);
        } else {
          SnocPending(s.queue.value, t, g');
          SnocPending(s.queue.value, t, g);
        }
      case Posting =>
        SnocPending(s.posted, t, g');
        SnocPending(s.posted, t, g);
    }
  }

  // ----- ports along a step

  lemma PortsKept<W(!new), V>(c: Net<W, V>, s: State<W, V>, s': State<W, V>)
    requires Ports(c, s) && AllLive(s'.slot, s'.cells) && SameCells(s.cells, s'.cells) && s'.slot == s.slot
    requires forall g, j :: Pending(s, g, j) ==> Pending(s', g, j) || D.PortOk(c, Val(s), g, j)
    ensures Ports(c, s')
  {
    ValKept(s, s');
    forall g: nat, j: nat ensures D.PortOk(c, Val(s'), g, j) || Pending(s', g, j) {
      assert D.PortOk(c, Val(s), g, j) || Pending(s, g, j);
    }
  }

  lemma TurnPorts<W(!new), V>(c: Net<W, V>, mode: nat -> Mode, s: State<W, V>)
    requires Sound(s) && SafeInner(c, mode, s) && Inner(s).Notifying? && Ports(c, s) && Sound(Advance(c, mode, s))
    ensures Ports(c, Advance(c, mode, s))
  {
    var f, s' := Inner(s), Advance(c, mode, s);
    TurnSame(c, mode, s);
    forall g: nat, j: nat | Pending(s, g, j) ensures Pending(s', g, j) || D.PortOk(c, Val(s), g, j) {
      TurnPending(c, mode, s, g, j);
    }
    PortsKept(c, s, s');
  }

  lemma TurnPending<W(!new), V>(c: Net<W, V>, mode: nat -> Mode, s: State<W, V>, g: nat, j: nat)
    requires AllLive(s.slot, s.cells) && SafeInner(c, mode, s) && Inner(s).Notifying? && Pending(s, g, j)
    ensures Pending(Advance(c, mode, s), g, j) || D.PortOk(c, Val(s), g, j)
  {
    var f := Inner(s);
    if f.taps == [] {
      PopPending(s, g, j);
    } else {
      var f', g0 := Notifying(f.w, f.r, f.taps[1..]), f.taps[0].gate;
      var s1 := Replace(s, f');
      ReplacePending(s, f', g, j);
      RestPending(f.w, f.r, f.taps, g, j);
      if c.gates[g0].enabled { NotifyPending(c, mode, s1, g0, f.r, g, j); }
    }
  }

  lemma RestPending<W, V>(w: W, r: Ref<V>, taps: seq<Tap>, g: nat, j: nat)
    requires taps != []
    ensures FramePending(Notifying(w, r, taps), g, j) ==> taps[0].gate == g || FramePending(Notifying(w, r, taps[1..]), g, j)
  {
    if FramePending(Notifying(w, r, taps), g, j) {
      var k :| 0 <= k < |taps| && taps[k].gate == g;
      if k > 0 { assert taps[1..][k - 1] == taps[k]; }
    }
  }

  lemma RunPorts<W(!new), V>(c: Net<W, V>, s: State<W, V>)
    requires Sound(s) && SafeCall(c, s) && (Inner(s).Draining? || Inner(s).Posted?) && Ports(c, s)
    requires Sound(RunStep(c, s))
    ensures Ports(c, RunStep(c, s))
  {
    RunSame(c, s);
    forall g: nat, j: nat | Pending(s, g, j) ensures Pending(RunStep(c, s), g, j) || D.PortOk(c, Val(s), g, j) {
      RunPending(c, s, g, j);
    }
    PortsKept(c, s, RunStep(c, s));
  }

  lemma RunPending<W(!new), V>(c: Net<W, V>, s: State<W, V>, g: nat, j: nat)
    requires AllLive(s.slot, s.cells) && SafeCall(c, s) && (Inner(s).Draining? || Inner(s).Posted?) && Pending(s, g, j)
    ensures Pending(RunStep(c, s), g, j) || D.PortOk(c, Val(s), g, j)
  {
    if Inner(s).ran {
      DonePending(s, g, j);
    } else {
      ReplacePending(s, Inner(s).(ran := true), g, j);
      FirePending(c, Begun(s), Inner(s).task.gate, g, j);
    }
  }

  lemma DonePending<W, V>(s: State<W, V>, g: nat, j: nat)
    requires s.stack != [] && (Inner(s).Draining? || Inner(s).Posted?) && Live(Inner(s).task.r, s.cells)
    requires Inner(s).ran && Pending(s, g, j)
    ensures Pending(TaskDone(s), g, j)
  {
    PopPending(s, g, j);
    if Inner(s).Draining? && Queued(s) != [] {
      var ts, s1 := Queued(s), Pop(s).(queue := Some(Queued(s)[1..]));
      if TaskPending(ts, g) {
        var k :| 0 <= k < |ts| && ts[k].gate == g;
        if k > 0 { assert ts[1..][k - 1] == ts[k]; }
      }
      PushPending(s1, Draining(ts[0], false), g, j);
    }
  }

  // ----- the drive of a port

  // The step is one of the gate's own: it drives no wire.
  ghost predicate Quiet<W(!new), V>(c: Net<W, V>, s: State<W, V>)
    requires AllLive(s.slot, s.cells) && SafeCall(c, s) && Inner(s).Driving?
  {
    var f := Inner(s);
    f.j == |f.hs| || f.driven || DriveStep(c, s) == Replace(s, f.(driven := true))
  }

  // A port that is not driven shows nothing.
  lemma SilentPort<W(!new), V>(c: Net<W, V>, s: State<W, V>, j: nat)
    requires AllCurrent(c, s) && s.stack != [] && Inner(s).Driving? && SafeCall(c, s)
    requires var f := Inner(s); j == f.j && !f.driven && (f.j == |f.hs| || DriveStep(c, s) == Replace(s, f.(driven := true)))
    ensures Inner(s).j == |Inner(s).hs| ==> forall j' :: j <= j' ==> D.PortOk(c, Val(s), Inner(s).gate, j')
    ensures D.PortOk(c, Val(s), Inner(s).gate, j)
  {
    var f := Inner(s);
    assert Current(c, s, f);
    if f.j < |f.hs| {
      assert Carries(f.hs[j], Offered(c.gates[f.gate], Inputs(c.gates[f.gate], Val(s)), j), s.cells);
    }
  }

  // The step of a gate that drives nothing.
  lemma QuietPorts<W(!new), V>(c: Net<W, V>, s: State<W, V>)
    requires Sound(s) && AllCurrent(c, s) && Ports(c, s) && SafeCall(c, s) && Inner(s).Driving?
    requires Sound(DriveStep(c, s))
    requires Quiet(c, s) && (Inner(s).driven ==> Inner(s).j < |Inner(s).hs|)
    ensures Ports(c, DriveStep(c, s))
  {
    var f, s' := Inner(s), DriveStep(c, s);
    DriveStepSame(c, s);
    if !f.driven { SilentPort(c, s, f.j); }
    forall g: nat, j: nat | Pending(s, g, j) ensures Pending(s', g, j) || D.PortOk(c, Val(s), g, j) {
      if f.j == |f.hs| {
        PopPending(s, g, j);
      } else {
        ReplacePending(s, if f.driven then f.(j := f.j + 1, driven := false) else f.(driven := true), g, j);
      }
    }
    PortsKept(c, s, s');
  }

  // The readers of o are about to be notified.
  lemma ReadersPending<W(!new), V>(c: Net<W, V>, o: W, r: Ref<V>, g: nat, j: nat)
    requires Agrees(c) && Reads(c, g, o)
    ensures FramePending(Notifying(o, r, Taps(c, o)), g, j)
  {
    var p: nat :| p < |c.gates[g].ins| && c.gates[g].ins[p] == Some(o);
    assert IsTap(c, o, Tap(g, p));
    assert Tap(g, p) in Taps(c, o);
  }

  lemma WrittenPorts<W(!new), V>(c: Net<W, V>, s: State<W, V>, s': State<W, V>, o: W, r: Ref<V>)
    requires Ports(c, s) && AllLive(s'.slot, s'.cells) && SameCells(s.cells, s'.cells)
    requires s'.slot == s.slot[o := r] && Live(r, s.cells)
    requires forall g, j :: Pending(s, g, j) && !Drives(c, g, j, o) ==> Pending(s', g, j) || D.PortOk(c, Val(s'), g, j)
    requires forall g, j :: Reads(c, g, o) ==> Pending(s', g, j)
    requires forall g, j :: Drives(c, g, j, o) ==> D.PortOk(c, Val(s'), g, j)
    ensures Ports(c, s')
  {
    ValWritten(s, s', o, r);
    forall g: nat, j: nat ensures D.PortOk(c, Val(s'), g, j) || Pending(s', g, j) {
      if !Reads(c, g, o) && !Drives(c, g, j, o) && D.PortOk(c, Val(s), g, j) {
        if g < |c.gates| { WiredIs(c.gates[g].ins); }
        D.PortFrame(c, Val(s), Val(s'), g, j);
      }
      assert D.PortOk(c, Val(s), g, j) || Pending(s, g, j);
    }
  }

  // The wire of port j shows what the gate makes of its inputs.
  lemma DrivenPort<W(!new), V>(c: Net<W, V>, h: W -> nat, val: map<W, V>, val': map<W, V>, g: nat, j: nat, o: W, v: V)
    requires WellFormed(c, h) && Drives(c, g, j, o) && val' == val[o := v] && Ready(c.gates[g], val)
    requires Out(c.gates[g], Inputs(c.gates[g], val), j) == Some(v)
    ensures D.PortOk(c, val', g, j)
  {
    D.InputsAbove(c, h, g);
    D.InputsFrame(c.gates[g], val, val');
  }

  lemma PortPorts<W(!new), V>(c: Net<W, V>, h: W -> nat, s: State<W, V>)
    requires WellFormed(c, h) && Sound(s) && AllCurrent(c, s) && Ports(c, s) && SafeCall(c, s) && Inner(s).Driving?
    requires !Quiet(c, s) && Sound(DriveStep(c, s))
    ensures Ports(c, DriveStep(c, s))
  {
    var f, s' := Inner(s), DriveStep(c, s);
    var gate, s1 := c.gates[f.gate], Replace(s, f.(driven := true));
    var o, r := gate.outs[f.j].value, Pointer(f.hs[f.j]);
    DriveStepSame(c, s);
    ValWritten(s, s', o, r);
    assert Current(c, s, f);
    assert Carries(f.hs[f.j], Offered(gate, Inputs(gate, Val(s)), f.j), s.cells);
    assert Drives(c, f.gate, f.j, o);
    DrivenPort(c, h, Val(s), Val(s'), f.gate, f.j, o, Value(r, s.cells));
    forall g: nat, j: nat | Pending(s, g, j) && !Drives(c, g, j, o) ensures Pending(s', g, j) || D.PortOk(c, Val(s'), g, j) {
      ReplacePending(s, f.(driven := true), g, j);
      WritePending(c, s1, o, r, g, j);
    }
    forall g: nat, j: nat | Reads(c, g, o) ensures Pending(s', g, j) {
      WritePending(c, s1, o, r, g, j);
    }
    WrittenPorts(c, s, s', o, r);
  }

  lemma WritePending<W(!new), V>(c: Net<W, V>, s: State<W, V>, o: W, r: Ref<V>, g: nat, j: nat)
    requires Agrees(c) && AllLive(s.slot, s.cells) && Live(r, s.cells)
    ensures Pending(s, g, j) || Reads(c, g, o) ==> Pending(DriveWire(c, s, o, r), g, j)
  {
    var s1 := s.(slot := s.slot[o := r], cells := Imported(s.slot, s.cells, o, r));
    PushPending(s1, Notifying(o, r, Taps(c, o)), g, j);
    if Reads(c, g, o) { ReadersPending(c, o, r, g, j); }
  }

  // ----- which calls go on

  lemma FireExtends<W(!new), V>(c: Net<W, V>, s: State<W, V>, s0: State<W, V>, g: nat)
    requires Sound(s) && g < |c.gates| && AllLive(s.slot, Fire(c, s, g).cells)
    requires |s0.stack| == |s.stack| && forall i :: 0 <= i < |s.stack| ==> Later(s0.stack[i], s.stack[i])
    ensures Extends(c, s0, Fire(c, s, g)) && (AllLive(s.slot, Execute(c, s, g).cells) ==> Extends(c, s0, Execute(c, s, g)))
  {
    if Ready(c.gates[g], Val(s)) { FiredCurrent(c, s, g); }
  }

  lemma NotifyExtends<W(!new), V>(c: Net<W, V>, mode: nat -> Mode, s: State<W, V>, s0: State<W, V>, g: nat, r: Ref<V>)
    requires Sound(s) && g < |c.gates| && Handable(mode, s, g, r) && AllLive(s.slot, Notify(c, mode, s, g, r).cells)
    requires |s0.stack| == |s.stack| && forall i :: 0 <= i < |s.stack| ==> Later(s0.stack[i], s.stack[i])
    requires Notify(c, mode, s, g, r).slot == s.slot
    ensures Extends(c, s0, Notify(c, mode, s, g, r))
  {
    if mode(g) == AtOnce { FireExtends(c, s, s0, g); }
  }

  lemma TurnExtends<W(!new), V>(c: Net<W, V>, mode: nat -> Mode, s: State<W, V>)
    requires Sound(s) && SafeInner(c, mode, s) && Inner(s).Notifying? && Sound(Advance(c, mode, s))
    ensures Extends(c, s, Advance(c, mode, s))
  {
    var f := Inner(s);
    if f.taps != [] {
      var s1, g := Replace(s, Notifying(f.w, f.r, f.taps[1..])), f.taps[0].gate;
      assert forall i :: 0 <= i < |s.stack| - 1 ==> s1.stack[i] == s.stack[i];
      if c.gates[g].enabled {
        NotifySame(c, mode, s1, g, f.r);
        NotifyExtends(c, mode, s1, s, g, f.r);
      }
    }
  }

  lemma TurnCurrent<W(!new), V>(c: Net<W, V>, h: W -> nat, mode: nat -> Mode, s: State<W, V>)
    requires Sound(s) && AllCurrent(c, s) && SafeInner(c, mode, s) && Inner(s).Notifying? && Inv(c, h, Advance(c, mode, s))
    ensures AllCurrent(c, Advance(c, mode, s))
  {
    TurnSame(c, mode, s);
    TurnExtends(c, mode, s);
    AllCurrentKept(c, h, s, Advance(c, mode, s));
  }

  lemma BegunLater<W, V>(s: State<W, V>)
    requires s.stack != [] && (Inner(s).Draining? || Inner(s).Posted?)
    ensures |Begun(s).stack| == |s.stack| && forall i :: 0 <= i < |s.stack| ==> Later(s.stack[i], Begun(s).stack[i])
  {
    assert forall i :: 0 <= i < |s.stack| - 1 ==> Begun(s).stack[i] == s.stack[i];
  }

  lemma DoneExtends<W(!new), V>(c: Net<W, V>, s: State<W, V>)
    requires s.stack != [] && (Inner(s).Draining? || Inner(s).Posted?) && Live(Inner(s).task.r, s.cells)
    requires AllLive(TaskDone(s).slot, TaskDone(s).cells)
    ensures Extends(c, s, TaskDone(s))
  {
  }

  lemma RunExtends<W(!new), V>(c: Net<W, V>, s: State<W, V>)
    requires Sound(s) && SafeCall(c, s) && (Inner(s).Draining? || Inner(s).Posted?) && Sound(RunStep(c, s))
    ensures Extends(c, s, RunStep(c, s))
  {
    RunSame(c, s);
    if Inner(s).ran {
      DoneExtends(c, s);
    } else {
      BegunLater(s);
      if c.gates[Inner(s).task.gate].enabled { FireExtends(c, Begun(s), s, Inner(s).task.gate); }
    }
  }

  lemma RunCurrent<W(!new), V>(c: Net<W, V>, h: W -> nat, s: State<W, V>)
    requires Sound(s) && AllCurrent(c, s) && SafeCall(c, s) && (Inner(s).Draining? || Inner(s).Posted?)
    requires Inv(c, h, RunStep(c, s))
    ensures AllCurrent(c, RunStep(c, s))
  {
    RunSame(c, s);
    RunExtends(c, s);
    AllCurrentKept(c, h, s, RunStep(c, s));
  }

  lemma QuietExtends<W(!new), V>(c: Net<W, V>, s: State<W, V>)
    requires Sound(s) && SafeCall(c, s) && Inner(s).Driving? && Quiet(c, s) && Sound(DriveStep(c, s))
    ensures DriveStep(c, s).slot == s.slot && Extends(c, s, DriveStep(c, s))
  {
  }

  lemma QuietCurrent<W(!new), V>(c: Net<W, V>, h: W -> nat, s: State<W, V>)
    requires Sound(s) && AllCurrent(c, s) && SafeCall(c, s) && Inner(s).Driving? && Quiet(c, s) && Inv(c, h, DriveStep(c, s))
    ensures AllCurrent(c, DriveStep(c, s))
  {
    DriveStepSame(c, s);
    QuietExtends(c, s);
    AllCurrentKept(c, h, s, DriveStep(c, s));
  }

  lemma PortLater<W(!new), V>(c: Net<W, V>, s: State<W, V>)
    requires AllLive(s.slot, s.cells) && SafeCall(c, s) && Inner(s).Driving? && !Quiet(c, s)
    ensures var f, s' := Inner(s), DriveStep(c, s);
      && f.j < |f.hs| && c.gates[f.gate].outs[f.j].Some? && !f.hs[f.j].Silent? && Drives(c, f.gate, f.j, c.gates[f.gate].outs[f.j].value)
      && s'.slot == s.slot[c.gates[f.gate].outs[f.j].value := Pointer(f.hs[f.j])]
      && |s'.stack| == |s.stack| + 1 && Inner(s').Notifying?
      && forall i :: 0 <= i < |s.stack| ==> Later(s.stack[i], s'.stack[i])
  {
  }

  lemma PortCurrent<W(!new), V>(c: Net<W, V>, h: W -> nat, s: State<W, V>)
    requires Inv(c, h, s) && Acyclic(c, h) && AllCurrent(c, s) && SafeCall(c, s) && Inner(s).Driving? && !Quiet(c, s)
    requires Inv(c, h, DriveStep(c, s))
    ensures AllCurrent(c, DriveStep(c, s))
  {
    var f := Inner(s);
    DriveStepSame(c, s);
    PortLater(c, s);
    AllCurrentWritten(c, h, s, DriveStep(c, s), f.j, c.gates[f.gate].outs[f.j].value, Pointer(f.hs[f.j]));
  }

  // ----- the sources

  lemma SourcesKept<W(!new), V>(c: Net<W, V>, s: State<W, V>, s': State<W, V>)
    requires SourcesOk(c, s) && AllLive(s'.slot, s'.cells) && SameCells(s.cells, s'.cells) && s'.log == s.log
    requires forall x :: Source(c, x) ==> (x in s'.slot <==> x in s.slot) && (x in s.slot ==> s'.slot[x] == s.slot[x])
    ensures SourcesOk(c, s')
  {
    forall x | Source(c, x) ensures D.Same(D.Last(s'.log), Val(s'), x) {
      if x in s.slot { assert Live(s.slot[x], s.cells) && Live(s'.slot[x], s'.cells); }
    }
  }

  lemma SourceDriven<W(!new), V>(c: Net<W, V>, s: State<W, V>, s': State<W, V>, w: W, r: Ref<V>)
    requires SourcesOk(c, s) && AllLive(s'.slot, s'.cells) && SameCells(s.cells, s'.cells) && Source(c, w)
    requires Live(r, s.cells) && s'.slot == s.slot[w := r] && s'.log == s.log + [(w, Value(r, s.cells))]
    ensures SourcesOk(c, s')
  {
    ValWritten(s, s', w, r);
    assert s'.log[..|s.log|] == s.log;
    assert D.Last(s'.log) == D.Last(s.log)[w := Value(r, s.cells)];
  }

  // ----- the invariant

  ghost predicate Settling<W(!new), V>(c: Net<W, V>, h: W -> nat, s: State<W, V>) {
    Inv(c, h, s) && AllCurrent(c, s) && Ports(c, s) && SourcesOk(c, s)
  }

  lemma TurnSettling<W(!new), V(!new)>(c: Net<W, V>, h: W -> nat, mode: nat -> Mode, s: State<W, V>)
    requires WellFormed(c, h) && Settling(c, h, s) && SafeInner(c, mode, s) && !Inner(s).Driving? && Inv(c, h, Advance(c, mode, s))
    ensures Settling(c, h, Advance(c, mode, s))
  {
    if Inner(s).Notifying? {
      TurnSame(c, mode, s);
      TurnCurrent(c, h, mode, s);
      TurnPorts(c, mode, s);
    } else {
      RunSame(c, s);
      RunCurrent(c, h, s);
      RunPorts(c, s);
    }
    AdvanceLog(c, mode, s);
    SourcesKept(c, s, Advance(c, mode, s));
  }

  lemma AdvanceLog<W(!new), V>(c: Net<W, V>, mode: nat -> Mode, s: State<W, V>)
    requires AllLive(s.slot, s.cells) && SafeInner(c, mode, s)
    ensures Advance(c, mode, s).log == s.log
  {
  }

  lemma DriveSources<W(!new), V>(c: Net<W, V>, s: State<W, V>)
    requires SourcesOk(c, s) && Sound(s) && SafeCall(c, s) && Inner(s).Driving? && Sound(DriveStep(c, s))
    ensures SourcesOk(c, DriveStep(c, s))
  {
    DriveStepSame(c, s);
    if Quiet(c, s) { QuietExtends(c, s); } else { PortLater(c, s); }
    SourcesKept(c, s, DriveStep(c, s));
  }

  lemma DriveSettling<W(!new), V(!new)>(c: Net<W, V>, h: W -> nat, s: State<W, V>)
    requires WellFormed(c, h) && Settling(c, h, s) && SafeCall(c, s) && Inner(s).Driving? && Inv(c, h, DriveStep(c, s))
    ensures Settling(c, h, DriveStep(c, s))
  {
    assert FrameOk(c, h, s, |s.stack| - 1);
    DriveSources(c, s);
    if Quiet(c, s) {
      QuietCurrent(c, h, s);
      QuietPorts(c, s);
    } else {
      PortCurrent(c, h, s);
      PortPorts(c, h, s);
    }
  }

  // ----- what clients and workers do

  lemma MemorySettling<W(!new), V>(c: Net<W, V>, h: W -> nat, s: State<W, V>, s': State<W, V>)
    requires Settling(c, h, s) && Inv(c, h, s') && SameCells(s.cells, s'.cells)
    requires s' == s.(cells := s'.cells, next := s'.next, client := s'.client) && s.stack == []
    ensures Settling(c, h, s')
  {
    PortsKept(c, s, s');
    SourcesKept(c, s, s');
  }

  lemma KickCurrent<W(!new), V>(c: Net<W, V>, h: W -> nat, mode: nat -> Mode, s: State<W, V>, g: nat, r: Ref<V>)
    requires Sound(s) && AllCurrent(c, s) && g < |c.gates| && Handable(mode, s, g, r) && Inv(c, h, Notify(c, mode, s, g, r))
    ensures AllCurrent(c, Notify(c, mode, s, g, r))
  {
    NotifySame(c, mode, s, g, r);
    NotifyExtends(c, mode, s, s, g, r);
    AllCurrentKept(c, h, s, Notify(c, mode, s, g, r));
  }

  lemma KickPorts<W(!new), V>(c: Net<W, V>, mode: nat -> Mode, s: State<W, V>, g: nat, r: Ref<V>)
    requires Sound(s) && Ports(c, s) && g < |c.gates| && Handable(mode, s, g, r) && Sound(Notify(c, mode, s, g, r))
    ensures Ports(c, Notify(c, mode, s, g, r))
  {
    var s' := Notify(c, mode, s, g, r);
    NotifySame(c, mode, s, g, r);
    forall g': nat, j: nat | Pending(s, g', j) ensures Pending(s', g', j) {
      NotifyPending(c, mode, s, g, r, g', j);
    }
    PortsKept(c, s, s');
  }

  lemma KickSettling<W(!new), V>(c: Net<W, V>, h: W -> nat, mode: nat -> Mode, s: State<W, V>, g: nat, r: Ref<V>)
    requires Settling(c, h, s) && g < |c.gates| && Handable(mode, s, g, r) && Inv(c, h, Notify(c, mode, s, g, r))
    ensures Settling(c, h, Notify(c, mode, s, g, r))
  {
    KickCurrent(c, h, mode, s, g, r);
    KickPorts(c, mode, s, g, r);
    KickSources(c, mode, s, g, r);
  }

  lemma KickSources<W(!new), V>(c: Net<W, V>, mode: nat -> Mode, s: State<W, V>, g: nat, r: Ref<V>)
    requires Sound(s) && SourcesOk(c, s) && g < |c.gates| && Handable(mode, s, g, r) && Sound(Notify(c, mode, s, g, r))
    ensures SourcesOk(c, Notify(c, mode, s, g, r))
  {
    NotifySame(c, mode, s, g, r);
    SourcesKept(c, s, Notify(c, mode, s, g, r));
  }

  lemma SourceSettling<W(!new), V>(c: Net<W, V>, h: W -> nat, s: State<W, V>, w: W, r: Ref<V>, s': State<W, V>)
    requires WellFormed(c, h) && Settling(c, h, s) && s.stack == [] && Source(c, w) && Live(r, s.cells)
    requires s' == DriveWire(c, s.(log := s.log + [(w, Value(r, s.cells))]), w, r) && Inv(c, h, s')
    ensures Settling(c, h, s')
  {
    var s1 := s.(log := s.log + [(w, Value(r, s.cells))]);
    CountsSame(s.slot, s.cells, w, r);
    AllCurrentWritten(c, h, s, s', 0, w, r);
    forall g: nat, j: nat ensures Pending(s, g, j) || Reads(c, g, w) ==> Pending(s', g, j) {
      WritePending(c, s1, w, r, g, j);
    }
    WrittenPorts(c, s, s', w, r);
    SourceDriven(c, s, s', w, r);
  }

  lemma TakeSettling<W(!new), V>(c: Net<W, V>, h: W -> nat, s: State<W, V>, i: nat, s': State<W, V>)
    requires Settling(c, h, s) && s.stack == [] && i < |s.posted|
    requires s' == Push(s.(posted := s.posted[..i] + s.posted[i + 1..]), Posted(s.posted[i], false)) && Inv(c, h, s')
    ensures Settling(c, h, s')
  {
    forall g: nat, j: nat | Pending(s, g, j) ensures Pending(s', g, j) {
      TakePending(s, i, s', g, j);
    }
    PortsKept(c, s, s');
    SourcesKept(c, s, s');
  }

  lemma TakePending<W, V>(s: State<W, V>, i: nat, s': State<W, V>, g: nat, j: nat)
    requires i < |s.posted| && Pending(s, g, j)
    requires s' == Push(s.(posted := s.posted[..i] + s.posted[i + 1..]), Posted(s.posted[i], false))
    ensures Pending(s', g, j)
  {
    var s1 := s.(posted := s.posted[..i] + s.posted[i + 1..]);
    PushPending(s1, Posted(s.posted[i], false), g, j);
    if TaskPending(s.posted, g) {
      var k :| 0 <= k < |s.posted| && s.posted[k].gate == g;
      if k < i {
        assert s1.posted[k] == s.posted[k];
      } else if k > i {
        assert s1.posted[k - 1] == s.posted[k];
      }
    }
  }

  // Clients drive sources only.
  ghost predicate OnSources<W(!new), V>(c: Net<W, V>, a: Action<W, V>) {
    a.Drive? ==> Source(c, a.w)
  }

  lemma StepSettling<W(!new), V(!new)>(c: Net<W, V>, h: W -> nat, mode: nat -> Mode, s: State<W, V>, a: Action<W, V>)
    requires WellFormed(c, h) && Settling(c, h, s) && Enabled(c, s, a) && OnSources(c, a)
    ensures Safe(c, mode, s, a) && Settling(c, h, Step(c, mode, s, a))
  {
    StepKeeps(c, h, mode, s, a);
    match a {
      case Drive(_, _) => DriveCall(c, h, mode, s, a);
      case Kick(_, _) => KickCall(c, h, mode, s, a);
      case Take(_) => TakeCall(c, h, mode, s, a);
      case Proceed => AdvanceSettling(c, h, mode, s);
      case _ => MemoryCall(c, h, mode, s, a);
    }
  }

  lemma MemoryCall<W(!new), V(!new)>(c: Net<W, V>, h: W -> nat, mode: nat -> Mode, s: State<W, V>, a: Action<W, V>)
    requires Settling(c, h, s) && (a.New? || a.Hold? || a.Give?) && Enabled(c, s, a) && Safe(c, mode, s, a)
    requires Inv(c, h, Step(c, mode, s, a))
    ensures Settling(c, h, Step(c, mode, s, a))
  {
    CallIs(c, mode, s, a);
    MemorySame(c, mode, s, a);
    MemorySettling(c, h, s, Step(c, mode, s, a));
  }

  lemma AdvanceSettling<W(!new), V(!new)>(c: Net<W, V>, h: W -> nat, mode: nat -> Mode, s: State<W, V>)
    requires WellFormed(c, h) && Settling(c, h, s) && SafeInner(c, mode, s) && Inv(c, h, Advance(c, mode, s))
    ensures Settling(c, h, Advance(c, mode, s))
  {
    if Inner(s).Driving? {
      assert Advance(c, mode, s) == DriveStep(c, s);
      DriveSettling(c, h, s);
    } else {
      TurnSettling(c, h, mode, s);
    }
  }

  lemma CallIs<W(!new), V>(c: Net<W, V>, mode: nat -> Mode, s: State<W, V>, a: Action<W, V>)
    requires Enabled(c, s, a) && Safe(c, mode, s, a)
    ensures s.stack == [] || a.Proceed?
    ensures a.Drive? ==> Live(a.r, s.cells)
    ensures a.Kick? ==> a.gate < |c.gates| && Handable(mode, s, a.gate, a.r)
    ensures var s' := Step(c, mode, s, a);
      && (a.Drive? ==> s' == DriveWire(c, s.(log := s.log + [(a.w, Value(a.r, s.cells))]), a.w, a.r))
      && (a.Kick? ==> s' == Notify(c, mode, s, a.gate, a.r))
      && (a.Take? ==> s' == Push(s.(posted := s.posted[..a.i] + s.posted[a.i + 1..]), Posted(s.posted[a.i], false)))
  {
  }

  lemma KickCall<W(!new), V(!new)>(c: Net<W, V>, h: W -> nat, mode: nat -> Mode, s: State<W, V>, a: Action<W, V>)
    requires Settling(c, h, s) && a.Kick? && Enabled(c, s, a) && Safe(c, mode, s, a) && Inv(c, h, Step(c, mode, s, a))
    ensures Settling(c, h, Step(c, mode, s, a))
  {
    CallIs(c, mode, s, a);
    KickSettling(c, h, mode, s, a.gate, a.r);
  }

  lemma DriveCall<W(!new), V(!new)>(c: Net<W, V>, h: W -> nat, mode: nat -> Mode, s: State<W, V>, a: Action<W, V>)
    requires WellFormed(c, h) && Settling(c, h, s) && a.Drive? && Source(c, a.w) && Enabled(c, s, a) && Safe(c, mode, s, a)
    requires Inv(c, h, Step(c, mode, s, a))
    ensures Settling(c, h, Step(c, mode, s, a))
  {
    CallIs(c, mode, s, a);
    SourceSettling(c, h, s, a.w, a.r, Step(c, mode, s, a));
  }

  lemma TakeCall<W(!new), V(!new)>(c: Net<W, V>, h: W -> nat, mode: nat -> Mode, s: State<W, V>, a: Action<W, V>)
    requires Settling(c, h, s) && a.Take? && Enabled(c, s, a) && Safe(c, mode, s, a) && Inv(c, h, Step(c, mode, s, a))
    ensures Settling(c, h, Step(c, mode, s, a))
  {
    CallIs(c, mode, s, a);
    TakeSettling(c, h, s, a.i, Step(c, mode, s, a));
  }

  lemma MemorySame<W(!new), V>(c: Net<W, V>, mode: nat -> Mode, s: State<W, V>, a: Action<W, V>)
    requires Sound(s) && Enabled(c, s, a) && Safe(c, mode, s, a) && (a.New? || a.Hold? || a.Give?)
    ensures var s' := Step(c, mode, s, a);
      SameCells(s.cells, s'.cells) && s' == s.(cells := s'.cells, next := s'.next, client := s'.client)
  {
    match a {
      case Hold(w) => CountsSame(s.slot, s.cells, w, s.slot[w]);
      case Give(id) => GiveSame(s, id);
      case New(_) =>
    }
  }

  lemma GiveSame<W(!new), V>(s: State<W, V>, id: nat)
    requires id in s.cells
    ensures SameCells(s.cells, Dropped(s.cells, Counted(id)))
  {
  }

  lemma {:induction false} RunSettling<W(!new), V(!new)>(
    c: Net<W, V>, h: W -> nat, mode: nat -> Mode, s: State<W, V>, run: seq<Action<W, V>>)
    requires WellFormed(c, h) && Settling(c, h, s) && Legal(c, mode, s, run)
    requires forall i :: 0 <= i < |run| ==> OnSources(c, run[i])
    ensures Settling(c, h, After(c, mode, s, run))
    decreases |run|
  {
    if run != [] {
      StepSettling(c, h, mode, s, run[0]);
      RunSettling(c, h, mode, Step(c, mode, s, run[0]), run[1..]);
    }
  }

  lemma InitialSettling<W(!new), V>(c: Net<W, V>, h: W -> nat)
    ensures Settling(c, h, Initial())
  {
    InitialInv(c, h);
    var s: State<W, V> := Initial();
    assert Val(s) == map[];
    D.EmptySettled(c);
  }

  // ----- at rest

  /** Whichever gates are notified at once, through the loop breaker or by posted tasks, and in whatever
      order workers take those: when nothing is under way, after any run whose clients drive sources,
      every ready gate shows its function of its inputs and every source what it was last driven with. */
  lemma {:induction false} RestSettled<W(!new), V(!new)>(
    c: Net<W, V>, h: W -> nat, mode: nat -> Mode, run: seq<Action<W, V>>)
    requires WellFormed(c, h) && Legal(c, mode, Initial(), run) && QueuedEnds.AtRest(After(c, mode, Initial(), run))
    requires forall i :: 0 <= i < |run| ==> OnSources(c, run[i])
    ensures var s := After(c, mode, Initial(), run);
      SourcesOk(c, s) && D.Settled(c, Val(s))
  {
    var s := After(c, mode, Initial(), run);
    InitialSettling(c, h);
    RunSettling(c, h, mode, Initial(), run);
    assert s.queue == None;
    forall g: nat, j: nat ensures D.PortOk(c, Val(s), g, j) {
      assert !Pending(s, g, j);
    }
  }

  /** So on a total circuit whose sources have all been driven the wires hold exactly what the depth-first
      propagation of the same drives leaves on them. */
  lemma {:induction false} SameAsDepthFirst<W(!new), V(!new)>(
    c: Net<W, V>, h: W -> nat, mode: nat -> Mode, run: seq<Action<W, V>>, g: nat, j: nat, o: W)
    requires WellFormed(c, h) && Total(c) && Legal(c, mode, Initial(), run) && QueuedEnds.AtRest(After(c, mode, Initial(), run))
    requires forall i :: 0 <= i < |run| ==> OnSources(c, run[i])
    requires var s := After(c, mode, Initial(), run);
      (forall w, x :: Source(c, w) && Reads(c, x, w) ==> w in D.Last(s.log)) && Drives(c, g, j, o)
    ensures var s := After(c, mode, Initial(), run);
      && AllLive(s.slot, s.cells) && (forall k :: 0 <= k < |s.log| ==> Source(c, s.log[k].0))
      && var val := D.DriveAll(c, h, D.Signals(map[], []), s.log).val;
         o in Val(s) && o in val && Val(s)[o] == val[o]
  {
    var s := After(c, mode, Initial(), run);
    RestSettled(c, h, mode, run);
    D.DriveAllSettles(c, h, s.log);
    var val := D.DriveAll(c, h, D.Signals(map[], []), s.log).val;
    assert D.SameSources(c, Val(s), val);
    D.SameValue(c, h, Val(s), val, g, j, o);
  }
}
