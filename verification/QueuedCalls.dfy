/** The calls in progress of a circuit with queued notifications, and what holds after every run. */
module QueuedCalls {
  import opened Circuit
  import opened Options
  import opened ReferenceCounts
  import opened DirectBoard
  import opened QueuedBoard
  import opened QueuedBooks
  import QueuedSafety

  // ----- pushing, replacing and popping a call

  // f may be called by the innermost call of s.
  ghost predicate Nestable<W(!new), V>(c: Net<W, V>, s: State<W, V>, f: Frame<W, V>) {
    s.stack != [] ==>
      match Inner(s)
      case Notifying(_, _, _) => true
      case Driving(g, _, j, driven) => driven && f.Notifying? && Drives(c, g, j, f.w)
      case Draining(_, ran) => ran
      case Posted(_, ran) => ran
  }

  // f drives only wires below those whose notification is in progress.
  ghost predicate Deeper<W(!new), V>(c: Net<W, V>, h: W -> nat, s: State<W, V>, f: Frame<W, V>) {
    forall i :: 0 <= i < |s.stack| && s.stack[i].Notifying? ==> FrameBelow(c, h, f, h(s.stack[i].w))
  }

  lemma FramesPushed<W(!new), V>(c: Net<W, V>, h: W -> nat, s: State<W, V>, f: Frame<W, V>)
    requires FramesOk(c, h, s) && FrameOk(c, h, Push(s, f), |s.stack|)
    ensures FramesOk(c, h, Push(s, f))
  {
    var s' := Push(s, f);
    forall i | 0 <= i < |s.stack| ensures FrameOk(c, h, s', i) {
      assert FrameOk(c, h, s, i) && s'.stack[..i] == s.stack[..i];
    }
  }

  lemma ShapePushed<W(!new), V>(c: Net<W, V>, s: State<W, V>, f: Frame<W, V>)
    requires Shape(c, s) && Nestable(c, s, f) && !f.Draining?
    ensures Shape(c, Push(s, f))
  {
    var s' := Push(s, f);
    if s.queue.Some? {
      var i :| 0 <= i < |s.stack| && s.stack[i].Draining?;
      assert s'.stack[i].Draining?;
    }
  }

  lemma DescendsPushed<W(!new), V>(c: Net<W, V>, h: W -> nat, s: State<W, V>, f: Frame<W, V>)
    requires Descends(c, h, s) && Deeper(c, h, s, f) && !f.Draining?
    ensures Descends(c, h, Push(s, f))
  {
  }

  lemma PushCalls<W(!new), V>(c: Net<W, V>, h: W -> nat, s: State<W, V>, f: Frame<W, V>)
    requires Calls(c, h, s) && FrameOk(c, h, Push(s, f), |s.stack|) && Nestable(c, s, f) && !f.Draining?
    requires Acyclic(c, h) ==> Deeper(c, h, s, f)
    ensures Calls(c, h, Push(s, f))
  {
    FramesPushed(c, h, s, f);
    ShapePushed(c, s, f);
    if Acyclic(c, h) { DescendsPushed(c, h, s, f); }
  }

  // The outermost call of the loop breaker begins, with queue ts.
  lemma DrainCalls<W(!new), V>(c: Net<W, V>, h: W -> nat, s: State<W, V>, t: Task<V>, ts: seq<Task<V>>)
    requires Calls(c, h, s) && s.queue.None? && t.gate < |c.gates| && TasksOk(c, ts) && Nestable(c, s, Draining(t, false))
    requires Acyclic(c, h) ==> Deeper(c, h, s, Draining(t, false))
    requires Acyclic(c, h) ==> forall i :: 0 <= i < |s.stack| && s.stack[i].Notifying? ==> TasksBelow(c, h, ts, h(s.stack[i].w))
    ensures Calls(c, h, Push(s.(queue := Some(ts)), Draining(t, false)))
  {
    var s1 := s.(queue := Some(ts));
    var s' := Push(s1, Draining(t, false));
    forall i | 0 <= i < |s'.stack| ensures FrameOk(c, h, s', i) {
      if i < |s.stack| { assert FrameOk(c, h, s, i) && s'.stack[..i] == s.stack[..i]; }
    }
    assert s'.stack[|s.stack|].Draining?;
    assert forall i :: 0 <= i < |s.stack| ==> s'.stack[i] == s.stack[i];
  }

  // f is a later stage of the innermost call.
  ghost predicate Continues<W(!new), V>(c: Net<W, V>, f: Frame<W, V>, f': Frame<W, V>) {
    match f
    case Notifying(w, _, _) => f'.Notifying? && f'.w == w
    case Driving(g, _, _, _) => f'.Driving? && f'.gate == g
    case Draining(t, _) => f'.Draining? && f'.task == t
    case Posted(t, _) => f'.Posted? && f'.task == t
  }

  lemma ReplaceCalls<W(!new), V>(c: Net<W, V>, h: W -> nat, s: State<W, V>, f: Frame<W, V>)
    requires Calls(c, h, s) && s.stack != [] && Continues(c, Inner(s), f)
    requires FrameOk(c, h, Replace(s, f), |s.stack| - 1)
    ensures Calls(c, h, Replace(s, f))
  {
    var s', n := Replace(s, f), |s.stack| - 1;
    forall i | 0 <= i < n ensures FrameOk(c, h, s', i) {
      assert FrameOk(c, h, s, i) && s'.stack[..i] == s.stack[..i];
    }
    ReplaceShape(c, s, f);
    if Acyclic(c, h) { ReplaceDescends(c, h, s, f); }
  }

  lemma ReplaceShape<W(!new), V>(c: Net<W, V>, s: State<W, V>, f: Frame<W, V>)
    requires Shape(c, s) && s.stack != [] && Continues(c, Inner(s), f)
    ensures Shape(c, Replace(s, f))
  {
    var s', n := Replace(s, f), |s.stack| - 1;
    assert s'.stack[n] == f;
    if s.queue.Some? {
      var i :| 0 <= i < |s.stack| && s.stack[i].Draining?;
      assert s'.stack[i].Draining?;
    }
    forall i | 0 <= i < n && s'.stack[i].Driving?
      ensures s'.stack[i].driven && s'.stack[i + 1].Notifying? && Drives(c, s'.stack[i].gate, s'.stack[i].j, s'.stack[i + 1].w)
    {
      assert s.stack[i].Driving?;
    }
  }

  lemma ReplaceDescends<W(!new), V>(c: Net<W, V>, h: W -> nat, s: State<W, V>, f: Frame<W, V>)
    requires Descends(c, h, s) && s.stack != [] && Continues(c, Inner(s), f)
    ensures Descends(c, h, Replace(s, f))
  {
    var s', n := Replace(s, f), |s.stack| - 1;
    forall i, k | 0 <= i < k <= n && s'.stack[i].Notifying?
      ensures FrameBelow(c, h, s'.stack[k], h(s'.stack[i].w))
      ensures s'.stack[k].Draining? ==> TasksBelow(c, h, Queued(s'), h(s'.stack[i].w))
    {
      assert s.stack[i].Notifying? && FrameBelow(c, h, s.stack[k], h(s.stack[i].w));
    }
  }

  lemma PopFrames<W(!new), V>(c: Net<W, V>, h: W -> nat, s: State<W, V>)
    requires FramesOk(c, h, s) && s.stack != []
    ensures FramesOk(c, h, Pop(s))
  {
    var s' := Pop(s);
    forall i | 0 <= i < |s'.stack| ensures FrameOk(c, h, s', i) {
      assert FrameOk(c, h, s, i) && s'.stack[..i] == s.stack[..i];
    }
  }

  lemma PopCalls<W(!new), V>(c: Net<W, V>, h: W -> nat, s: State<W, V>)
    requires Calls(c, h, s) && s.stack != [] && !Inner(s).Draining?
    ensures Calls(c, h, Pop(s))
  {
    var s', n := Pop(s), |s.stack| - 1;
    PopFrames(c, h, s);
    assert forall i :: 0 <= i < n ==> s'.stack[i] == s.stack[i];
    if s.queue.Some? {
      var i :| 0 <= i < |s.stack| && s.stack[i].Draining?;
      assert i < n && s'.stack[i].Draining?;
    }
  }

  // The outermost call of the loop breaker ends; so does its queue.
  lemma PopDrain<W(!new), V>(c: Net<W, V>, h: W -> nat, s: State<W, V>)
    requires Calls(c, h, s) && s.stack != [] && Inner(s).Draining?
    ensures Calls(c, h, Pop(s).(queue := None))
  {
    var s', n := Pop(s).(queue := None), |s.stack| - 1;
    forall i | 0 <= i < |s'.stack| ensures FrameOk(c, h, s', i) {
      assert FrameOk(c, h, s, i) && s'.stack[..i] == s.stack[..i];
    }
    assert forall i :: 0 <= i < n ==> s'.stack[i] == s.stack[i] && !s.stack[i].Draining?;
  }

  // ----- changes beside the stack

  // Another memory, with the same slots.
  lemma CellsCalls<W(!new), V>(c: Net<W, V>, h: W -> nat, s: State<W, V>, s': State<W, V>)
    requires Calls(c, h, s) && s' == s.(cells := s'.cells, next := s'.next, log := s'.log)
    ensures Calls(c, h, s')
  {
    forall i | 0 <= i < |s'.stack| ensures FrameOk(c, h, s', i) {
      assert FrameOk(c, h, s, i);
    }
  }

  // o is not the wire of a notification in progress, nor an input of a gate that is driving.
  ghost predicate Untouched<W(!new), V>(c: Net<W, V>, f: Frame<W, V>, o: W) {
    match f
    case Notifying(w, _, _) => o != w
    case Driving(g, _, _, _) => g < |c.gates| ==> o !in Wired(c.gates[g].ins)
    case _ => true
  }

  lemma WriteUntouched<W(!new), V>(c: Net<W, V>, h: W -> nat, s: State<W, V>, j: nat, o: W, i: nat)
    requires Calls(c, h, s) && Acyclic(c, h) && s.stack != [] && Inner(s).Driving? && Drives(c, Inner(s).gate, j, o)
    requires i < |s.stack|
    ensures Untouched(c, s.stack[i], o)
  {
    var n := |s.stack| - 1;
    assert FrameOk(c, h, s, i);
    if s.stack[i].Driving? {
      var g := s.stack[i].gate;
      if i < n { WriteBelowNext(c, h, s, j, o, i); }
      WiredIs(c.gates[g].ins);
      forall x | x in Wired(c.gates[g].ins) ensures x != o {
        assert Reads(c, g, x);
        if i < n { assert Drives(c, g, s.stack[i].j, s.stack[i + 1].w); }
      }
    } else if s.stack[i].Notifying? {
      assert FrameBelow(c, h, s.stack[n], h(s.stack[i].w));
    }
  }

  lemma WriteBelowNext<W(!new), V>(c: Net<W, V>, h: W -> nat, s: State<W, V>, j: nat, o: W, i: nat)
    requires Nested(c, s) && Descends(c, h, s) && s.stack != [] && Inner(s).Driving? && Drives(c, Inner(s).gate, j, o)
    requires i < |s.stack| - 1 && s.stack[i].Driving?
    ensures s.stack[i + 1].Notifying? && Drives(c, s.stack[i].gate, s.stack[i].j, s.stack[i + 1].w)
    ensures h(o) < h(s.stack[i + 1].w)
  {
    assert s.stack[i + 1].Notifying?;
    assert FrameBelow(c, h, s.stack[|s.stack| - 1], h(s.stack[i + 1].w));
  }

  lemma FrameWritten<W(!new), V>(c: Net<W, V>, h: W -> nat, s: State<W, V>, s': State<W, V>, i: nat, o: W, r: Ref<V>)
    requires i < |s.stack| && FrameOk(c, h, s, i) && s' == s.(slot := s.slot[o := r], cells := s'.cells)
    requires Acyclic(c, h) ==> Untouched(c, s.stack[i], o)
    ensures FrameOk(c, h, s', i)
  {
    if s.stack[i].Driving? {
      var f := s.stack[i];
      forall k | f.j <= k < |f.hs| ensures HandleOk(c, h, s', f.gate, f.hs[k]) {
        assert HandleOk(c, h, s, f.gate, f.hs[k]);
      }
    }
  }

  // A client writes a wire, or the gate that is driving writes one of its outputs.
  lemma WriteCalls<W(!new), V>(c: Net<W, V>, h: W -> nat, s: State<W, V>, s': State<W, V>, j: nat, o: W, r: Ref<V>)
    requires Calls(c, h, s) && s' == s.(slot := s.slot[o := r], cells := s'.cells)
    requires s.stack != [] ==> Inner(s).Driving? && Drives(c, Inner(s).gate, j, o)
    ensures Calls(c, h, s')
  {
    forall i | 0 <= i < |s'.stack| ensures FrameOk(c, h, s', i) {
      assert FrameOk(c, h, s, i);
      if Acyclic(c, h) { WriteUntouched(c, h, s, j, o, i); }
      FrameWritten(c, h, s, s', i, o, r);
    }
  }

  lemma EnqueueCalls<W(!new), V>(c: Net<W, V>, h: W -> nat, s: State<W, V>, s': State<W, V>, t: Task<V>)
    requires Calls(c, h, s) && s.queue.Some? && t.gate < |c.gates|
    requires s' == s.(queue := Some(s.queue.value + [t]), cells := s'.cells)
    requires Acyclic(c, h) ==> forall i :: 0 <= i < |s.stack| && s.stack[i].Notifying? ==> GateBelow(c, h, t.gate, h(s.stack[i].w))
    ensures Calls(c, h, s')
  {
    forall i | 0 <= i < |s'.stack| ensures FrameOk(c, h, s', i) {
      assert FrameOk(c, h, s, i);
    }
    assert Shape(c, s');
  }

  lemma PostedCalls<W(!new), V>(c: Net<W, V>, h: W -> nat, s: State<W, V>, s': State<W, V>)
    requires Calls(c, h, s) && TasksOk(c, s'.posted)
    requires s' == s.(posted := s'.posted, cells := s'.cells)
    ensures Calls(c, h, s')
  {
    forall i | 0 <= i < |s'.stack| ensures FrameOk(c, h, s', i) {
      assert FrameOk(c, h, s, i);
    }
  }

  // ----- the steps

  // What a firing has for its ports: constants, values of its own, or values on its inputs.
  lemma FiredHandles<W(!new), V(!new)>(c: Net<W, V>, h: W -> nat, s: State<W, V>, g: nat, k: nat, xs: seq<V>)
    requires g < |c.gates| && k < |c.gates[g].outs| && (Acyclic(c, h) || NoPass(c))
    requires forall w :: w in Wired(c.gates[g].ins) ==> w in s.slot
    ensures HandleOk(c, h, s, g, HandleFor(c.gates[g].f(xs), PointersOf(s.slot, Wired(c.gates[g].ins)), s.next, k))
  {
    var os, ws := c.gates[g].f(xs), Wired(c.gates[g].ins);
    if k < |os| && os[k].Pass? && os[k].index < |ws| {
      assert !NoPass(c);
      assert ws[os[k].index] in ws;
    }
  }

  lemma FiredFrame<W(!new), V(!new)>(c: Net<W, V>, h: W -> nat, s: State<W, V>, g: nat, xs: seq<V>)
    requires g < |c.gates| && (Acyclic(c, h) || NoPass(c)) && forall w :: w in Wired(c.gates[g].ins) ==> w in s.slot
    ensures FrameOk(c, h, Fired(s, g, c.gates[g].f(xs), PointersOf(s.slot, Wired(c.gates[g].ins)), |c.gates[g].outs|), |s.stack|)
  {
    var os, refs, n := c.gates[g].f(xs), PointersOf(s.slot, Wired(c.gates[g].ins)), |c.gates[g].outs|;
    var s' := Fired(s, g, os, refs, n);
    forall k: nat | k < n ensures HandleOk(c, h, s', g, HandleFor(os, refs, s.next, k)) {
      FiredHandles(c, h, s, g, k, xs);
    }
  }

  lemma FiredCalls<W(!new), V(!new)>(c: Net<W, V>, h: W -> nat, s: State<W, V>, g: nat, xs: seq<V>)
    requires Calls(c, h, s) && g < |c.gates| && (Acyclic(c, h) || NoPass(c)) && forall w :: w in Wired(c.gates[g].ins) ==> w in s.slot
    requires s.stack != [] ==> Nestable(c, s, Driving(g, [], 0, false))
    requires Acyclic(c, h) ==> Deeper(c, h, s, Driving(g, [], 0, false))
    ensures Calls(c, h, Fired(s, g, c.gates[g].f(xs), PointersOf(s.slot, Wired(c.gates[g].ins)), |c.gates[g].outs|))
  {
    var os, refs, n := c.gates[g].f(xs), PointersOf(s.slot, Wired(c.gates[g].ins)), |c.gates[g].outs|;
    var s1 := s.(cells := s.cells + Born(os, n, s.next), next := s.next + n);
    CellsCalls(c, h, s, s1);
    FiredFrame(c, h, s, g, xs);
    PushCalls(c, h, s1, Driving(g, Handles(os, refs, s.next, n), 0, false));
  }

  lemma FireCalls<W(!new), V(!new)>(c: Net<W, V>, h: W -> nat, s: State<W, V>, g: nat)
    requires Calls(c, h, s) && g < |c.gates| && AllLive(s.slot, s.cells) && (Acyclic(c, h) || NoPass(c))
    requires s.stack != [] ==> Nestable(c, s, Driving(g, [], 0, false))
    requires Acyclic(c, h) ==> Deeper(c, h, s, Driving(g, [], 0, false))
    ensures Calls(c, h, Fire(c, s, g)) && Calls(c, h, Execute(c, s, g))
  {
    var gate, val := c.gates[g], Values(s.slot, s.cells);
    if Ready(gate, val) { FiredCalls(c, h, s, g, Inputs(gate, val)); }
  }

  // A gate that reads the wire being notified, or any gate notified from outside, drives wires below those
  // whose notification is in progress.
  ghost predicate Callable<W(!new), V>(c: Net<W, V>, h: W -> nat, s: State<W, V>, g: nat) {
    forall i :: 0 <= i < |s.stack| && s.stack[i].Notifying? ==> GateBelow(c, h, g, h(s.stack[i].w))
  }

  lemma NotifyCalls<W(!new), V(!new)>(c: Net<W, V>, h: W -> nat, mode: nat -> Mode, s: State<W, V>, g: nat, r: Ref<V>)
    requires Calls(c, h, s) && g < |c.gates| && AllLive(s.slot, s.cells) && Handable(mode, s, g, r) && (Acyclic(c, h) || NoPass(c))
    requires s.stack != [] ==> Inner(s).Notifying?
    requires Acyclic(c, h) ==> Callable(c, h, s, g)
    ensures Calls(c, h, Notify(c, mode, s, g, r))
  {
    var s' := Notify(c, mode, s, g, r);
    if mode(g) == AtOnce {
      FireCalls(c, h, s, g);
    } else if mode(g) == Posting {
      PostedCalls(c, h, s, s');
    } else if s.queue.None? {
      var s1 := s.(cells := Referenced(s.cells, r));
      CellsCalls(c, h, s, s1);
      DrainCalls(c, h, s1, Task(g, r), []);
    } else {
      EnqueueCalls(c, h, s, s', Task(g, r));
    }
  }

  // The next tap is taken off the list.
  lemma TakeTap<W(!new), V>(c: Net<W, V>, h: W -> nat, s: State<W, V>)
    requires Calls(c, h, s) && s.stack != [] && Inner(s).Notifying? && Inner(s).taps != []
    ensures var f := Inner(s);
      Calls(c, h, Replace(s, Notifying(f.w, f.r, f.taps[1..]))) && Reads(c, f.taps[0].gate, f.w)
  {
    var f, n := Inner(s), |s.stack| - 1;
    var f' := Notifying(f.w, f.r, f.taps[1..]);
    var s1 := Replace(s, f');
    assert FrameOk(c, h, s, n) && IsTap(c, f.w, f.taps[0]);
    assert s1.stack[..n] == s.stack[..n] && s1.stack[n] == f';
    ReplaceCalls(c, h, s, f');
  }

  lemma TurnCalls<W(!new), V(!new)>(c: Net<W, V>, h: W -> nat, mode: nat -> Mode, s: State<W, V>)
    requires Inv(c, h, s) && SafeInner(c, mode, s) && Inner(s).Notifying? && (Acyclic(c, h) || NoPass(c))
    ensures Calls(c, h, Advance(c, mode, s))
  {
    var f := Inner(s);
    if f.taps == [] {
      PopCalls(c, h, s);
    } else {
      var g, s1 := f.taps[0].gate, Replace(s, Notifying(f.w, f.r, f.taps[1..]));
      TakeTap(c, h, s);
      if c.gates[g].enabled {
        if Acyclic(c, h) { ReaderCallable(c, h, s1, g, f.w); }
        NotifyCalls(c, h, mode, s1, g, f.r);
      }
    }
  }

  lemma ReaderCallable<W(!new), V>(c: Net<W, V>, h: W -> nat, s: State<W, V>, g: nat, w: W)
    requires Acyclic(c, h) && Descends(c, h, s) && s.stack != [] && Inner(s).Notifying? && Inner(s).w == w && Reads(c, g, w)
    ensures Callable(c, h, s, g)
  {
    var n := |s.stack| - 1;
    forall i | 0 <= i < n && s.stack[i].Notifying? ensures h(w) < h(s.stack[i].w) {
      assert FrameBelow(c, h, s.stack[n], h(s.stack[i].w));
    }
  }

  // The gate's call goes on with port j, or inside the drive of port j.
  lemma PortStage<W(!new), V>(c: Net<W, V>, h: W -> nat, s: State<W, V>, j: nat, driven: bool)
    requires Calls(c, h, s) && s.stack != [] && Inner(s).Driving? && Inner(s).j <= j && j <= |Inner(s).hs|
    requires driven ==> j < |Inner(s).hs|
    ensures Calls(c, h, Replace(s, Inner(s).(j := j, driven := driven)))
  {
    var f, n := Inner(s), |s.stack| - 1;
    var s1 := Replace(s, f.(j := j, driven := driven));
    assert FrameOk(c, h, s, n) && s1.stack[n] == f.(j := j, driven := driven);
    forall k | j <= k < |f.hs| ensures HandleOk(c, h, s1, f.gate, f.hs[k]) {
      assert HandleOk(c, h, s, f.gate, f.hs[k]);
    }
    ReplaceCalls(c, h, s, f.(j := j, driven := driven));
  }

  lemma DriveStepCalls<W(!new), V(!new)>(c: Net<W, V>, h: W -> nat, s: State<W, V>)
    requires Inv(c, h, s) && Agrees(c) && SafeCall(c, s) && Inner(s).Driving?
    ensures Calls(c, h, DriveStep(c, s))
  {
    var f := Inner(s);
    if f.j == |f.hs| {
      PopCalls(c, h, s);
    } else if f.driven {
      PortStage(c, h, s, f.j + 1, false);
      CellsCalls(c, h, Replace(s, f.(j := f.j + 1, driven := false)), Given(s));
    } else {
      PortStage(c, h, s, f.j, true);
      if c.gates[f.gate].outs[f.j].Some? && !f.hs[f.j].Silent? {
        OutputCalls(c, h, s, c.gates[f.gate].outs[f.j].value);
      }
    }
  }

  lemma OutputCalls<W(!new), V>(c: Net<W, V>, h: W -> nat, s: State<W, V>, o: W)
    requires Inv(c, h, s) && Agrees(c) && SafeCall(c, s) && Inner(s).Driving? && Drives(c, Inner(s).gate, Inner(s).j, o)
    requires var f := Inner(s); f.j < |f.hs| && !f.driven && !f.hs[f.j].Silent? && Calls(c, h, Replace(s, f.(driven := true)))
    ensures var f := Inner(s); Calls(c, h, DriveWire(c, Replace(s, f.(driven := true)), o, Pointer(f.hs[f.j])))
  {
    var f := Inner(s);
    var s1 := Replace(s, f.(driven := true));
    assert s1.stack[|s.stack| - 1] == f.(driven := true);
    assert FrameOk(c, h, s, |s.stack| - 1) && HandleOk(c, h, s, f.gate, f.hs[f.j]);
    PortCalls(c, h, s1, o);
  }

  // The gate drives port j.
  lemma PortCalls<W(!new), V>(c: Net<W, V>, h: W -> nat, s: State<W, V>, o: W)
    requires Calls(c, h, s) && s.stack != [] && Inner(s).Driving? && Inner(s).driven && AllLive(s.slot, s.cells)
    requires Inner(s).j < |Inner(s).hs| && Drives(c, Inner(s).gate, Inner(s).j, o)
    requires Agrees(c)
    requires var hd := Inner(s).hs[Inner(s).j]; !hd.Silent? && Live(Pointer(hd), s.cells) && HandleOk(c, h, s, Inner(s).gate, hd)
    ensures Calls(c, h, DriveWire(c, s, o, Pointer(Inner(s).hs[Inner(s).j])))
  {
    var f, n := Inner(s), |s.stack|;
    var r := Pointer(f.hs[f.j]);
    var s1 := s.(slot := s.slot[o := r], cells := Imported(s.slot, s.cells, o, r));
    WriteCalls(c, h, s, s1, f.j, o, r);
    var f' := Notifying(o, r, Taps(c, o));
    assert Push(s1, f').stack[..n] == s.stack;
    if r.Counted? && !Acyclic(c, h) {
      OwnedHead(f.hs, f.j, multiset{});
      assert r.id in FrameRefs(f) && r.id in StackRefs(s.stack);
    }
    if Acyclic(c, h) { OutputDeeper(c, h, s1, f.j, o, f'); }
    PushCalls(c, h, s1, f');
  }

  lemma OutputDeeper<W(!new), V>(c: Net<W, V>, h: W -> nat, s: State<W, V>, j: nat, o: W, f: Frame<W, V>)
    requires Descends(c, h, s) && s.stack != [] && Inner(s).Driving? && Drives(c, Inner(s).gate, j, o)
    requires f.Notifying? && f.w == o
    ensures Deeper(c, h, s, f)
  {
    var n := |s.stack| - 1;
    forall i | 0 <= i < |s.stack| && s.stack[i].Notifying? ensures FrameBelow(c, h, f, h(s.stack[i].w)) {
      assert FrameBelow(c, h, s.stack[n], h(s.stack[i].w));
    }
  }

  // A task's code is called, or has returned.
  lemma RunCalls<W(!new), V(!new)>(c: Net<W, V>, h: W -> nat, s: State<W, V>)
    requires Inv(c, h, s) && SafeCall(c, s) && (Inner(s).Draining? || Inner(s).Posted?) && (Acyclic(c, h) || NoPass(c))
    ensures Calls(c, h, RunStep(c, s))
  {
    if Inner(s).ran {
      DoneCalls(c, h, s);
    } else {
      BegunCalls(c, h, s);
      FireCalls(c, h, Begun(s), Inner(s).task.gate);
    }
  }

  lemma BegunCalls<W(!new), V>(c: Net<W, V>, h: W -> nat, s: State<W, V>)
    requires Calls(c, h, s) && s.stack != [] && (Inner(s).Draining? || Inner(s).Posted?)
    ensures var g := Inner(s).task.gate;
      Calls(c, h, Begun(s)) && g < |c.gates| && (Acyclic(c, h) ==> Deeper(c, h, Begun(s), Driving(g, [], 0, false)))
  {
    var f, n := Inner(s).(ran := true), |s.stack| - 1;
    var s1 := Begun(s);
    assert FrameOk(c, h, s, n) && s1.stack[n] == f;
    ReplaceCalls(c, h, s, f);
    if Acyclic(c, h) {
      forall i | 0 <= i < n && s1.stack[i].Notifying? ensures GateBelow(c, h, f.task.gate, h(s1.stack[i].w)) {
        assert FrameBelow(c, h, s.stack[n], h(s.stack[i].w));
      }
    }
  }

  lemma DoneCalls<W(!new), V(!new)>(c: Net<W, V>, h: W -> nat, s: State<W, V>)
    requires Calls(c, h, s) && s.stack != [] && (Inner(s).Draining? || Inner(s).Posted?) && Live(Inner(s).task.r, s.cells)
    ensures Calls(c, h, TaskDone(s))
  {
    var s1 := s.(cells := Dropped(s.cells, Inner(s).task.r));
    CellsCalls(c, h, s, s1);
    if Inner(s).Posted? {
      PopCalls(c, h, s1);
    } else {
      PopDrain(c, h, s1);
      if Queued(s) != [] { NextCalls(c, h, s1); }
    }
  }

  // The loop breaker takes the next task.
  lemma NextCalls<W(!new), V>(c: Net<W, V>, h: W -> nat, s: State<W, V>)
    requires Calls(c, h, s) && s.stack != [] && Inner(s).Draining? && Queued(s) != []
    ensures Calls(c, h, Push(Pop(s).(queue := Some(Queued(s)[1..])), Draining(Queued(s)[0], false)))
  {
    var n, t := |s.stack| - 1, Queued(s)[0];
    var s2 := Pop(s).(queue := None);
    PopDrain(c, h, s);
    if s2.stack != [] {
      assert Inner(s2) == s.stack[n - 1];
    }
    if Acyclic(c, h) {
      forall i | 0 <= i < n && s2.stack[i].Notifying?
        ensures GateBelow(c, h, t.gate, h(s2.stack[i].w)) && TasksBelow(c, h, Queued(s)[1..], h(s2.stack[i].w))
      {
        assert s2.stack[i] == s.stack[i] && s.stack[n].Draining?;
        assert TasksBelow(c, h, Queued(s), h(s.stack[i].w));
      }
    }
    DrainCalls(c, h, s2, t, Queued(s)[1..]);
  }

  // A client drives a wire with a value it may use.
  lemma DriveCalls<W(!new), V>(c: Net<W, V>, h: W -> nat, s: State<W, V>, w: W, r: Ref<V>)
    requires Inv(c, h, s) && Agrees(c) && s.stack == [] && Holds(s, r) && Live(r, s.cells)
    ensures Calls(c, h, DriveWire(c, s.(log := s.log + [(w, Value(r, s.cells))]), w, r))
  {
    var s1 := s.(log := s.log + [(w, Value(r, s.cells))]);
    var s2 := s1.(slot := s1.slot[w := r], cells := Imported(s1.slot, s1.cells, w, r));
    CellsCalls(c, h, s, s1);
    WriteCalls(c, h, s1, s2, 0, w, r);
    FirstCalls(c, h, s2, w, r);
  }

  lemma FirstCalls<W(!new), V>(c: Net<W, V>, h: W -> nat, s: State<W, V>, w: W, r: Ref<V>)
    requires Calls(c, h, s) && Agrees(c) && s.stack == [] && Holds(s, r)
    ensures Calls(c, h, Push(s, Notifying(w, r, Taps(c, w))))
  {
    PushCalls(c, h, s, Notifying(w, r, Taps(c, w)));
  }

  lemma TakeCalls<W(!new), V>(c: Net<W, V>, h: W -> nat, s: State<W, V>, i: nat)
    requires Calls(c, h, s) && s.stack == [] && i < |s.posted|
    ensures Calls(c, h, Push(s.(posted := s.posted[..i] + s.posted[i + 1..]), Posted(s.posted[i], false)))
  {
    var s1 := s.(posted := s.posted[..i] + s.posted[i + 1..]);
    PostedCalls(c, h, s, s1);
    PushCalls(c, h, s1, Posted(s.posted[i], false));
  }

  lemma AdvanceCalls<W(!new), V(!new)>(c: Net<W, V>, h: W -> nat, mode: nat -> Mode, s: State<W, V>)
    requires Inv(c, h, s) && Agrees(c) && SafeInner(c, mode, s) && (Acyclic(c, h) || NoPass(c))
    ensures Calls(c, h, Advance(c, mode, s))
  {
    match Inner(s) {
      case Notifying(_, _, _) => TurnCalls(c, h, mode, s);
      case Driving(_, _, _, _) => DriveStepCalls(c, h, s);
      case _ => RunCalls(c, h, s);
    }
  }

  lemma MemoryCalls<W(!new), V>(c: Net<W, V>, h: W -> nat, s: State<W, V>, s': State<W, V>)
    requires Calls(c, h, s) && s.stack == [] && s' == s.(cells := s'.cells, next := s'.next, client := s'.client)
    ensures Calls(c, h, s')
  {
  }

  lemma ClientCalls<W(!new), V>(c: Net<W, V>, h: W -> nat, mode: nat -> Mode, s: State<W, V>, a: Action<W, V>)
    requires Inv(c, h, s) && Agrees(c) && Enabled(c, s, a) && Safe(c, mode, s, a) && !a.Proceed? && !a.Kick?
    ensures Calls(c, h, Step(c, mode, s, a))
  {
    if a.Drive? {
      DriveCalls(c, h, s, a.w, a.r);
    } else if a.Take? {
      TakeCalls(c, h, s, a.i);
    } else {
      MemoryCalls(c, h, s, Step(c, mode, s, a));
    }
  }

  lemma StepCalls<W(!new), V(!new)>(c: Net<W, V>, h: W -> nat, mode: nat -> Mode, s: State<W, V>, a: Action<W, V>)
    requires Inv(c, h, s) && Agrees(c) && (Acyclic(c, h) || NoPass(c)) && Enabled(c, s, a) && Safe(c, mode, s, a)
    ensures Calls(c, h, Step(c, mode, s, a))
  {
    if a.Proceed? {
      AdvanceCalls(c, h, mode, s);
    } else if a.Kick? {
      NotifyCalls(c, h, mode, s, a.gate, a.r);
    } else {
      ClientCalls(c, h, mode, s, a);
    }
  }

  // ----- whole runs

  lemma StepKeeps<W(!new), V(!new)>(c: Net<W, V>, h: W -> nat, mode: nat -> Mode, s: State<W, V>, a: Action<W, V>)
    requires Inv(c, h, s) && Agrees(c) && (Acyclic(c, h) || NoPass(c)) && Enabled(c, s, a)
    ensures Safe(c, mode, s, a) && Inv(c, h, Step(c, mode, s, a))
  {
    InvSafe(c, h, mode, s, a);
    StepBooks(c, mode, s, a);
    StepCalls(c, h, mode, s, a);
  }

  lemma {:induction false} RunKeeps<W(!new), V(!new)>(
    c: Net<W, V>, h: W -> nat, mode: nat -> Mode, s: State<W, V>, run: seq<Action<W, V>>)
    requires Inv(c, h, s) && Agrees(c) && (Acyclic(c, h) || NoPass(c)) && Legal(c, mode, s, run)
    ensures Inv(c, h, After(c, mode, s, run))
    decreases |run|
  {
    if run != [] {
      StepKeeps(c, h, mode, s, run[0]);
      RunKeeps(c, h, mode, Step(c, mode, s, run[0]), run[1..]);
    }
  }

  lemma InitialInv<W(!new), V>(c: Net<W, V>, h: W -> nat)
    ensures Inv(c, h, Initial())
  {
  }

  /** After every run, on every acyclic circuit and on every circuit, with feedback or not, whose gates
      create their values: each count is the number of slots, queued and posted tasks, calls in progress
      and clients that hold the value, and whatever comes next touches only values in memory. */
  lemma {:induction false} AlwaysBalanced<W(!new), V(!new)>(
    c: Net<W, V>, h: W -> nat, mode: nat -> Mode, run: seq<Action<W, V>>)
    requires Agrees(c) && (Acyclic(c, h) || NoPass(c)) && Legal(c, mode, Initial(), run)
    ensures var s := After(c, mode, Initial(), run);
      Balanced(s.slot, s.cells, Outside(s)) && forall a :: Enabled(c, s, a) ==> Safe(c, mode, s, a)
  {
    InitialInv(c, h);
    RunKeeps(c, h, mode, Initial(), run);
    QueuedSafety.SafeExactly(c, mode, run);
    var s := After(c, mode, Initial(), run);
    if s.stack != [] && HandedOn(c, mode, s).Some? { InvHeld(c, h, mode, s); }
    forall a | Enabled(c, s, a) ensures Safe(c, mode, s, a) {
      if a.Proceed? { assert QueuedSafety.HandsOnHeld(c, mode, s); }
    }
  }

  /** With no call in progress the queue is gone, and what is in memory is on a wire, in a posted task or
      held by a client. */
  lemma {:induction false} RestBalanced<W(!new), V(!new)>(
    c: Net<W, V>, h: W -> nat, mode: nat -> Mode, run: seq<Action<W, V>>)
    requires Agrees(c) && (Acyclic(c, h) || NoPass(c)) && Legal(c, mode, Initial(), run)
    requires After(c, mode, Initial(), run).stack == []
    ensures var s := After(c, mode, Initial(), run);
      s.queue == None && Balanced(s.slot, s.cells, s.client + TaskRefs(s.posted))
  {
    InitialInv(c, h);
    RunKeeps(c, h, mode, Initial(), run);
    var s := After(c, mode, Initial(), run);
    assert Outside(s) == s.client + TaskRefs(s.posted);
  }
}
