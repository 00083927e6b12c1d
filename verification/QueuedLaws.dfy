/** What the steps of a queued circuit write, queue and run, in any state and for any circuit. */
module QueuedLaws {
  import opened Circuit
  import opened Options
  import opened GateLaws
  import opened ReferenceCounts
  import opened DirectBoard
  import opened QueuedBoard

  // ----- writing

  // The innermost call is gate g, about to drive wire o with r from port j, and o takes it.
  ghost predicate Writes<W(!new), V>(c: Net<W, V>, s: State<W, V>, g: nat, j: nat, o: W, r: Ref<V>) {
    && s.stack != [] && Inner(s).Driving? && Inner(s).gate == g && Inner(s).j == j && !Inner(s).driven
    && g < |c.gates| && j < |Inner(s).hs| && j < |c.gates[g].outs| && c.gates[g].outs[j] == Some(o)
    && !Inner(s).hs[j].Silent? && Pointer(Inner(s).hs[j]) == r && Live(r, s.cells)
    && (c.gates[g].guard.Some? ==> c.gates[g].guard.value(j, Value(r, s.cells)))
  }

  /** A step writes no wire, or the one a client drives, or the one a gate drives with a value that the wire takes. */
  lemma StepWrites<W(!new), V>(c: Net<W, V>, mode: nat -> Mode, s: State<W, V>, a: Action<W, V>)
    requires Enabled(c, s, a) && Safe(c, mode, s, a)
    ensures var s' := Step(c, mode, s, a);
      || s'.slot == s.slot
      || (a.Drive? && s'.slot == s.slot[a.w := a.r])
      || (a.Proceed? && exists g: nat, j: nat, o, r :: Writes(c, s, g, j, o, r) && s'.slot == s.slot[o := r])
  {
    if a.Proceed? {
      if Inner(s).Driving? { DriveStepWrites(c, s); }
    }
  }

  lemma DriveStepWrites<W(!new), V>(c: Net<W, V>, s: State<W, V>)
    requires AllLive(s.slot, s.cells) && SafeCall(c, s) && Inner(s).Driving?
    ensures var s' := DriveStep(c, s);
      s'.slot == s.slot || exists g: nat, j: nat, o, r :: Writes(c, s, g, j, o, r) && s'.slot == s.slot[o := r]
  {
    var f, s' := Inner(s), DriveStep(c, s);
    if s'.slot != s.slot {
      var o := c.gates[f.gate].outs[f.j].value;
      assert Writes(c, s, f.gate, f.j, o, Pointer(f.hs[f.j])) && s'.slot == s.slot[o := Pointer(f.hs[f.j])];
    }
  }

  /** And a gate that is about to drive a wire with a value that it takes does so, and then its drivens are notified. */
  lemma WritesHappen<W(!new), V>(
    c: Net<W, V>, mode: nat -> Mode, s: State<W, V>, g: nat, j: nat, o: W, r: Ref<V>)
    requires Safe(c, mode, s, Proceed) && Writes(c, s, g, j, o, r)
    ensures var s' := Step(c, mode, s, Proceed);
      && s'.slot == s.slot[o := r] && s'.stack != [] && Inner(s') == Notifying(o, r, Taps(c, o))
      && Outer(s') == Outer(s) + [Inner(s).(driven := true)]
  {
  }

  // ----- firing

  /** A gate whose inputs are complete is about to drive its ports with what it hands to them, and any other does
      nothing. */
  lemma FireHands<W(!new), V(!new)>(c: Net<W, V>, s: State<W, V>, g: nat)
    requires g < |c.gates| && AllLive(s.slot, s.cells) && forall id :: id in s.cells ==> id < s.next
    ensures var gate, val, s' := c.gates[g], Values(s.slot, s.cells), Fire(c, s, g);
      && (!Complete(gate, val) ==> s' == s)
      && (Complete(gate, val) ==>
            && s'.slot == s.slot && s'.queue == s.queue && s'.posted == s.posted && s'.stack != [] && Outer(s') == s.stack
            && Inner(s').Driving? && Inner(s').gate == g && Inner(s').j == 0 && !Inner(s').driven
            && |Inner(s').hs| == |gate.outs| && forall j :: 0 <= j < |gate.outs| ==> HandsOver(gate, val, s', j))
  {
    var gate, val, s' := c.gates[g], Values(s.slot, s.cells), Fire(c, s, g);
    ReadyIs(gate, val);
    if Ready(gate, val) {
      InputsAre(gate, val, Inputs(gate, val));
      forall j: nat | j < |gate.outs| ensures HandsOver(gate, val, s', j) {
        HandleHands(c, s, g, j);
      }
    }
  }

  // The handle for port j carries what the gate hands to it, if anything.
  ghost predicate HandsOver<W(!new), V(!new)>(gate: Gate<W, V>, val: map<W, V>, s: State<W, V>, j: nat)
    requires s.stack != [] && Inner(s).Driving? && j < |Inner(s).hs|
  {
    var hd := Inner(s).hs[j];
    exists xs :: Reading(gate, val, xs) &&
      forall v ::
        Hands(gate, xs, j, v) <==> !hd.Silent? && Live(Pointer(hd), s.cells) && Value(Pointer(hd), s.cells) == v
  }

  lemma HandleHands<W(!new), V(!new)>(c: Net<W, V>, s: State<W, V>, g: nat, j: nat)
    requires g < |c.gates| && AllLive(s.slot, s.cells) && forall id :: id in s.cells ==> id < s.next
    requires j < |c.gates[g].outs| && Ready(c.gates[g], Values(s.slot, s.cells))
    ensures HandsOver(c.gates[g], Values(s.slot, s.cells), Fire(c, s, g), j)
  {
    var gate, val, s' := c.gates[g], Values(s.slot, s.cells), Fire(c, s, g);
    var xs, os := Inputs(gate, val), gate.f(Inputs(gate, val));
    var refs := PointersOf(s.slot, Wired(gate.ins));
    InputsAre(gate, val, xs);
    var hd := HandleFor(os, refs, s.next, j);
    assert Inner(s').hs[j] == hd;
    if j < |os| && os[j].Fresh? {
      assert Creates(os, |gate.outs|, s.next, s.next + j);
      assert s'.cells[s.next + j] == Cell(os[j].v, 1);
    }
    if j < |os| && os[j].Pass? && os[j].index < |xs| {
      var w := Wired(gate.ins)[os[j].index];
      assert refs[os[j].index] == s.slot[w] && xs[os[j].index] == Value(s.slot[w], s.cells);
      assert Live(s.slot[w], s.cells);
      SameRead(c, s, g, s.slot[w]);
    }
  }

  lemma SameRead<W(!new), V>(c: Net<W, V>, s: State<W, V>, g: nat, r: Ref<V>)
    requires g < |c.gates| && AllLive(s.slot, s.cells) && Live(r, s.cells) && forall id :: id in s.cells ==> id < s.next
    ensures Live(r, Fire(c, s, g).cells) && Value(r, Fire(c, s, g).cells) == Value(r, s.cells)
  {
  }

  // ----- gates that are disabled, and ports that are handed nothing

  // A gate that is driving is enabled, and made what it has for its ports.
  ghost predicate FrameMade<W(!new), V(!new)>(c: Net<W, V>, f: Frame<W, V>) {
    f.Driving? ==>
      && f.gate < |c.gates| && c.gates[f.gate].enabled
      && exists xs :: forall k :: 0 <= k < |f.hs| && !f.hs[k].Silent? ==>
           k < |c.gates[f.gate].f(xs)| && c.gates[f.gate].f(xs)[k] != Nothing
  }

  ghost predicate AllMade<W(!new), V(!new)>(c: Net<W, V>, s: State<W, V>) {
    forall i :: 0 <= i < |s.stack| ==> FrameMade(c, s.stack[i])
  }

  // Clients do not notify a disabled gate that runs at once.
  predicate KicksEnabled<W(==), V>(c: Net<W, V>, mode: nat -> Mode, a: Action<W, V>) {
    a.Kick? ==> a.gate < |c.gates| && (c.gates[a.gate].enabled || mode(a.gate) != AtOnce)
  }

  lemma FireMade<W(!new), V(!new)>(c: Net<W, V>, s: State<W, V>, g: nat)
    requires g < |c.gates| && AllLive(s.slot, s.cells) && c.gates[g].enabled && AllMade(c, s)
    ensures AllMade(c, Fire(c, s, g))
  {
    var gate, val, s' := c.gates[g], Values(s.slot, s.cells), Fire(c, s, g);
    if Ready(gate, val) {
      var xs, f := Inputs(gate, val), Inner(s');
      forall k | 0 <= k < |f.hs| && !f.hs[k].Silent? ensures k < |gate.f(xs)| && gate.f(xs)[k] != Nothing {}
      assert FrameMade(c, f);
    }
  }

  lemma NotifyMade<W(!new), V(!new)>(c: Net<W, V>, mode: nat -> Mode, s: State<W, V>, g: nat, r: Ref<V>)
    requires g < |c.gates| && AllLive(s.slot, s.cells) && Handable(mode, s, g, r) && AllMade(c, s)
    requires c.gates[g].enabled || mode(g) != AtOnce
    ensures AllMade(c, Notify(c, mode, s, g, r))
  {
    if mode(g) == AtOnce { FireMade(c, s, g); }
  }

  lemma DriveStepMade<W(!new), V(!new)>(c: Net<W, V>, s: State<W, V>)
    requires AllLive(s.slot, s.cells) && SafeCall(c, s) && Inner(s).Driving? && AllMade(c, s)
    ensures AllMade(c, DriveStep(c, s))
  {
    var f := Inner(s);
    assert FrameMade(c, f);
    SameHandlesMade(c, f, f.(driven := true));
    SameHandlesMade(c, f, f.(j := f.j + 1, driven := false));
    ReplaceMade(c, s, f.(driven := true));
    ReplaceMade(c, s, f.(j := f.j + 1, driven := false));
  }

  lemma SameHandlesMade<W(!new), V(!new)>(c: Net<W, V>, f: Frame<W, V>, f': Frame<W, V>)
    requires f.Driving? && f'.Driving? && f'.gate == f.gate && f'.hs == f.hs && FrameMade(c, f)
    ensures FrameMade(c, f')
  {
    var xs :| forall k :: 0 <= k < |f.hs| && !f.hs[k].Silent? ==>
      k < |c.gates[f.gate].f(xs)| && c.gates[f.gate].f(xs)[k] != Nothing;
  }

  lemma ReplaceMade<W(!new), V(!new)>(c: Net<W, V>, s: State<W, V>, f: Frame<W, V>)
    requires s.stack != [] && AllMade(c, s) && FrameMade(c, f)
    ensures AllMade(c, Replace(s, f)) && AllMade(c, Pop(s))
  {
  }

  lemma StepMade<W(!new), V(!new)>(c: Net<W, V>, mode: nat -> Mode, s: State<W, V>, a: Action<W, V>)
    requires Enabled(c, s, a) && Safe(c, mode, s, a) && AllMade(c, s) && KicksEnabled(c, mode, a)
    ensures AllMade(c, Step(c, mode, s, a))
  {
    match a
    case Kick(g, r) => NotifyMade(c, mode, s, g, r);
    case Proceed =>
      var f := Inner(s);
      if f.Driving? {
        DriveStepMade(c, s);
      } else if f.Notifying? && f.taps != [] {
        var f' := Notifying(f.w, f.r, f.taps[1..]);
        ReplaceMade(c, s, f');
        if c.gates[f.taps[0].gate].enabled { NotifyMade(c, mode, Replace(s, f'), f.taps[0].gate, f.r); }
      } else if (f.Draining? || f.Posted?) && !f.ran {
        ReplaceMade(c, s, f.(ran := true));
        if c.gates[f.task.gate].enabled { FireMade(c, Begun(s), f.task.gate); }
      }
    case _ =>
  }

  // No client drives o.
  predicate Avoids<W(==), V>(a: Action<W, V>, o: W) {
    a.Drive? ==> a.w != o
  }

  /** A wire whose drivers are all disabled, or hand nothing to their port whatever they read, and that no client
      drives, is never written, however gates are notified. */
  lemma {:induction false} SilentStays<W(!new), V(!new)>(
    c: Net<W, V>, mode: nat -> Mode, s: State<W, V>, run: seq<Action<W, V>>, o: W)
    requires Legal(c, mode, s, run) && AllMade(c, s) && Silenced(c, o)
    requires forall i :: 0 <= i < |run| ==> KicksEnabled(c, mode, run[i]) && Avoids(run[i], o)
    ensures var s' := After(c, mode, s, run);
      (o in s'.slot <==> o in s.slot) && (o in s.slot ==> s'.slot[o] == s.slot[o])
    decreases |run|
  {
    if run != [] {
      var s1 := Step(c, mode, s, run[0]);
      StepMade(c, mode, s, run[0]);
      StepSilent(c, mode, s, run[0], o);
      SilentStays(c, mode, s1, run[1..], o);
    }
  }

  lemma StepSilent<W(!new), V(!new)>(c: Net<W, V>, mode: nat -> Mode, s: State<W, V>, a: Action<W, V>, o: W)
    requires Enabled(c, s, a) && Safe(c, mode, s, a) && AllMade(c, s) && Avoids(a, o) && Silenced(c, o)
    ensures var s' := Step(c, mode, s, a);
      (o in s'.slot <==> o in s.slot) && (o in s.slot ==> s'.slot[o] == s.slot[o])
  {
    StepWrites(c, mode, s, a);
    forall g: nat, j: nat, x, r | a.Proceed? && Writes(c, s, g, j, x, r) ensures x != o {
      assert FrameMade(c, Inner(s));
      assert Drives(c, g, j, x);
    }
  }

  // ----- the queue of the loop breaker

  // The queue is left, or gets one task at its end, or loses its first task, which begins to run.
  ghost predicate QueueMoves<W(!new), V(!new)>(s: State<W, V>, s': State<W, V>) {
    var q, q' := Queued(s), Queued(s');
    || q' == q
    || (exists t :: q' == q + [t])
    || (q != [] && q' == q[1..] && s'.stack != [] && Inner(s') == Draining(q[0], false))
  }

  lemma NotifyQueues<W(!new), V(!new)>(c: Net<W, V>, mode: nat -> Mode, s: State<W, V>, g: nat, r: Ref<V>)
    requires g < |c.gates| && AllLive(s.slot, s.cells) && Handable(mode, s, g, r)
    ensures QueueMoves(s, Notify(c, mode, s, g, r))
  {
    var q' := Queued(Notify(c, mode, s, g, r));
    assert q' == Queued(s) || q' == Queued(s) + [Task(g, r)];
  }

  lemma DriveQueues<W(!new), V(!new)>(c: Net<W, V>, s: State<W, V>)
    requires AllLive(s.slot, s.cells) && SafeCall(c, s) && Inner(s).Driving?
    ensures QueueMoves(s, DriveStep(c, s))
  {
    assert DriveStep(c, s).queue == s.queue;
  }

  lemma RunQueues<W(!new), V(!new)>(c: Net<W, V>, s: State<W, V>)
    requires AllLive(s.slot, s.cells) && SafeCall(c, s) && (Inner(s).Draining? || Inner(s).Posted?)
    ensures QueueMoves(s, RunStep(c, s))
  {
    if !Inner(s).ran { assert RunStep(c, s).queue == s.queue; }
  }

  /** A step leaves the queue, appends one task at its end, or takes its first task and begins to run it. */
  lemma StepQueues<W(!new), V(!new)>(c: Net<W, V>, mode: nat -> Mode, s: State<W, V>, a: Action<W, V>)
    requires Enabled(c, s, a) && Safe(c, mode, s, a)
    ensures QueueMoves(s, Step(c, mode, s, a))
  {
    match a
    case Kick(g, r) => NotifyQueues(c, mode, s, g, r);
    case Proceed =>
      var f := Inner(s);
      if f.Driving? {
        DriveQueues(c, s);
      } else if !f.Notifying? {
        RunQueues(c, s);
      } else if f.taps != [] && c.gates[f.taps[0].gate].enabled {
        NotifyQueues(c, mode, Replace(s, Notifying(f.w, f.r, f.taps[1..])), f.taps[0].gate, f.r);
      }
    case _ => assert Step(c, mode, s, a).queue == s.queue;
  }

  // Gate g is notified of r in its own way: it fires at once; its task runs at once when no loop breaker is active and
  // is queued last otherwise; or its task is posted last.
  ghost predicate NotifiedOf<W(!new), V>(c: Net<W, V>, mode: nat -> Mode, s: State<W, V>, s': State<W, V>, g: nat, r: Ref<V>)
    requires g < |c.gates| && AllLive(s.slot, s.cells)
  {
    match mode(g)
    case AtOnce => s' == Fire(c, s, g)
    case Posting => s'.stack == s.stack && s'.posted == s.posted + [Task(g, r)] && s'.queue == s.queue
    case Breaker =>
      if s.queue.None? then s'.stack == s.stack + [Draining(Task(g, r), false)] && s'.queue == Some([])
      else s'.stack == s.stack && s'.queue == Some(s.queue.value + [Task(g, r)])
  }

  // s with the innermost call replaced by f.
  function Resumed<W, V>(s: State<W, V>, f: Frame<W, V>): State<W, V>
    requires s.stack != []
  {
    s.(stack := s.stack[..|s.stack| - 1] + [f])
  }

  /** The loop over the drivens notifies the gate of the next port, if it is enabled, and goes on; at the end it returns. */
  lemma PortNotified<W(!new), V>(c: Net<W, V>, mode: nat -> Mode, s: State<W, V>)
    requires Safe(c, mode, s, Proceed) && s.stack != [] && Inner(s).Notifying?
    ensures var f, s' := Inner(s), Step(c, mode, s, Proceed);
      && (f.taps == [] ==> s' == s.(stack := Outer(s)))
      && (f.taps != [] ==>
            var g, s1 := f.taps[0].gate, Resumed(s, f.(taps := f.taps[1..]));
            if c.gates[g].enabled then NotifiedOf(c, mode, s1, s', g, f.r) else s' == s1)
  {
  }

  /** A client that notifies a gate does the same. */
  lemma Kicked<W(!new), V>(c: Net<W, V>, mode: nat -> Mode, s: State<W, V>, g: nat, r: Ref<V>)
    requires Safe(c, mode, s, Kick(g, r))
    ensures NotifiedOf(c, mode, s, Step(c, mode, s, Kick(g, r)), g, r)
  {
  }

  /** A gate drives its ports one after the other, each once the call for the one before has returned, and then returns;
      a port that is not wired, or has nothing that its wire takes, is passed over. */
  lemma DrivingGoesOn<W(!new), V>(c: Net<W, V>, mode: nat -> Mode, s: State<W, V>)
    requires Safe(c, mode, s, Proceed) && s.stack != [] && Inner(s).Driving?
    ensures var f, s' := Inner(s), Step(c, mode, s, Proceed);
      && (f.j == |f.hs| ==> s' == s.(stack := Outer(s)))
      && (f.j < |f.hs| && f.driven ==>
            s'.stack == Outer(s) + [f.(j := f.j + 1, driven := false)] && s'.slot == s.slot && s'.queue == s.queue)
      && (f.j < |f.hs| && !f.driven && (forall o, r :: !Writes(c, s, f.gate, f.j, o, r)) ==>
            s' == Resumed(s, f.(driven := true)))
  {
    var f := Inner(s);
    if f.j < |f.hs| && !f.driven && c.gates[f.gate].outs[f.j].Some? && !f.hs[f.j].Silent? {
      var o, r := c.gates[f.gate].outs[f.j].value, Pointer(f.hs[f.j]);
      assert Writes(c, s, f.gate, f.j, o, r) <==> Guarded(c.gates[f.gate], f.j, Value(r, s.cells));
    }
  }

  /** A task fires its gate once, unless the gate is disabled; then the loop breaker turns to the next task of the queue,
      and the queue goes with the last. */
  lemma TaskGoesOn<W(!new), V>(c: Net<W, V>, mode: nat -> Mode, s: State<W, V>)
    requires Safe(c, mode, s, Proceed) && s.stack != [] && (Inner(s).Draining? || Inner(s).Posted?)
    ensures var f, s' := Inner(s), Step(c, mode, s, Proceed);
      && (!f.ran ==>
            var s1 := Resumed(s, f.(ran := true));
            s' == if c.gates[f.task.gate].enabled then Fire(c, s1, f.task.gate) else s1)
      && (f.ran && f.Posted? ==> s'.stack == Outer(s) && s'.queue == s.queue)
      && (f.ran && f.Draining? && Queued(s) == [] ==> s'.stack == Outer(s) && s'.queue == None)
      && (f.ran && f.Draining? && Queued(s) != [] ==>
            s'.stack == Outer(s) + [Draining(Queued(s)[0], false)] && s'.queue == Some(Queued(s)[1..]))
  {
  }
}
