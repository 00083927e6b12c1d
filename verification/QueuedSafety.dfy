/** When a circuit with queued notifications touches freed memory: for every circuit, with feedback or not. */
module QueuedSafety {
  import opened Circuit
  import opened Options
  import opened ReferenceCounts
  import opened QueuedBoard
  import opened QueuedBooks

  // ----- gate and port numbers stay in range

  lemma PushInRange<W(!new), V>(c: Net<W, V>, s: State<W, V>, f: Frame<W, V>)
    requires AllInRange(c, s) && InRange(c, f)
    ensures AllInRange(c, Push(s, f))
  {
  }

  lemma ReplaceInRange<W(!new), V>(c: Net<W, V>, s: State<W, V>, f: Frame<W, V>)
    requires AllInRange(c, s) && s.stack != [] && InRange(c, f)
    ensures AllInRange(c, Pop(s)) && AllInRange(c, Replace(s, f))
  {
  }

  lemma FireInRange<W(!new), V>(c: Net<W, V>, s: State<W, V>, g: nat)
    requires AllInRange(c, s) && g < |c.gates| && AllLive(s.slot, s.cells)
    ensures AllInRange(c, Fire(c, s, g)) && AllInRange(c, Execute(c, s, g))
  {
  }

  lemma NotifyInRange<W(!new), V>(c: Net<W, V>, mode: nat -> Mode, s: State<W, V>, g: nat, r: Ref<V>)
    requires AllInRange(c, s) && g < |c.gates| && AllLive(s.slot, s.cells) && Handable(mode, s, g, r)
    ensures AllInRange(c, Notify(c, mode, s, g, r))
  {
    if mode(g) == AtOnce { FireInRange(c, s, g); }
  }

  lemma DriveWireInRange<W(!new), V>(c: Net<W, V>, s: State<W, V>, w: W, r: Ref<V>)
    requires Agrees(c) && AllInRange(c, s) && AllLive(s.slot, s.cells) && Live(r, s.cells)
    ensures AllInRange(c, DriveWire(c, s, w, r))
  {
  }

  lemma TurnInRange<W(!new), V>(c: Net<W, V>, mode: nat -> Mode, s: State<W, V>)
    requires AllInRange(c, s) && AllLive(s.slot, s.cells) && SafeInner(c, mode, s) && Inner(s).Notifying?
    ensures AllInRange(c, Advance(c, mode, s))
  {
    var f := Inner(s);
    assert InRange(c, s.stack[|s.stack| - 1]);
    if f.taps == [] {
      ReplaceInRange(c, s, f);
    } else {
      var f', g := Notifying(f.w, f.r, f.taps[1..]), f.taps[0].gate;
      ReplaceInRange(c, s, f');
      if c.gates[g].enabled { NotifyInRange(c, mode, Replace(s, f'), g, f.r); }
    }
  }

  lemma DriveStepInRange<W(!new), V>(c: Net<W, V>, s: State<W, V>)
    requires Agrees(c) && AllInRange(c, s) && AllLive(s.slot, s.cells) && SafeCall(c, s) && Inner(s).Driving?
    ensures AllInRange(c, DriveStep(c, s))
  {
    var f := Inner(s);
    if f.j == |f.hs| {
      ReplaceInRange(c, s, f);
    } else if f.driven {
      ReplaceInRange(c, s, f.(j := f.j + 1, driven := false));
    } else {
      ReplaceInRange(c, s, f.(driven := true));
      var s1 := Replace(s, f.(driven := true));
      if DriveStep(c, s) != s1 { DriveWireInRange(c, s1, c.gates[f.gate].outs[f.j].value, Pointer(f.hs[f.j])); }
    }
  }

  lemma RunInRange<W(!new), V>(c: Net<W, V>, s: State<W, V>)
    requires AllInRange(c, s) && AllLive(s.slot, s.cells) && SafeCall(c, s) && (Inner(s).Draining? || Inner(s).Posted?)
    ensures AllInRange(c, RunStep(c, s))
  {
    ReplaceInRange(c, s, Inner(s).(ran := true));
    if !Inner(s).ran { FireInRange(c, Begun(s), Inner(s).task.gate); }
  }

  lemma StepInRange<W(!new), V>(c: Net<W, V>, mode: nat -> Mode, s: State<W, V>, a: Action<W, V>)
    requires Agrees(c) && AllInRange(c, s) && Enabled(c, s, a) && Safe(c, mode, s, a)
    ensures AllInRange(c, Step(c, mode, s, a))
  {
    match a {
      case Drive(w, r) => DriveWireInRange(c, s.(log := s.log + [(w, Value(r, s.cells))]), w, r);
      case Kick(g, r) => NotifyInRange(c, mode, s, g, r);
      case Take(i) => PushInRange(c, s.(posted := s.posted[..i] + s.posted[i + 1..]), Posted(s.posted[i], false));
      case Proceed =>
        if Inner(s).Notifying? {
          TurnInRange(c, mode, s);
        } else if Inner(s).Driving? {
          DriveStepInRange(c, s);
        } else {
          RunInRange(c, s);
        }
      case _ =>
    }
  }

  // ----- whole runs

  lemma {:induction false} RunBalanced<W(!new), V>(
    c: Net<W, V>, mode: nat -> Mode, s: State<W, V>, run: seq<Action<W, V>>)
    requires Agrees(c) && Books(s) && AllInRange(c, s) && Legal(c, mode, s, run)
    ensures Books(After(c, mode, s, run)) && AllInRange(c, After(c, mode, s, run))
    decreases |run|
  {
    if run != [] {
      StepBooks(c, mode, s, run[0]);
      StepInRange(c, mode, s, run[0]);
      RunBalanced(c, mode, Step(c, mode, s, run[0]), run[1..]);
    }
  }

  // What the innermost call hands on, if anything, is held by someone.
  ghost predicate HandsOnHeld<W(!new), V>(c: Net<W, V>, mode: nat -> Mode, s: State<W, V>)
    requires s.stack != []
  {
    HandedOn(c, mode, s).Some? ==> IsHeld(s, HandedOn(c, mode, s).value)
  }

  /** For every circuit and every run that has touched no freed memory so far: the counts are right, what
      clients and workers may do next is safe, and the next step of the innermost call is safe exactly when
      what it hands on without a reference of its own is held by a slot, a task, another call or a client. */
  lemma {:induction false} SafeExactly<W(!new), V>(c: Net<W, V>, mode: nat -> Mode, run: seq<Action<W, V>>)
    requires Agrees(c) && Legal(c, mode, Initial(), run)
    ensures var s := After(c, mode, Initial(), run);
      && Balanced(s.slot, s.cells, Outside(s))
      && (forall a :: Enabled(c, s, a) && !a.Proceed? ==> Safe(c, mode, s, a))
      && (s.stack != [] ==> (Safe(c, mode, s, Proceed) <==> HandsOnHeld(c, mode, s)))
  {
    RunBalanced(c, mode, Initial(), run);
    var s := After(c, mode, Initial(), run);
    forall a | Enabled(c, s, a) && !a.Proceed? ensures Safe(c, mode, s, a) {
      OuterSafe(c, mode, s, a);
    }
    if s.stack != [] { ProceedSafeIff(c, mode, s); }
  }
}
