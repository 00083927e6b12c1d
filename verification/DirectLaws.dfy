/** What a drive on direct wires writes, entry by entry of the log: nothing but what enabled gates make of the values at
    that moment.  And how often: once for every path from the driven wire. */
module DirectLaws {
  import opened Circuit
  import opened Options
  import opened GateLaws
  import opened DirectWires

  // The values after the drives of log.
  ghost function Written<W(!new), V>(val: map<W, V>, log: seq<(W, V)>): map<W, V>
    decreases |log|
  {
    if log == [] then val
    else
      var last := |log| - 1;
      Written(val, log[..last])[log[last].0 := log[last].1]
  }

  lemma {:induction false} WrittenMore<W(!new), V>(val: map<W, V>, a: seq<(W, V)>, b: seq<(W, V)>)
    ensures Written(val, a + b) == Written(Written(val, a), b)
    decreases |b|
  {
    if b == [] {
      assert a + b == a;
    } else {
      var last := |b| - 1;
      assert (a + b)[..|a + b| - 1] == a + b[..last];
      WrittenMore(val, a, b[..last]);
    }
  }

  // Some enabled gate makes v for wire o.
  ghost predicate Justified<W(!new), V(!new)>(c: Net<W, V>, val: map<W, V>, o: W, v: V) {
    exists g, j :: Makes(c, val, g, j, o, v)
  }

  // Each drive of log was justified when it was made.
  ghost predicate AllJustified<W(!new), V(!new)>(c: Net<W, V>, val: map<W, V>, log: seq<(W, V)>) {
    forall i :: 0 <= i < |log| ==> Justified(c, Written(val, log[..i]), log[i].0, log[i].1)
  }

  // From a to b the wires changed by the drives that were logged, all of them justified.
  ghost predicate Follows<W(!new), V(!new)>(c: Net<W, V>, a: Signals<W, V>, b: Signals<W, V>) {
    && a.log <= b.log && b.val == Written(a.val, b.log[|a.log|..]) && AllJustified(c, a.val, b.log[|a.log|..])
  }

  lemma {:induction false} JustifiedMore<W(!new), V(!new)>(
    c: Net<W, V>, val: map<W, V>, a: seq<(W, V)>, b: seq<(W, V)>)
    requires AllJustified(c, val, a) && AllJustified(c, Written(val, a), b)
    ensures AllJustified(c, val, a + b)
  {
    forall i | 0 <= i < |a + b| ensures Justified(c, Written(val, (a + b)[..i]), (a + b)[i].0, (a + b)[i].1) {
      if i < |a| {
        assert (a + b)[..i] == a[..i];
      } else {
        assert (a + b)[..i] == a + b[..i - |a|];
        WrittenMore(val, a, b[..i - |a|]);
      }
    }
  }

  lemma {:induction false} FollowsTrans<W(!new), V(!new)>(
    c: Net<W, V>, x: Signals<W, V>, y: Signals<W, V>, z: Signals<W, V>)
    requires Follows(c, x, y) && Follows(c, y, z)
    ensures Follows(c, x, z)
  {
    var a, b := y.log[|x.log|..], z.log[|y.log|..];
    assert z.log[|x.log|..] == a + b;
    WrittenMore(x.val, a, b);
    JustifiedMore(c, x.val, a, b);
  }

  lemma {:induction false} FollowsFirst<W(!new), V(!new)>(c: Net<W, V>, st: Signals<W, V>, o: W, v: V)
    requires Justified(c, st.val, o, v)
    ensures Follows(c, st, Signals(st.val[o := v], st.log + [(o, v)]))
  {
    var log := [(o, v)];
    assert (st.log + log)[|st.log|..] == log && log[..0] == [];
  }

  /** Whatever the state: a drive writes its own value, and after that only what enabled gates whose inputs are complete
      make of the values at that moment; the wires are what the log says. */
  lemma {:induction false} DriveFollows<W(!new), V(!new)>(c: Net<W, V>, h: W -> nat, st: Signals<W, V>, w: W, v: V)
    requires WellFormed(c, h)
    ensures Follows(c, Signals(st.val[w := v], st.log + [(w, v)]), Drive(c, h, st, w, v))
    decreases h(w), 3, 0
  {
    NotifyFollows(c, h, Signals(st.val[w := v], st.log + [(w, v)]), w, Taps(c, w));
  }

  lemma {:induction false} NotifyFollows<W(!new), V(!new)>(
    c: Net<W, V>, h: W -> nat, st: Signals<W, V>, w: W, taps: seq<Tap>)
    requires WellFormed(c, h)
    requires forall i :: 0 <= i < |taps| ==> IsTap(c, w, taps[i])
    ensures Follows(c, st, Notify(c, h, st, w, taps))
    decreases h(w), 2, |taps|
  {
    if taps == [] {
      assert st.log[|st.log|..] == [];
    } else {
      assert Reads(c, taps[0].gate, w);
      var st1 := Execute(c, h, st, taps[0].gate, h(w));
      ExecuteFollows(c, h, st, taps[0].gate, h(w));
      NotifyFollows(c, h, st1, w, taps[1..]);
      FollowsTrans(c, st, st1, Notify(c, h, st1, w, taps[1..]));
    }
  }

  lemma {:induction false} ExecuteFollows<W(!new), V(!new)>(
    c: Net<W, V>, h: W -> nat, st: Signals<W, V>, g: nat, bound: nat)
    requires WellFormed(c, h) && g < |c.gates|
    requires forall j, o :: Drives(c, g, j, o) ==> h(o) < bound
    ensures Follows(c, st, Execute(c, h, st, g, bound))
    decreases bound, 1, 0
  {
    if c.gates[g].enabled && Ready(c.gates[g], st.val) {
      EmitFollows(c, h, st, g, bound, Inputs(c.gates[g], st.val), 0);
    } else {
      assert st.log[|st.log|..] == [];
    }
  }

  lemma {:induction false} EmitFollows<W(!new), V(!new)>(
    c: Net<W, V>, h: W -> nat, st: Signals<W, V>, g: nat, bound: nat, xs: seq<V>, j: nat)
    requires WellFormed(c, h) && g < |c.gates| && c.gates[g].enabled
    requires Ready(c.gates[g], st.val) && xs == Inputs(c.gates[g], st.val)
    requires forall j, o :: Drives(c, g, j, o) ==> h(o) < bound
    ensures Follows(c, st, Emit(c, h, st, g, bound, xs, j))
    decreases bound, 0, |c.gates[g].outs| - j
  {
    if j >= |c.gates[g].outs| {
      assert st.log[|st.log|..] == [];
    } else {
      var st1 := Put(c, h, st, g, bound, xs, j);
      PutFollows(c, h, st, g, bound, xs, j);
      PutInputs(c, h, st, g, bound, xs, j);
      EmitFollows(c, h, st1, g, bound, xs, j + 1);
      FollowsTrans(c, st, st1, Emit(c, h, st1, g, bound, xs, j + 1));
    }
  }

  // The gate still reads the same.
  lemma {:induction false} PutInputs<W(!new), V>(
    c: Net<W, V>, h: W -> nat, st: Signals<W, V>, g: nat, bound: nat, xs: seq<V>, j: nat)
    requires WellFormed(c, h) && g < |c.gates| && Ready(c.gates[g], st.val) && xs == Inputs(c.gates[g], st.val)
    requires j < |c.gates[g].outs| && forall j, o :: Drives(c, g, j, o) ==> h(o) < bound
    ensures var st1 := Put(c, h, st, g, bound, xs, j);
      Ready(c.gates[g], st1.val) && Inputs(c.gates[g], st1.val) == xs
  {
    var port, out := c.gates[g].outs[j], Out(c.gates[g], xs, j);
    InputsAbove(c, h, g);
    if port.Some? && out.Some? {
      assert Drives(c, g, j, port.value);
      DriveEffect(c, h, st, port.value, out.value);
    }
    InputsFrame(c.gates[g], st.val, Put(c, h, st, g, bound, xs, j).val);
  }

  lemma {:induction false} PutFollows<W(!new), V(!new)>(
    c: Net<W, V>, h: W -> nat, st: Signals<W, V>, g: nat, bound: nat, xs: seq<V>, j: nat)
    requires WellFormed(c, h) && g < |c.gates| && c.gates[g].enabled && j < |c.gates[g].outs|
    requires Ready(c.gates[g], st.val) && xs == Inputs(c.gates[g], st.val)
    requires forall j, o :: Drives(c, g, j, o) ==> h(o) < bound
    ensures Follows(c, st, Put(c, h, st, g, bound, xs, j))
    decreases bound, 0, 0
  {
    var port, out := c.gates[g].outs[j], Out(c.gates[g], xs, j);
    if port.Some? && out.Some? {
      var o, v := port.value, out.value;
      assert Drives(c, g, j, o);
      MakesIs(c, st.val, g, j, o, v);
      assert Makes(c, st.val, g, j, o, v);
      FollowsFirst(c, st, o, v);
      DriveFollows(c, h, st, o, v);
      FollowsTrans(c, st, Signals(st.val[o := v], st.log + [(o, v)]), Drive(c, h, st, o, v));
    } else {
      assert st.log[|st.log|..] == [];
    }
  }

  // ----- what stays as it is

  lemma {:induction false} NotWritten<W(!new), V>(val: map<W, V>, log: seq<(W, V)>, o: W)
    requires forall i :: 0 <= i < |log| ==> log[i].0 != o
    ensures Same(val, Written(val, log), o)
    decreases |log|
  {
    if log != [] { NotWritten(val, log[..|log| - 1], o); }
  }

  /** A wire for which no gate makes anything, whatever the wires hold, is not touched. */
  lemma {:induction false} UnmadeStays<W(!new), V(!new)>(
    c: Net<W, V>, h: W -> nat, st: Signals<W, V>, w: W, v: V, o: W)
    requires WellFormed(c, h) && o != w
    requires forall val, x :: !Justified(c, val, o, x)
    ensures var st' := Drive(c, h, st, w, v);
      && Same(st.val, st'.val, o) && st.log <= st'.log
      && forall i :: |st.log| <= i < |st'.log| ==> st'.log[i].0 != o
  {
    var st1, st' := Signals(st.val[w := v], st.log + [(w, v)]), Drive(c, h, st, w, v);
    DriveFollows(c, h, st, w, v);
    var log := st'.log[|st1.log|..];
    forall i | 0 <= i < |log| ensures log[i].0 != o {
      assert Justified(c, Written(st1.val, log[..i]), log[i].0, log[i].1);
    }
    NotWritten(st1.val, log, o);
    forall i | |st.log| <= i < |st'.log| ensures st'.log[i].0 != o {
      if i > |st.log| { assert st'.log[i] == log[i - |st1.log|]; } else { assert st'.log[i] == st1.log[i]; }
    }
  }

  /** So a wire whose drivers are all disabled, or hand nothing to their port whatever they read, is not touched. */
  lemma {:induction false} SilentStays<W(!new), V(!new)>(
    c: Net<W, V>, h: W -> nat, st: Signals<W, V>, w: W, v: V, o: W)
    requires WellFormed(c, h) && o != w && Silenced(c, o)
    ensures var st' := Drive(c, h, st, w, v);
      && Same(st.val, st'.val, o) && st.log <= st'.log
      && forall i :: |st.log| <= i < |st'.log| ==> st'.log[i].0 != o
  {
    forall val, x ensures !Justified(c, val, o, x) {
      assert forall g, j :: Makes(c, val, g, j, o, x) ==> Drives(c, g, j, o);
    }
    UnmadeStays(c, h, st, w, v, o);
  }

  /** What a gate under a type test drove in the course of a drive has passed the test. */
  lemma {:induction false} DrivenFits<W(!new), V(!new)>(
    c: Net<W, V>, h: W -> nat, st: Signals<W, V>, w: W, v: V, g: nat, j: nat, p: (nat, V) -> bool, i: nat)
    requires WellFormed(c, h) && g < |c.gates| && c.gates[g].guard == Some(p)
    requires |st.log| < i < |Drive(c, h, st, w, v).log| && Drives(c, g, j, Drive(c, h, st, w, v).log[i].0)
    ensures p(j, Drive(c, h, st, w, v).log[i].1)
  {
    var st1, st' := Signals(st.val[w := v], st.log + [(w, v)]), Drive(c, h, st, w, v);
    DriveFollows(c, h, st, w, v);
    var log := st'.log[|st1.log|..];
    var k := i - |st1.log|;
    assert log[k] == st'.log[i] && Justified(c, Written(st1.val, log[..k]), log[k].0, log[k].1);
    var g': nat, j': nat :| Makes(c, Written(st1.val, log[..k]), g', j', log[k].0, log[k].1);
    assert Drives(c, g', j', log[k].0);
  }

  /** In a settled circuit an enabled gate whose inputs are complete shows on each wire what it hands to it, if the wire
      takes that. */
  lemma {:induction false} SettledShows<W(!new), V(!new)>(
    c: Net<W, V>, val: map<W, V>, g: nat, j: nat, o: W, xs: seq<V>, v: V)
    requires Settled(c, val) && g < |c.gates| && j < |c.gates[g].outs| && c.gates[g].outs[j] == Some(o)
    requires c.gates[g].enabled && Complete(c.gates[g], val)
    requires exists p :: 0 <= p < |c.gates[g].ins| && c.gates[g].ins[p].Some?
    requires Reading(c.gates[g], val, xs) && Hands(c.gates[g], xs, j, v)
    requires c.gates[g].guard.Some? ==> c.gates[g].guard.value(j, v)
    ensures o in val && val[o] == v
  {
    var p: nat :| p < |c.gates[g].ins| && c.gates[g].ins[p].Some?;
    WiredAt(c.gates[g].ins, p);
    assert Makes(c, val, g, j, o, v);
    MakesIs(c, val, g, j, o, v);
    assert PortOk(c, val, g, j);
  }

  // ----- how often a wire is driven

  function Count<W(==), V>(log: seq<(W, V)>, o: W): nat
    decreases |log|
  {
    if log == [] then 0 else Count(log[..|log| - 1], o) + if log[|log| - 1].0 == o then 1 else 0
  }

  // The number of paths from w to o, the empty path included; a gate is on one for each of its ports that w drives.
  ghost function Paths<W(!new), V>(c: Net<W, V>, h: W -> nat, w: W, o: W): nat
    requires WellFormed(c, h)
    decreases h(w), 2, 0
  {
    (if w == o then 1 else 0) + PathsBelow(c, h, w, Taps(c, w), o)
  }

  ghost function PathsBelow<W(!new), V>(c: Net<W, V>, h: W -> nat, w: W, taps: seq<Tap>, o: W): nat
    requires WellFormed(c, h)
    requires forall i :: 0 <= i < |taps| ==> IsTap(c, w, taps[i])
    decreases h(w), 1, |taps|
  {
    if taps == [] then 0
    else
      assert Reads(c, taps[0].gate, w);
      PathsFrom(c, h, taps[0].gate, h(w), 0, o) + PathsBelow(c, h, w, taps[1..], o)
  }

  ghost function PathsFrom<W(!new), V>(c: Net<W, V>, h: W -> nat, g: nat, bound: nat, j: nat, o: W): nat
    requires WellFormed(c, h) && g < |c.gates|
    requires forall j, o :: Drives(c, g, j, o) ==> h(o) < bound
    decreases bound, 0, |c.gates[g].outs| - j
  {
    if j >= |c.gates[g].outs| then 0
    else if c.gates[g].outs[j].None? then PathsFrom(c, h, g, bound, j + 1, o)
    else
      assert Drives(c, g, j, c.gates[g].outs[j].value);
      Paths(c, h, c.gates[g].outs[j].value, o) + PathsFrom(c, h, g, bound, j + 1, o)
  }

  ghost predicate AllReady<W(!new), V>(c: Net<W, V>, val: map<W, V>) {
    forall g :: 0 <= g < |c.gates| ==> Ready(c.gates[g], val)
  }

  lemma ReadyGrows<W(!new), V>(c: Net<W, V>, a: Signals<W, V>, b: Signals<W, V>)
    requires AllReady(c, a.val) && Grows(a, b)
    ensures AllReady(c, b.val)
  {
  }

  /** When every gate can fire, a drive drives each wire once for every path to it: glitches are counted by paths. */
  lemma {:induction false} DriveCounts<W(!new), V(!new)>(
    c: Net<W, V>, h: W -> nat, st: Signals<W, V>, w: W, v: V, o: W)
    requires WellFormed(c, h) && Total(c) && AllReady(c, st.val)
    ensures Count(Drive(c, h, st, w, v).log, o) == Count(st.log, o) + Paths(c, h, w, o)
    decreases h(w), 3, 0
  {
    var st1 := Signals(st.val[w := v], st.log + [(w, v)]);
    assert st1.log[..|st1.log| - 1] == st.log;
    ReadyGrows(c, st, st1);
    NotifyCounts(c, h, st1, w, Taps(c, w), o);
  }

  lemma {:induction false} NotifyCounts<W(!new), V(!new)>(
    c: Net<W, V>, h: W -> nat, st: Signals<W, V>, w: W, taps: seq<Tap>, o: W)
    requires WellFormed(c, h) && Total(c) && AllReady(c, st.val)
    requires forall i :: 0 <= i < |taps| ==> IsTap(c, w, taps[i])
    ensures Count(Notify(c, h, st, w, taps).log, o) == Count(st.log, o) + PathsBelow(c, h, w, taps, o)
    decreases h(w), 2, |taps|
  {
    if taps != [] {
      var g := taps[0].gate;
      assert Reads(c, g, w);
      EmitCounts(c, h, st, g, h(w), Inputs(c.gates[g], st.val), 0, o);
      ExecuteEffect(c, h, st, g, h(w));
      ReadyGrows(c, st, Execute(c, h, st, g, h(w)));
      NotifyCounts(c, h, Execute(c, h, st, g, h(w)), w, taps[1..], o);
    }
  }

  lemma {:induction false} EmitCounts<W(!new), V(!new)>(
    c: Net<W, V>, h: W -> nat, st: Signals<W, V>, g: nat, bound: nat, xs: seq<V>, j: nat, o: W)
    requires WellFormed(c, h) && Total(c) && AllReady(c, st.val) && g < |c.gates| && |xs| == |Wired(c.gates[g].ins)|
    requires forall j, o :: Drives(c, g, j, o) ==> h(o) < bound
    ensures Count(Emit(c, h, st, g, bound, xs, j).log, o) == Count(st.log, o) + PathsFrom(c, h, g, bound, j, o)
    decreases bound, 0, |c.gates[g].outs| - j
  {
    if j < |c.gates[g].outs| {
      var port, st1 := c.gates[g].outs[j], Put(c, h, st, g, bound, xs, j);
      if port.Some? {
        assert Drives(c, g, j, port.value) && Out(c.gates[g], xs, j).Some?;
        DriveCounts(c, h, st, port.value, Out(c.gates[g], xs, j).value, o);
        DriveEffect(c, h, st, port.value, Out(c.gates[g], xs, j).value);
        ReadyGrows(c, st, st1);
      }
      EmitCounts(c, h, st1, g, bound, xs, j + 1, o);
    }
  }

  // ----- in which order wires are driven

  function Wires<W, V>(log: seq<(W, V)>): seq<W> {
    seq(|log|, i requires 0 <= i < |log| => log[i].0)
  }

  // The wire, and then for each of its ports in order, for each output port of the port's gate in order, what follows
  // from the wire there.
  ghost function DepthFirst<W(!new), V>(c: Net<W, V>, h: W -> nat, w: W): seq<W>
    requires WellFormed(c, h)
    decreases h(w), 2, 0
  {
    [w] + DepthFirstBelow(c, h, w, Taps(c, w))
  }

  ghost function DepthFirstBelow<W(!new), V>(c: Net<W, V>, h: W -> nat, w: W, taps: seq<Tap>): seq<W>
    requires WellFormed(c, h)
    requires forall i :: 0 <= i < |taps| ==> IsTap(c, w, taps[i])
    decreases h(w), 1, |taps|
  {
    if taps == [] then []
    else
      assert Reads(c, taps[0].gate, w);
      DepthFirstFrom(c, h, taps[0].gate, h(w), 0) + DepthFirstBelow(c, h, w, taps[1..])
  }

  ghost function DepthFirstFrom<W(!new), V>(c: Net<W, V>, h: W -> nat, g: nat, bound: nat, j: nat): seq<W>
    requires WellFormed(c, h) && g < |c.gates|
    requires forall j, o :: Drives(c, g, j, o) ==> h(o) < bound
    decreases bound, 0, |c.gates[g].outs| - j
  {
    if j >= |c.gates[g].outs| then []
    else if c.gates[g].outs[j].None? then DepthFirstFrom(c, h, g, bound, j + 1)
    else
      assert Drives(c, g, j, c.gates[g].outs[j].value);
      DepthFirst(c, h, c.gates[g].outs[j].value) + DepthFirstFrom(c, h, g, bound, j + 1)
  }

  /** When every gate can fire, a drive drives the wires below depth first: ports in wiring order, outputs in port order,
      and a wire's followers before the next wire. */
  lemma {:induction false} DriveOrder<W(!new), V(!new)>(c: Net<W, V>, h: W -> nat, st: Signals<W, V>, w: W, v: V)
    requires WellFormed(c, h) && Total(c) && AllReady(c, st.val)
    ensures Wires(Drive(c, h, st, w, v).log) == Wires(st.log) + DepthFirst(c, h, w)
    decreases h(w), 3, 0
  {
    var st1 := Signals(st.val[w := v], st.log + [(w, v)]);
    assert Wires(st1.log) == Wires(st.log) + [w];
    ReadyGrows(c, st, st1);
    NotifyOrder(c, h, st1, w, Taps(c, w));
  }

  lemma Joins<T>(a: seq<T>, x: seq<T>, y: seq<T>, ax: seq<T>, axy: seq<T>)
    requires ax == a + x && axy == ax + y
    ensures axy == a + (x + y)
  {
  }

  lemma {:induction false} NotifyOrder<W(!new), V(!new)>(
    c: Net<W, V>, h: W -> nat, st: Signals<W, V>, w: W, taps: seq<Tap>)
    requires WellFormed(c, h) && Total(c) && AllReady(c, st.val)
    requires forall i :: 0 <= i < |taps| ==> IsTap(c, w, taps[i])
    ensures Wires(Notify(c, h, st, w, taps).log) == Wires(st.log) + DepthFirstBelow(c, h, w, taps)
    decreases h(w), 2, |taps|
  {
    if taps != [] {
      var g := taps[0].gate;
      assert Reads(c, g, w);
      var st1 := Execute(c, h, st, g, h(w));
      EmitOrder(c, h, st, g, h(w), Inputs(c.gates[g], st.val), 0);
      ExecuteEffect(c, h, st, g, h(w));
      ReadyGrows(c, st, st1);
      NotifyOrder(c, h, st1, w, taps[1..]);
      assert Notify(c, h, st, w, taps) == Notify(c, h, st1, w, taps[1..]);
      Joins(Wires(st.log), DepthFirstFrom(c, h, g, h(w), 0), DepthFirstBelow(c, h, w, taps[1..]), Wires(st1.log),
            Wires(Notify(c, h, st, w, taps).log));
    }
  }

  lemma {:induction false} EmitOrder<W(!new), V(!new)>(
    c: Net<W, V>, h: W -> nat, st: Signals<W, V>, g: nat, bound: nat, xs: seq<V>, j: nat)
    requires WellFormed(c, h) && Total(c) && AllReady(c, st.val) && g < |c.gates| && |xs| == |Wired(c.gates[g].ins)|
    requires forall j, o :: Drives(c, g, j, o) ==> h(o) < bound
    ensures Wires(Emit(c, h, st, g, bound, xs, j).log) == Wires(st.log) + DepthFirstFrom(c, h, g, bound, j)
    decreases bound, 0, |c.gates[g].outs| - j
  {
    if j < |c.gates[g].outs| {
      var port, st1 := c.gates[g].outs[j], Put(c, h, st, g, bound, xs, j);
      if port.Some? {
        assert Drives(c, g, j, port.value) && Out(c.gates[g], xs, j).Some?;
        DriveOrder(c, h, st, port.value, Out(c.gates[g], xs, j).value);
        DriveEffect(c, h, st, port.value, Out(c.gates[g], xs, j).value);
        ReadyGrows(c, st, st1);
      }
      EmitOrder(c, h, st1, g, bound, xs, j + 1);
    }
  }
}
