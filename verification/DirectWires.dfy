/** Direct wires: a wire holds one value; driving it stores the value and notifies the gates it drives
    one after the other, each of which may drive further wires before the next one is notified. */
module DirectWires {
  import opened Circuit
  import opened Options

  // The value of each wire that holds one, and every drive so far.
  datatype Signals<!W(==), V> = Signals(val: map<W, V>, log: seq<(W, V)>)

  // lxc_drive_wire_value on a wire and a value that are both present.
  ghost function Drive<W(!new), V>(c: Net<W, V>, h: W -> nat, st: Signals<W, V>, w: W, v: V): Signals<W, V>
    requires WellFormed(c, h)
    decreases h(w), 3, 0
  {
    Notify(c, h, Signals(st.val[w := v], st.log + [(w, v)]), w, Taps(c, w))
  }

  ghost function Notify<W(!new), V>(c: Net<W, V>, h: W -> nat, st: Signals<W, V>, w: W, taps: seq<Tap>): Signals<W, V>
    requires WellFormed(c, h)
    requires forall i :: 0 <= i < |taps| ==> IsTap(c, w, taps[i])
    decreases h(w), 2, |taps|
  {
    if taps == [] then st
    else
      assert Reads(c, taps[0].gate, w);
      Notify(c, h, Execute(c, h, st, taps[0].gate, h(w)), w, taps[1..])
  }

  ghost function Execute<W(!new), V>(c: Net<W, V>, h: W -> nat, st: Signals<W, V>, g: nat, bound: nat): Signals<W, V>
    requires WellFormed(c, h) && g < |c.gates|
    requires forall j, o :: Drives(c, g, j, o) ==> h(o) < bound
    decreases bound, 1, 0
  {
    if c.gates[g].enabled && Ready(c.gates[g], st.val)
    then Emit(c, h, st, g, bound, Inputs(c.gates[g], st.val), 0)
    else st
  }

  // Drives the output ports from j on with what the gate makes of xs.
  ghost function Emit<W(!new), V>(
    c: Net<W, V>, h: W -> nat, st: Signals<W, V>, g: nat, bound: nat, xs: seq<V>, j: nat): Signals<W, V>
    requires WellFormed(c, h) && g < |c.gates|
    requires forall j, o :: Drives(c, g, j, o) ==> h(o) < bound
    decreases bound, 0, |c.gates[g].outs| - j
  {
    if j >= |c.gates[g].outs| then st
    else Emit(c, h, Put(c, h, st, g, bound, xs, j), g, bound, xs, j + 1)
  }

  ghost function Put<W(!new), V>(
    c: Net<W, V>, h: W -> nat, st: Signals<W, V>, g: nat, bound: nat, xs: seq<V>, j: nat): Signals<W, V>
    requires WellFormed(c, h) && g < |c.gates| && j < |c.gates[g].outs|
    requires forall j, o :: Drives(c, g, j, o) ==> h(o) < bound
    decreases bound, 0, 0
  {
    var out := Out(c.gates[g], xs, j);
    if c.gates[g].outs[j].Some? && out.Some? then
      assert Drives(c, g, j, c.gates[g].outs[j].value);
      Drive(c, h, st, c.gates[g].outs[j].value, out.value)
    else st
  }

  // ----- the fixpoint

  // Output port j of gate g shows the gate's function of the current inputs.
  ghost predicate PortOk<W(!new), V>(c: Net<W, V>, val: map<W, V>, g: nat, j: nat) {
    g < |c.gates| && j < |c.gates[g].outs| && c.gates[g].outs[j].Some? && c.gates[g].enabled
    && Wired(c.gates[g].ins) != [] && Ready(c.gates[g], val) ==>
      var out := Out(c.gates[g], Inputs(c.gates[g], val), j);
      out.Some? ==> c.gates[g].outs[j].value in val && val[c.gates[g].outs[j].value] == out.value
  }

  ghost predicate Settled<W(!new), V>(c: Net<W, V>, val: map<W, V>) {
    forall g, j :: PortOk(c, val, g, j)
  }

  ghost predicate Same<W, V>(a: map<W, V>, b: map<W, V>, x: W) {
    (x in a <==> x in b) && (x in a && x in b ==> a[x] == b[x])
  }

  ghost predicate Grows<W, V>(a: Signals<W, V>, b: Signals<W, V>) {
    a.val.Keys <= b.val.Keys && a.log <= b.log
  }

  // x lies above everything gate g drives.
  ghost predicate Above<W(!new), V>(c: Net<W, V>, h: W -> nat, g: nat, x: W) {
    Source(c, x) || forall j, o :: Drives(c, g, j, o) ==> h(o) < h(x)
  }

  ghost predicate SameInputs<W, V>(g: Gate<W, V>, a: map<W, V>, b: map<W, V>) {
    forall w :: w in Wired(g.ins) ==> Same(a, b, w)
  }

  lemma InputsFrame<W, V>(g: Gate<W, V>, a: map<W, V>, b: map<W, V>)
    requires SameInputs(g, a, b)
    ensures Ready(g, a) <==> Ready(g, b)
    ensures Ready(g, a) ==> Inputs(g, a) == Inputs(g, b)
  {
    if Ready(g, a) {
      forall i | 0 <= i < |Wired(g.ins)| ensures Inputs(g, a)[i] == Inputs(g, b)[i] {
        assert Wired(g.ins)[i] in Wired(g.ins);
      }
    }
  }

  lemma PortFrame<W(!new), V>(c: Net<W, V>, a: map<W, V>, b: map<W, V>, g: nat, j: nat)
    requires PortOk(c, a, g, j)
    requires g < |c.gates| ==> SameInputs(c.gates[g], a, b)
    requires forall o :: Drives(c, g, j, o) ==> Same(a, b, o)
    ensures PortOk(c, b, g, j)
  {
    if g < |c.gates| && j < |c.gates[g].outs| && c.gates[g].outs[j].Some? {
      assert Drives(c, g, j, c.gates[g].outs[j].value);
      InputsFrame(c.gates[g], a, b);
    }
  }

  lemma {:induction false} DriveEffect<W(!new), V>(c: Net<W, V>, h: W -> nat, st: Signals<W, V>, w: W, v: V)
    requires WellFormed(c, h)
    ensures var st' := Drive(c, h, st, w, v);
      && w in st'.val && st'.val[w] == v && Grows(st, st')
      && (forall x :: x != w && (h(x) >= h(w) || Source(c, x)) ==> Same(st.val, st'.val, x))
      && (forall g, j :: !Drives(c, g, j, w) && (PortOk(c, st.val, g, j) || Reads(c, g, w)) ==>
            PortOk(c, st'.val, g, j))
    decreases h(w), 3, 0
  {
    var st1 := Signals(st.val[w := v], st.log + [(w, v)]);
    var st' := Drive(c, h, st, w, v);
    NotifyEffect(c, h, st1, w, Taps(c, w));
    forall g: nat, j: nat | !Drives(c, g, j, w) && (PortOk(c, st.val, g, j) || Reads(c, g, w))
      ensures PortOk(c, st'.val, g, j)
    {
      if Reads(c, g, w) {
        var p: nat :| p < |c.gates[g].ins| && c.gates[g].ins[p] == Some(w);
        assert IsTap(c, w, Tap(g, p));
      } else {
        if g < |c.gates| { WiredIs(c.gates[g].ins); }
        PortFrame(c, st.val, st1.val, g, j);
      }
    }
    assert Same(st1.val, st'.val, w);
  }

  lemma {:induction false} NotifyEffect<W(!new), V>(c: Net<W, V>, h: W -> nat, st: Signals<W, V>, w: W, taps: seq<Tap>)
    requires WellFormed(c, h)
    requires forall i :: 0 <= i < |taps| ==> IsTap(c, w, taps[i])
    ensures var st' := Notify(c, h, st, w, taps);
      && Grows(st, st')
      && (forall x :: h(x) >= h(w) || Source(c, x) ==> Same(st.val, st'.val, x))
      && (forall g, j :: PortOk(c, st.val, g, j) ==> PortOk(c, st'.val, g, j))
      && (forall t, j :: t in taps ==> PortOk(c, st'.val, t.gate, j))
    decreases h(w), 2, |taps|
  {
    if taps != [] {
      var g := taps[0].gate;
      assert Reads(c, g, w);
      var st1 := Execute(c, h, st, g, h(w));
      ExecuteEffect(c, h, st, g, h(w));
      NotifyEffect(c, h, st1, w, taps[1..]);
      var st' := Notify(c, h, st, w, taps);
      assert st' == Notify(c, h, st1, w, taps[1..]);
      forall x | h(x) >= h(w) || Source(c, x) ensures Same(st.val, st'.val, x) {
        assert Above(c, h, g, x);
      }
      forall g': nat, j: nat | PortOk(c, st.val, g', j) ensures PortOk(c, st'.val, g', j) {
        assert PortOk(c, st1.val, g', j);
      }
      forall t, j: nat | t in taps ensures PortOk(c, st'.val, t.gate, j) {
        assert t == taps[0] || t in taps[1..];
        if t == taps[0] { assert PortOk(c, st1.val, g, j); }
      }
    }
  }

  lemma {:induction false} ExecuteEffect<W(!new), V>(c: Net<W, V>, h: W -> nat, st: Signals<W, V>, g: nat, bound: nat)
    requires WellFormed(c, h) && g < |c.gates|
    requires forall j, o :: Drives(c, g, j, o) ==> h(o) < bound
    ensures var st' := Execute(c, h, st, g, bound);
      && Grows(st, st')
      && (forall x :: Above(c, h, g, x) ==> Same(st.val, st'.val, x))
      && (forall g', j :: PortOk(c, st.val, g', j) || g' == g ==> PortOk(c, st'.val, g', j))
    decreases bound, 1, 0
  {
    if c.gates[g].enabled && Ready(c.gates[g], st.val) {
      EmitEffect(c, h, st, g, bound, Inputs(c.gates[g], st.val), 0);
    }
  }

  lemma {:induction false} EmitEffect<W(!new), V>(
    c: Net<W, V>, h: W -> nat, st: Signals<W, V>, g: nat, bound: nat, xs: seq<V>, j: nat)
    requires WellFormed(c, h) && g < |c.gates| && Ready(c.gates[g], st.val) && xs == Inputs(c.gates[g], st.val)
    requires forall j, o :: Drives(c, g, j, o) ==> h(o) < bound
    ensures var st' := Emit(c, h, st, g, bound, xs, j);
      && Grows(st, st')
      && (forall x :: Above(c, h, g, x) ==> Same(st.val, st'.val, x))
      && (forall g', j' :: PortOk(c, st.val, g', j') || (g' == g && j <= j') ==> PortOk(c, st'.val, g', j'))
    decreases bound, 0, |c.gates[g].outs| - j
  {
    if j < |c.gates[g].outs| {
      var port := c.gates[g].outs[j];
      var out := Out(c.gates[g], xs, j);
      var st1 := Put(c, h, st, g, bound, xs, j);
      if port.Some? && out.Some? {
        assert Drives(c, g, j, port.value);
        DriveEffect(c, h, st, port.value, out.value);
      }
      InputsAbove(c, h, g);
      assert SameInputs(c.gates[g], st.val, st1.val);
      InputsFrame(c.gates[g], st.val, st1.val);
      assert PortOk(c, st1.val, g, j);
      forall g': nat, j': nat | PortOk(c, st.val, g', j') ensures PortOk(c, st1.val, g', j') {
        if port.Some? && Drives(c, g', j', port.value) {
          assert Drives(c, g, j, port.value);
        }
      }
      EmitEffect(c, h, st1, g, bound, xs, j + 1);
    }
  }

  lemma InputsAbove<W(!new), V>(c: Net<W, V>, h: W -> nat, g: nat)
    requires WellFormed(c, h) && g < |c.gates|
    ensures forall w :: w in Wired(c.gates[g].ins) ==> Above(c, h, g, w)
    ensures forall w, j, o :: w in Wired(c.gates[g].ins) && Drives(c, g, j, o) ==> h(o) < h(w) && w != o
  {
    WiredIs(c.gates[g].ins);
    assert forall w :: w in Wired(c.gates[g].ins) ==> Reads(c, g, w);
  }

  /** Whatever the order of the drivens, and however often gates fired on stale values on the way: when
      a drive of a source wire returns, every gate whose wired inputs all hold values shows its function
      of them, the source holds the driven value, and every other source is as it was. */
  lemma {:induction false} DriveSettles<W(!new), V>(c: Net<W, V>, h: W -> nat, st: Signals<W, V>, w: W, v: V)
    requires WellFormed(c, h) && Source(c, w) && Settled(c, st.val)
    ensures var st' := Drive(c, h, st, w, v);
      && Settled(c, st'.val)
      && w in st'.val && st'.val[w] == v
      && forall x :: Source(c, x) && x != w ==> Same(st.val, st'.val, x)
  {
    DriveEffect(c, h, st, w, v);
  }

  // ----- sequences of drives

  // The sources are driven one after the other.
  ghost function DriveAll<W(!new), V>(c: Net<W, V>, h: W -> nat, st: Signals<W, V>, drives: seq<(W, V)>): Signals<W, V>
    requires WellFormed(c, h)
    decreases |drives|
  {
    if drives == [] then st
    else
      var last := |drives| - 1;
      Drive(c, h, DriveAll(c, h, st, drives[..last]), drives[last].0, drives[last].1)
  }

  // What each driven source was last driven with.
  function Last<W(==), V>(drives: seq<(W, V)>): map<W, V>
    decreases |drives|
  {
    if drives == [] then map[]
    else
      var last := |drives| - 1;
      Last(drives[..last])[drives[last].0 := drives[last].1]
  }

  lemma EmptySettled<W(!new), V>(c: Net<W, V>)
    ensures Settled(c, map[])
  {
    forall g: nat, j: nat ensures PortOk(c, map[], g, j) {
      assert g < |c.gates| && Wired(c.gates[g].ins) != [] ==> Wired(c.gates[g].ins)[0] in Wired(c.gates[g].ins);
    }
  }

  /** In any order and with repeats, started from empty wires. */
  lemma {:induction false} DriveAllSettles<W(!new), V>(c: Net<W, V>, h: W -> nat, drives: seq<(W, V)>)
    requires WellFormed(c, h)
    requires forall i :: 0 <= i < |drives| ==> Source(c, drives[i].0)
    ensures var st := DriveAll(c, h, Signals(map[], []), drives);
      && Settled(c, st.val)
      && forall x :: Source(c, x) ==> Same(Last(drives), st.val, x)
    decreases |drives|
  {
    if drives == [] {
      EmptySettled(c);
    } else {
      var last := |drives| - 1;
      DriveAllSettles(c, h, drives[..last]);
      DriveSettles(c, h, DriveAll(c, h, Signals(map[], []), drives[..last]), drives[last].0, drives[last].1);
    }
  }

  // ----- the fixpoint is unique

  // a and b hold the same value on every source, and all sources that feed a gate hold one.
  ghost predicate SameSources<W(!new), V>(c: Net<W, V>, a: map<W, V>, b: map<W, V>) {
    forall w, g :: Source(c, w) && Reads(c, g, w) ==> w in a && w in b && a[w] == b[w]
  }

  lemma {:induction false} SameValue<W(!new), V(!new)>(
    c: Net<W, V>, h: W -> nat, a: map<W, V>, b: map<W, V>, g: nat, j: nat, o: W)
    requires WellFormed(c, h) && Total(c) && Settled(c, a) && Settled(c, b) && SameSources(c, a, b)
    requires Drives(c, g, j, o)
    ensures o in a && o in b && a[o] == b[o]
    decreases Top(c.gates, h) - h(o)
  {
    var gate := c.gates[g];
    WiredIs(gate.ins);
    assert gate.enabled && Wired(gate.ins) != [];
    TopIs(c.gates, h, g, Wired(gate.ins)[0]);
    assert Reads(c, g, Wired(gate.ins)[0]);
    forall w | w in Wired(gate.ins) ensures w in a && w in b && a[w] == b[w] {
      assert Reads(c, g, w);
      if !Source(c, w) {
        var g': nat, j': nat :| Drives(c, g', j', w);
        SameValue(c, h, a, b, g', j', w);
      }
    }
    assert Ready(gate, a) && Ready(gate, b) && Inputs(gate, a) == Inputs(gate, b);
    assert Out(gate, Inputs(gate, a), j).Some?;
    assert PortOk(c, a, g, j) && PortOk(c, b, g, j);
  }

  /** Two sequences of drives that leave every source with the same value leave every driven wire with
      the same value, in whatever order and however often each source was driven, and even when the
      wires list their drivens in different orders. */
  lemma {:induction false} OrderIrrelevant<W(!new), V(!new)>(
    c: Net<W, V>, c': Net<W, V>, h: W -> nat, drives: seq<(W, V)>, drives': seq<(W, V)>)
    requires WellFormed(c, h) && WellFormed(c', h) && c.gates == c'.gates && Total(c)
    requires forall i :: 0 <= i < |drives| ==> Source(c, drives[i].0)
    requires forall i :: 0 <= i < |drives'| ==> Source(c, drives'[i].0)
    requires SameSources(c, Last(drives), Last(drives'))
    ensures forall g, j, o :: Drives(c, g, j, o) ==>
      var a := DriveAll(c, h, Signals(map[], []), drives).val;
      var b := DriveAll(c', h, Signals(map[], []), drives').val;
      o in a && o in b && a[o] == b[o]
  {
    var a := DriveAll(c, h, Signals(map[], []), drives).val;
    var b := DriveAll(c', h, Signals(map[], []), drives').val;
    forall x, g: nat, j: nat ensures Drives(c, g, j, x) <==> Drives(c', g, j, x) {}
    forall x | Source(c, x) ensures Source(c', x) {}
    DriveAllSettles(c, h, drives);
    DriveAllSettles(c', h, drives');
    forall g: nat, j: nat ensures PortOk(c, b, g, j) { assert PortOk(c', b, g, j); }
    assert SameSources(c, a, b);
    forall g: nat, j: nat, o | Drives(c, g, j, o) ensures o in a && o in b && a[o] == b[o] {
      SameValue(c, h, a, b, g, j, o);
    }
  }
}
