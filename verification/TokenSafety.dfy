/** Circuits of functional wrappers on token wires: gates that absorb their tokens before they read them, and create
    what they drive.  In which rounds of drives no gate reads a value after its last holder has given it back. */
module TokenSafety {
  import opened Circuit
  import opened Options
  import T = TokenWires

  // ----- the condition on a round

  // A token of w waits at another gate than g.
  ghost predicate WaitsElsewhere<W(!new), V, X>(c: Net<W, V>, tok: map<Tap, X>, w: W, g: nat) {
    exists t :: t in tok.Keys && t.gate != g && IsTap(c, w, t)
  }

  // Gate g fires while the drives of the wires in `open` are under way: each of its inputs is one of those, or a
  // token of it waits at another gate.
  ghost predicate SafeFire<W(!new), V>(c: Net<W, V>, tok: map<Tap, V>, g: nat, open: set<W>)
    requires g < |c.gates|
  {
    forall w :: w in Wired(c.gates[g].ins) ==> w in open || WaitsElsewhere(c, tok, w, g)
  }

  ghost predicate SafeDrive<W(!new), V>(c: Net<W, V>, h: W -> nat, s: T.Tokens<W, V>, w: W, v: V, open: set<W>)
    requires WellFormed(c, h)
    decreases h(w), 3, 0
  {
    SafeNotify(c, h, T.Push(s, w, v), w, v, Taps(c, w), open + {w})
  }

  ghost predicate SafeNotify<W(!new), V>(
    c: Net<W, V>, h: W -> nat, s: T.Tokens<W, V>, w: W, v: V, taps: seq<Tap>, open: set<W>)
    requires WellFormed(c, h)
    requires forall i :: 0 <= i < |taps| ==> IsTap(c, w, taps[i])
    decreases h(w), 2, |taps|
  {
    taps == [] ||
    (assert Reads(c, taps[0].gate, w);
    var s1 := T.Deliver(s, taps[0], v);
    && SafeExecute(c, h, s1, taps[0].gate, h(w), open)
    && SafeNotify(c, h, T.Execute(c, h, s1, taps[0].gate, h(w)), w, v, taps[1..], open))
  }

  ghost predicate SafeExecute<W(!new), V>(
    c: Net<W, V>, h: W -> nat, s: T.Tokens<W, V>, g: nat, bound: nat, open: set<W>)
    requires WellFormed(c, h) && g < |c.gates|
    requires forall j, o :: Drives(c, g, j, o) ==> h(o) < bound
    decreases bound, 1, 0
  {
    T.Full(c, g, s.tok) ==>
      && SafeFire(c, s.tok, g, open)
      && SafeEmit(c, h, T.Fire(s, g), g, bound, T.Held(c.gates[g].ins, g, 0, s.tok), 0, open)
  }

  ghost predicate SafeEmit<W(!new), V>(
    c: Net<W, V>, h: W -> nat, s: T.Tokens<W, V>, g: nat, bound: nat, xs: seq<V>, j: nat, open: set<W>)
    requires WellFormed(c, h) && g < |c.gates|
    requires forall j, o :: Drives(c, g, j, o) ==> h(o) < bound
    decreases bound, 0, |c.gates[g].outs| - j
  {
    j >= |c.gates[g].outs| ||
    (&& SafePut(c, h, s, g, bound, xs, j, open)
     && SafeEmit(c, h, T.Put(c, h, s, g, bound, xs, j), g, bound, xs, j + 1, open))
  }

  ghost predicate SafePut<W(!new), V>(
    c: Net<W, V>, h: W -> nat, s: T.Tokens<W, V>, g: nat, bound: nat, xs: seq<V>, j: nat, open: set<W>)
    requires WellFormed(c, h) && g < |c.gates| && j < |c.gates[g].outs|
    requires forall j, o :: Drives(c, g, j, o) ==> h(o) < bound
    decreases bound, 0, 0
  {
    var out := Out(c.gates[g], xs, j);
    c.gates[g].outs[j].Some? && out.Some? ==>
      assert Drives(c, g, j, c.gates[g].outs[j].value);
      SafeDrive(c, h, s, c.gates[g].outs[j].value, out.value, open)
  }

  // A round in which each drive begins when the one before it has ended.
  ghost predicate SafeRound<W(!new), V>(c: Net<W, V>, h: W -> nat, drives: seq<(W, V)>)
    requires WellFormed(c, h)
    decreases |drives|
  {
    drives == [] ||
    var last := |drives| - 1;
    && SafeRound(c, h, drives[..last])
    && SafeDrive(c, h, T.Round(c, h, drives[..last]), drives[last].0, drives[last].1, {})
  }

  // ----- each wire is driven once

  // No port of w holds a token.
  ghost predicate NoToken<W(!new), V, X>(c: Net<W, V>, tok: map<Tap, X>, w: W) {
    forall t :: IsTap(c, w, t) ==> t !in tok
  }

  ghost predicate OnceDrive<W(!new), V>(c: Net<W, V>, h: W -> nat, s: T.Tokens<W, V>, w: W, v: V)
    requires WellFormed(c, h)
    decreases h(w), 3, 0
  {
    T.Sent(s, w) == [] && NoToken(c, s.tok, w) && OnceNotify(c, h, T.Push(s, w, v), w, v, Taps(c, w))
  }

  ghost predicate OnceNotify<W(!new), V>(
    c: Net<W, V>, h: W -> nat, s: T.Tokens<W, V>, w: W, v: V, taps: seq<Tap>)
    requires WellFormed(c, h)
    requires forall i :: 0 <= i < |taps| ==> IsTap(c, w, taps[i])
    decreases h(w), 2, |taps|
  {
    taps == [] ||
    (assert Reads(c, taps[0].gate, w);
    var s1 := T.Deliver(s, taps[0], v);
    && OnceExecute(c, h, s1, taps[0].gate, h(w))
    && OnceNotify(c, h, T.Execute(c, h, s1, taps[0].gate, h(w)), w, v, taps[1..]))
  }

  ghost predicate OnceExecute<W(!new), V>(c: Net<W, V>, h: W -> nat, s: T.Tokens<W, V>, g: nat, bound: nat)
    requires WellFormed(c, h) && g < |c.gates|
    requires forall j, o :: Drives(c, g, j, o) ==> h(o) < bound
    decreases bound, 1, 0
  {
    T.Full(c, g, s.tok) ==> OnceEmit(c, h, T.Fire(s, g), g, bound, T.Held(c.gates[g].ins, g, 0, s.tok), 0)
  }

  ghost predicate OnceEmit<W(!new), V>(
    c: Net<W, V>, h: W -> nat, s: T.Tokens<W, V>, g: nat, bound: nat, xs: seq<V>, j: nat)
    requires WellFormed(c, h) && g < |c.gates|
    requires forall j, o :: Drives(c, g, j, o) ==> h(o) < bound
    decreases bound, 0, |c.gates[g].outs| - j
  {
    j >= |c.gates[g].outs| ||
    (OncePut(c, h, s, g, bound, xs, j) && OnceEmit(c, h, T.Put(c, h, s, g, bound, xs, j), g, bound, xs, j + 1))
  }

  ghost predicate OncePut<W(!new), V>(
    c: Net<W, V>, h: W -> nat, s: T.Tokens<W, V>, g: nat, bound: nat, xs: seq<V>, j: nat)
    requires WellFormed(c, h) && g < |c.gates| && j < |c.gates[g].outs|
    requires forall j, o :: Drives(c, g, j, o) ==> h(o) < bound
    decreases bound, 0, 0
  {
    var out := Out(c.gates[g], xs, j);
    c.gates[g].outs[j].Some? && out.Some? ==>
      assert Drives(c, g, j, c.gates[g].outs[j].value);
      OnceDrive(c, h, s, c.gates[g].outs[j].value, out.value)
  }

  // Gate g has fired, its ports before j are driven, and the others are not.
  ghost predicate Emitting<W(!new), V>(c: Net<W, V>, s: T.Tokens<W, V>, g: nat, xs: seq<V>, j: nat) {
    && T.Inv(c, s, |c.gates|) && g in s.fires && g < |c.gates|
    && Ready(c.gates[g], T.First(s)) && xs == Inputs(c.gates[g], T.First(s))
    && (forall k :: 0 <= k < j ==> T.PortDone(c, s, g, k))
    && (forall k :: j <= k < |c.gates[g].outs| && c.gates[g].outs[k].Some? ==> T.Sent(s, c.gates[g].outs[k].value) == [])
  }

  lemma {:induction false} DrivesOnce<W(!new), V>(c: Net<W, V>, h: W -> nat, s: T.Tokens<W, V>, w: W, v: V)
    requires WellFormed(c, h) && T.Inv(c, s, |c.gates|) && T.Undriven(c, s, w)
    ensures OnceDrive(c, h, s, w, v)
    decreases h(w), 3, 0
  {
    T.PushOk(c, s, w, v);
    NotifiesOnce(c, h, T.Push(s, w, v), w, v, Taps(c, w));
  }

  lemma {:induction false} NotifiesOnce<W(!new), V>(
    c: Net<W, V>, h: W -> nat, s: T.Tokens<W, V>, w: W, v: V, taps: seq<Tap>)
    requires WellFormed(c, h) && T.Inv(c, s, |c.gates|) && T.Sent(s, w) == [v]
    requires forall i :: 0 <= i < |taps| ==> IsTap(c, w, taps[i]) && T.Pending(s, taps[i])
    requires forall i, j :: 0 <= i < j < |taps| ==> taps[i] != taps[j]
    ensures OnceNotify(c, h, s, w, v, taps)
    decreases h(w), 2, |taps|
  {
    if taps != [] {
      assert Reads(c, taps[0].gate, w);
      var s1 := T.Deliver(s, taps[0], v);
      T.DeliverOk(c, s, w, v, taps[0]);
      ExecutesOnce(c, h, s1, taps[0].gate, h(w));
      T.ExecuteEffect(c, h, s1, taps[0].gate, h(w));
      var s2 := T.Execute(c, h, s1, taps[0].gate, h(w));
      T.RestPending(c, s, w, v, s2, taps);
      NotifiesOnce(c, h, s2, w, v, taps[1..]);
    }
  }

  lemma {:induction false} ExecutesOnce<W(!new), V>(c: Net<W, V>, h: W -> nat, s: T.Tokens<W, V>, g: nat, bound: nat)
    requires WellFormed(c, h) && g < |c.gates| && T.Inv(c, s, g)
    requires forall j, o :: Drives(c, g, j, o) ==> h(o) < bound
    ensures OnceExecute(c, h, s, g, bound)
    decreases bound, 1, 0
  {
    if T.Full(c, g, s.tok) {
      FiredEmits(c, s, g);
      EmitsOnce(c, h, T.Fire(s, g), g, bound, T.Held(c.gates[g].ins, g, 0, s.tok), 0);
    }
  }

  lemma {:induction false} EmitsOnce<W(!new), V>(
    c: Net<W, V>, h: W -> nat, s: T.Tokens<W, V>, g: nat, bound: nat, xs: seq<V>, j: nat)
    requires WellFormed(c, h) && Emitting(c, s, g, xs, j)
    requires forall j, o :: Drives(c, g, j, o) ==> h(o) < bound
    ensures OnceEmit(c, h, s, g, bound, xs, j)
    decreases bound, 0, |c.gates[g].outs| - j
  {
    if j < |c.gates[g].outs| {
      PutsOnce(c, h, s, g, bound, xs, j);
      T.PutEffect(c, h, s, g, bound, xs, j);
      EmitsOnce(c, h, T.Put(c, h, s, g, bound, xs, j), g, bound, xs, j + 1);
    }
  }

  lemma {:induction false} PutsOnce<W(!new), V>(
    c: Net<W, V>, h: W -> nat, s: T.Tokens<W, V>, g: nat, bound: nat, xs: seq<V>, j: nat)
    requires WellFormed(c, h) && Emitting(c, s, g, xs, j) && j < |c.gates[g].outs|
    requires forall j, o :: Drives(c, g, j, o) ==> h(o) < bound
    ensures OncePut(c, h, s, g, bound, xs, j)
    decreases bound, 0, 0
  {
    var port, out := c.gates[g].outs[j], Out(c.gates[g], xs, j);
    if port.Some? && out.Some? {
      assert Drives(c, g, j, port.value);
      OnlyDriver(c, s, g, j, port.value);
      DrivesOnce(c, h, s, port.value, out.value);
    }
  }

  lemma OnlyDriver<W(!new), V>(c: Net<W, V>, s: T.Tokens<W, V>, g: nat, j: nat, o: W)
    requires OneDriver(c) && Drives(c, g, j, o) && g in s.fires && T.Sent(s, o) == []
    ensures T.Undriven(c, s, o)
  {
  }

  // A full gate that fires begins to drive its outputs.
  lemma {:induction false} FiredEmits<W(!new), V>(c: Net<W, V>, s: T.Tokens<W, V>, g: nat)
    requires T.Inv(c, s, g) && T.Full(c, g, s.tok)
    ensures Emitting(c, T.Fire(s, g), g, T.Held(c.gates[g].ins, g, 0, s.tok), 0)
  {
    T.FullGate(c, s, g);
    T.FireOk(c, s, g);
    forall j: nat | j < |c.gates[g].outs| && c.gates[g].outs[j].Some?
      ensures T.Sent(T.Fire(s, g), c.gates[g].outs[j].value) == []
    {
      assert Drives(c, g, j, c.gates[g].outs[j].value);
    }
  }

  lemma {:induction false} RoundNext<W(!new), V>(c: Net<W, V>, h: W -> nat, drives: seq<(W, V)>, i: nat)
    requires WellFormed(c, h) && i < |drives|
    ensures T.Round(c, h, drives[..i + 1]) == T.Drive(c, h, T.Round(c, h, drives[..i]), drives[i].0, drives[i].1)
    ensures SafeRound(c, h, drives[..i + 1]) <==>
      SafeRound(c, h, drives[..i]) && SafeDrive(c, h, T.Round(c, h, drives[..i]), drives[i].0, drives[i].1, {})
  {
    assert drives[..i + 1][..i] == drives[..i];
  }

  lemma {:induction false} SafePrefix<W(!new), V>(c: Net<W, V>, h: W -> nat, drives: seq<(W, V)>, i: nat)
    requires WellFormed(c, h) && i <= |drives|
    ensures SafeRound(c, h, drives) ==> SafeRound(c, h, drives[..i])
    decreases |drives|
  {
    if i == |drives| {
      assert drives[..i] == drives;
    } else {
      assert drives[..|drives| - 1][..i] == drives[..i];
      SafePrefix(c, h, drives[..|drives| - 1], i);
    }
  }

  lemma OnceUpTo<W(!new), V>(c: Net<W, V>, drives: seq<(W, V)>, i: nat)
    requires T.OncePerSource(c, drives) && i <= |drives|
    ensures T.OncePerSource(c, drives[..i]) && (i < |drives| ==> !T.Driven(drives[..i], drives[i].0))
  {
  }

  // The next source has not been driven yet.
  lemma {:induction false} NextOnce<W(!new), V>(c: Net<W, V>, h: W -> nat, drives: seq<(W, V)>, i: nat)
    requires WellFormed(c, h) && T.OncePerSource(c, drives) && i < |drives|
    ensures OnceDrive(c, h, T.Round(c, h, drives[..i]), drives[i].0, drives[i].1)
  {
    OnceUpTo(c, drives, i);
    T.RoundQuiet(c, h, drives[..i]);
    DrivesOnce(c, h, T.Round(c, h, drives[..i]), drives[i].0, drives[i].1);
  }

  // ----- gates that read one wire only

  // All wired inputs of each gate are on one wire.
  ghost predicate OneWire<W(!new), V>(c: Net<W, V>) {
    forall g, w, u :: 0 <= g < |c.gates| && w in Wired(c.gates[g].ins) && u in Wired(c.gates[g].ins) ==> w == u
  }

  lemma {:induction false} OneWireDrive<W(!new), V>(
    c: Net<W, V>, h: W -> nat, s: T.Tokens<W, V>, w: W, v: V, open: set<W>)
    requires WellFormed(c, h) && OneWire(c)
    ensures SafeDrive(c, h, s, w, v, open)
    decreases h(w), 3, 0
  {
    OneWireNotify(c, h, T.Push(s, w, v), w, v, Taps(c, w), open + {w});
  }

  lemma {:induction false} OneWireNotify<W(!new), V>(
    c: Net<W, V>, h: W -> nat, s: T.Tokens<W, V>, w: W, v: V, taps: seq<Tap>, open: set<W>)
    requires WellFormed(c, h) && OneWire(c) && w in open
    requires forall i :: 0 <= i < |taps| ==> IsTap(c, w, taps[i])
    ensures SafeNotify(c, h, s, w, v, taps, open)
    decreases h(w), 2, |taps|
  {
    if taps != [] {
      assert Reads(c, taps[0].gate, w);
      var s1 := T.Deliver(s, taps[0], v);
      OneWireExecute(c, h, s1, taps[0].gate, w, open);
      OneWireNotify(c, h, T.Execute(c, h, s1, taps[0].gate, h(w)), w, v, taps[1..], open);
    }
  }

  lemma {:induction false} OneWireExecute<W(!new), V>(
    c: Net<W, V>, h: W -> nat, s: T.Tokens<W, V>, g: nat, w: W, open: set<W>)
    requires WellFormed(c, h) && OneWire(c) && w in open && Reads(c, g, w)
    ensures SafeExecute(c, h, s, g, h(w), open)
    decreases h(w), 1, 0
  {
    if T.Full(c, g, s.tok) {
      WiredIs(c.gates[g].ins);
      OneWireEmit(c, h, T.Fire(s, g), g, h(w), T.Held(c.gates[g].ins, g, 0, s.tok), 0, open);
    }
  }

  lemma {:induction false} OneWireEmit<W(!new), V>(
    c: Net<W, V>, h: W -> nat, s: T.Tokens<W, V>, g: nat, bound: nat, xs: seq<V>, j: nat, open: set<W>)
    requires WellFormed(c, h) && OneWire(c) && g < |c.gates|
    requires forall j, o :: Drives(c, g, j, o) ==> h(o) < bound
    ensures SafeEmit(c, h, s, g, bound, xs, j, open)
    decreases bound, 0, |c.gates[g].outs| - j
  {
    if j < |c.gates[g].outs| {
      var port, out := c.gates[g].outs[j], Out(c.gates[g], xs, j);
      if port.Some? && out.Some? {
        assert Drives(c, g, j, port.value);
        OneWireDrive(c, h, s, port.value, out.value, open);
      }
      OneWireEmit(c, h, T.Put(c, h, s, g, bound, xs, j), g, bound, xs, j + 1, open);
    }
  }

  /** When each gate reads one wire only every round is safe. */
  lemma {:induction false} OneWireRound<W(!new), V>(c: Net<W, V>, h: W -> nat, drives: seq<(W, V)>)
    requires WellFormed(c, h) && OneWire(c)
    ensures SafeRound(c, h, drives)
    decreases |drives|
  {
    if drives != [] {
      var last := |drives| - 1;
      OneWireRound(c, h, drives[..last]);
      OneWireDrive(c, h, T.Round(c, h, drives[..last]), drives[last].0, drives[last].1, {});
    }
  }

  // ----- gates that read two sources

  // Gate g waits for more than the source a, which it alone reads.
  ghost predicate Starved<W(!new), V>(c: Net<W, V>, s: T.Tokens<W, V>, g: nat, a: W) {
    && g !in s.fires && g < |c.gates| && a in Wired(c.gates[g].ins) && Source(c, a)
    && forall t :: IsTap(c, a, t) ==> t.gate == g
  }

  lemma {:induction false} StarvedDrive<W(!new), V>(
    c: Net<W, V>, h: W -> nat, s: T.Tokens<W, V>, w: W, v: V, open: set<W>, g: nat, a: W)
    requires WellFormed(c, h) && SafeDrive(c, h, s, w, v, open) && Starved(c, s, g, a) && a !in open && w != a
    ensures g !in T.Drive(c, h, s, w, v).fires
    decreases h(w), 3, 0
  {
    StarvedNotify(c, h, T.Push(s, w, v), w, v, Taps(c, w), open + {w}, g, a);
  }

  lemma {:induction false} StarvedNotify<W(!new), V>(
    c: Net<W, V>, h: W -> nat, s: T.Tokens<W, V>, w: W, v: V, taps: seq<Tap>, open: set<W>, g: nat, a: W)
    requires WellFormed(c, h) && Starved(c, s, g, a) && a !in open
    requires forall i :: 0 <= i < |taps| ==> IsTap(c, w, taps[i])
    requires SafeNotify(c, h, s, w, v, taps, open)
    ensures g !in T.Notify(c, h, s, w, v, taps).fires
    decreases h(w), 2, |taps|
  {
    if taps != [] {
      assert Reads(c, taps[0].gate, w);
      var s1 := T.Deliver(s, taps[0], v);
      StarvedExecute(c, h, s1, taps[0].gate, h(w), open, g, a);
      StarvedNotify(c, h, T.Execute(c, h, s1, taps[0].gate, h(w)), w, v, taps[1..], open, g, a);
    }
  }

  lemma {:induction false} StarvedExecute<W(!new), V>(
    c: Net<W, V>, h: W -> nat, s: T.Tokens<W, V>, x: nat, bound: nat, open: set<W>, g: nat, a: W)
    requires WellFormed(c, h) && x < |c.gates| && Starved(c, s, g, a) && a !in open
    requires forall j, o :: Drives(c, x, j, o) ==> h(o) < bound
    requires SafeExecute(c, h, s, x, bound, open)
    ensures g !in T.Execute(c, h, s, x, bound).fires
    decreases bound, 1, 0
  {
    if T.Full(c, x, s.tok) {
      assert x != g;
      StarvedEmit(c, h, T.Fire(s, x), x, bound, T.Held(c.gates[x].ins, x, 0, s.tok), 0, open, g, a);
    }
  }

  lemma {:induction false} StarvedEmit<W(!new), V>(
    c: Net<W, V>, h: W -> nat, s: T.Tokens<W, V>, x: nat, bound: nat, xs: seq<V>, j: nat, open: set<W>, g: nat, a: W)
    requires WellFormed(c, h) && x < |c.gates| && Starved(c, s, g, a) && a !in open
    requires forall j, o :: Drives(c, x, j, o) ==> h(o) < bound
    requires SafeEmit(c, h, s, x, bound, xs, j, open)
    ensures g !in T.Emit(c, h, s, x, bound, xs, j).fires
    decreases bound, 0, |c.gates[x].outs| - j
  {
    if j < |c.gates[x].outs| {
      var port, out := c.gates[x].outs[j], Out(c.gates[x], xs, j);
      if port.Some? && out.Some? {
        assert Drives(c, x, j, port.value);
        StarvedDrive(c, h, s, port.value, out.value, open, g, a);
      }
      StarvedEmit(c, h, T.Put(c, h, s, x, bound, xs, j), x, bound, xs, j + 1, open, g, a);
    }
  }

  /** When a gate that fires reads two sources, the first of which to be driven it alone reads, the round is not safe. */
  lemma {:induction false} TwoSourcesUnsafe<W(!new), V>(
    c: Net<W, V>, h: W -> nat, drives: seq<(W, V)>, g: nat, i: nat, k: nat)
    requires WellFormed(c, h) && T.OncePerSource(c, drives) && i < k < |drives|
    requires g in T.Round(c, h, drives).fires && g < |c.gates|
    requires drives[i].0 in Wired(c.gates[g].ins) && drives[k].0 in Wired(c.gates[g].ins)
    requires forall t :: IsTap(c, drives[i].0, t) ==> t.gate == g
    ensures !SafeRound(c, h, drives)
  {
    NotYetFired(c, h, drives, g, k);
    assert drives[..|drives|] == drives;
    if SafeRound(c, h, drives) { NeverFires(c, h, drives, g, i, k, |drives|); }
  }

  // A gate has not fired while one of its sources is still to be driven.
  lemma {:induction false} NotYetFired<W(!new), V>(c: Net<W, V>, h: W -> nat, drives: seq<(W, V)>, g: nat, k: nat)
    requires WellFormed(c, h) && T.OncePerSource(c, drives) && k < |drives| && g < |c.gates|
    requires drives[k].0 in Wired(c.gates[g].ins)
    ensures g !in T.Round(c, h, drives[..k]).fires
  {
    OnceUpTo(c, drives, k);
    T.RoundQuiet(c, h, drives[..k]);
    T.QuietFires(c, T.Round(c, h, drives[..k]), g);
  }

  lemma {:induction false} NeverFires<W(!new), V>(
    c: Net<W, V>, h: W -> nat, drives: seq<(W, V)>, g: nat, i: nat, k: nat, m: nat)
    requires WellFormed(c, h) && T.OncePerSource(c, drives) && i < k <= m <= |drives| && g < |c.gates|
    requires SafeRound(c, h, drives) && g !in T.Round(c, h, drives[..k]).fires
    requires drives[i].0 in Wired(c.gates[g].ins) && forall t :: IsTap(c, drives[i].0, t) ==> t.gate == g
    ensures g !in T.Round(c, h, drives[..m]).fires
    decreases m
  {
    if k < m {
      NeverFires(c, h, drives, g, i, k, m - 1);
      SafePrefix(c, h, drives, m);
      RoundNext(c, h, drives, m - 1);
      StarvedDrive(c, h, T.Round(c, h, drives[..m - 1]), drives[m - 1].0, drives[m - 1].1, {}, g, drives[i].0);
    }
  }
}
