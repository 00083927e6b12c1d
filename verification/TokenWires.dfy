/** Token wires: every gate port holds its own token.  A gate fires when all its wired ports hold one,
    taking them all; its outputs then deliver tokens to the ports of the wires they drive. */
module TokenWires {
  import opened Circuit
  import opened Options
  import DirectWires

  // The tokens at the ports, what each wire was driven with in this round, and the gates that fired.
  datatype Tokens<!W(==), V> = Tokens(tok: map<Tap, V>, sent: map<W, seq<V>>, fires: multiset<nat>)

  function Sent<W(==), V>(s: Tokens<W, V>, w: W): seq<V> {
    if w in s.sent then s.sent[w] else []
  }

  // The tokens at the wired ports among ins, the first of which is port p of gate g.
  function Held<W(==), V>(ins: seq<Option<W>>, g: nat, p: nat, tok: map<Tap, V>): seq<V>
    requires forall i :: 0 <= i < |ins| && ins[i].Some? ==> Tap(g, p + i) in tok
  {
    if ins == [] then []
    else (if ins[0].Some? then [tok[Tap(g, p + 0)]] else []) + Held(ins[1..], g, p + 1, tok)
  }

  // Every wired port holds a token, and the gate has the ports it wants.
  predicate Full<W(==), V>(c: Net<W, V>, g: nat, tok: map<Tap, V>) {
    && g < |c.gates| && c.gates[g].enabled && (c.gates[g].needsAll ==> None !in c.gates[g].ins)
    && Wired(c.gates[g].ins) != []
    && forall p :: 0 <= p < |c.gates[g].ins| && c.gates[g].ins[p].Some? ==> Tap(g, p) in tok
  }

  function Push<W(==), V>(s: Tokens<W, V>, w: W, v: V): Tokens<W, V> {
    s.(sent := s.sent[w := Sent(s, w) + [v]])
  }

  function Deliver<W(==), V>(s: Tokens<W, V>, t: Tap, v: V): Tokens<W, V> {
    s.(tok := s.tok[t := v])
  }

  function Fire<W(==), V>(s: Tokens<W, V>, g: nat): Tokens<W, V> {
    s.(tok := map t | t in s.tok && t.gate != g :: s.tok[t], fires := s.fires + multiset{g})
  }

  ghost function Drive<W(!new), V>(c: Net<W, V>, h: W -> nat, s: Tokens<W, V>, w: W, v: V): Tokens<W, V>
    requires WellFormed(c, h)
    decreases h(w), 3, 0
  {
    Notify(c, h, Push(s, w, v), w, v, Taps(c, w))
  }

  ghost function Notify<W(!new), V>(c: Net<W, V>, h: W -> nat, s: Tokens<W, V>, w: W, v: V, taps: seq<Tap>): Tokens<W, V>
    requires WellFormed(c, h)
    requires forall i :: 0 <= i < |taps| ==> IsTap(c, w, taps[i])
    decreases h(w), 2, |taps|
  {
    if taps == [] then s
    else
      assert Reads(c, taps[0].gate, w);
      Notify(c, h, Execute(c, h, Deliver(s, taps[0], v), taps[0].gate, h(w)), w, v, taps[1..])
  }

  ghost function Execute<W(!new), V>(c: Net<W, V>, h: W -> nat, s: Tokens<W, V>, g: nat, bound: nat): Tokens<W, V>
    requires WellFormed(c, h) && g < |c.gates|
    requires forall j, o :: Drives(c, g, j, o) ==> h(o) < bound
    decreases bound, 1, 0
  {
    if Full(c, g, s.tok) then Emit(c, h, Fire(s, g), g, bound, Held(c.gates[g].ins, g, 0, s.tok), 0) else s
  }

  ghost function Emit<W(!new), V>(
    c: Net<W, V>, h: W -> nat, s: Tokens<W, V>, g: nat, bound: nat, xs: seq<V>, j: nat): Tokens<W, V>
    requires WellFormed(c, h) && g < |c.gates|
    requires forall j, o :: Drives(c, g, j, o) ==> h(o) < bound
    decreases bound, 0, |c.gates[g].outs| - j
  {
    if j >= |c.gates[g].outs| then s
    else Emit(c, h, Put(c, h, s, g, bound, xs, j), g, bound, xs, j + 1)
  }

  ghost function Put<W(!new), V>(
    c: Net<W, V>, h: W -> nat, s: Tokens<W, V>, g: nat, bound: nat, xs: seq<V>, j: nat): Tokens<W, V>
    requires WellFormed(c, h) && g < |c.gates| && j < |c.gates[g].outs|
    requires forall j, o :: Drives(c, g, j, o) ==> h(o) < bound
    decreases bound, 0, 0
  {
    var out := Out(c.gates[g], xs, j);
    if c.gates[g].outs[j].Some? && out.Some? then
      assert Drives(c, g, j, c.gates[g].outs[j].value);
      Drive(c, h, s, c.gates[g].outs[j].value, out.value)
    else s
  }

  // ----- what holds at every call of a round

  // The value each wire was driven with.
  ghost function First<W(!new), V>(s: Tokens<W, V>): map<W, V> {
    map w | w in s.sent && s.sent[w] != [] :: s.sent[w][0]
  }

  ghost predicate Pending<W, V>(s: Tokens<W, V>, t: Tap) {
    t !in s.tok && t.gate !in s.fires
  }

  // A token waits at a port of a gate that did not fire, and is what the port's wire was driven with.
  ghost predicate TokensOk<W(!new), V>(c: Net<W, V>, s: Tokens<W, V>) {
    && (forall t :: t in s.tok ==>
          t.gate < |c.gates| && t.port < |c.gates[t.gate].ins| && c.gates[t.gate].ins[t.port].Some?)
    && (forall w, t :: IsTap(c, w, t) && t in s.tok ==> t.gate !in s.fires && Sent(s, w) == [s.tok[t]])
  }

  // No gate fired twice, and one that fired has had all its inputs.
  ghost predicate FiresOk<W(!new), V>(c: Net<W, V>, s: Tokens<W, V>) {
    forall g :: g in s.fires ==>
      s.fires[g] == 1 && g < |c.gates| && c.gates[g].enabled && Wired(c.gates[g].ins) != [] && Ready(c.gates[g], First(s))
  }

  ghost predicate SentOk<W(!new), V>(c: Net<W, V>, s: Tokens<W, V>) {
    && (forall w :: |Sent(s, w)| <= 1)
    && (forall g, j, o :: Drives(c, g, j, o) && g !in s.fires ==> Sent(s, o) == [])
  }

  ghost predicate Inv<W(!new), V>(c: Net<W, V>, s: Tokens<W, V>, except: nat) {
    TokensOk(c, s) && FiresOk(c, s) && SentOk(c, s) && forall g :: g != except ==> !Full(c, g, s.tok)
  }

  ghost predicate PortDone<W(!new), V>(c: Net<W, V>, s: Tokens<W, V>, g: nat, j: nat)
    requires g < |c.gates| && Ready(c.gates[g], First(s))
  {
    j < |c.gates[g].outs| && c.gates[g].outs[j].Some? ==>
      var out := Out(c.gates[g], Inputs(c.gates[g], First(s)), j);
      Sent(s, c.gates[g].outs[j].value) == (if out.Some? then [out.value] else [])
  }

  // A gate that fired has driven its outputs with its function of its inputs.
  ghost predicate GateDone<W(!new), V>(c: Net<W, V>, s: Tokens<W, V>, g: nat) {
    g in s.fires && g < |c.gates| && Ready(c.gates[g], First(s)) ==> forall j :: PortDone(c, s, g, j)
  }

  // A wire that was driven has delivered to all its ports.
  ghost predicate WireDone<W(!new), V>(c: Net<W, V>, s: Tokens<W, V>, w: W) {
    Sent(s, w) != [] ==> forall t :: IsTap(c, w, t) ==> !Pending(s, t)
  }

  // What a call may change; `except` is the gate that is driving its outputs.
  ghost predicate Later<W(!new), V>(c: Net<W, V>, a: Tokens<W, V>, b: Tokens<W, V>, except: nat) {
    && (forall g :: g in a.fires ==> g in b.fires)
    && (forall t :: !Pending(a, t) ==> !Pending(b, t))
    && (forall w :: Sent(a, w) != [] || Source(c, w) ==> Sent(b, w) == Sent(a, w))
    && (forall g, j, w :: Drives(c, g, j, w) && g in a.fires && g != except ==> Sent(b, w) == Sent(a, w))
    && (forall g :: g != except && GateDone(c, a, g) ==> GateDone(c, b, g))
    && (forall w :: WireDone(c, a, w) ==> WireDone(c, b, w))
  }

  // Ports that wait for a delivery by a caller keep waiting.
  ghost predicate StillPending<W(!new), V>(c: Net<W, V>, a: Tokens<W, V>, b: Tokens<W, V>, delivered: seq<Tap>) {
    forall w, t :: IsTap(c, w, t) && Sent(a, w) != [] && Pending(a, t) && t !in delivered ==> Pending(b, t)
  }

  lemma LaterTrans<W(!new), V>(c: Net<W, V>, x: Tokens<W, V>, y: Tokens<W, V>, z: Tokens<W, V>, except: nat)
    requires Later(c, x, y, except) && Later(c, y, z, except)
    ensures Later(c, x, z, except)
  {
  }

  lemma PendingTrans<W(!new), V>(
    c: Net<W, V>, x: Tokens<W, V>, y: Tokens<W, V>, z: Tokens<W, V>, except: nat, d: seq<Tap>)
    requires Later(c, x, y, except) && StillPending(c, x, y, d) && StillPending(c, y, z, d)
    ensures StillPending(c, x, z, d)
  {
  }

  // ----- one step of each kind

  lemma {:induction false} HeldIs<W(!new), V>(ins: seq<Option<W>>, g: nat, p: nat, tok: map<Tap, V>, val: map<W, V>)
    requires forall i :: 0 <= i < |ins| && ins[i].Some? ==>
      Tap(g, p + i) in tok && ins[i].value in val && val[ins[i].value] == tok[Tap(g, p + i)]
    ensures var xs := Held(ins, g, p, tok);
      && |xs| == |Wired(ins)|
      && forall i :: 0 <= i < |xs| ==> Wired(ins)[i] in val && xs[i] == val[Wired(ins)[i]]
    decreases |ins|
  {
    if ins != [] {
      forall i | 0 <= i < |ins[1..]| && ins[1..][i].Some?
        ensures Tap(g, p + 1 + i) in tok && ins[1..][i].value in val && val[ins[1..][i].value] == tok[Tap(g, p + 1 + i)]
      {
        assert ins[1..][i] == ins[i + 1] && p + 1 + i == p + (i + 1);
      }
      HeldIs(ins[1..], g, p + 1, tok, val);
    }
  }

  // Nothing a gate that fired depends on has changed.
  lemma GateDoneFrame<W(!new), V>(c: Net<W, V>, a: Tokens<W, V>, b: Tokens<W, V>, g: nat)
    requires GateDone(c, a, g) && g in a.fires && g < |c.gates| && Ready(c.gates[g], First(a))
    requires forall w :: w in Wired(c.gates[g].ins) ==> Sent(b, w) == Sent(a, w)
    requires forall j, w :: Drives(c, g, j, w) ==> Sent(b, w) == Sent(a, w)
    ensures GateDone(c, b, g)
  {
    if g in b.fires && Ready(c.gates[g], First(b)) {
      assert forall w :: w in Wired(c.gates[g].ins) ==> First(a)[w] == First(b)[w];
      assert Inputs(c.gates[g], First(a)) == Inputs(c.gates[g], First(b));
      forall j: nat ensures PortDone(c, b, g, j) {
        assert PortDone(c, a, g, j);
        if j < |c.gates[g].outs| && c.gates[g].outs[j].Some? {
          assert Drives(c, g, j, c.gates[g].outs[j].value);
        }
      }
    }
  }

  lemma GatesDoneFrame<W(!new), V>(c: Net<W, V>, a: Tokens<W, V>, b: Tokens<W, V>, except: nat)
    requires FiresOk(c, a) && (forall w :: Sent(b, w) == Sent(a, w))
    requires forall g :: g != except && g in b.fires ==> g in a.fires
    ensures forall g :: g != except && GateDone(c, a, g) ==> GateDone(c, b, g)
  {
    forall g: nat | g != except && GateDone(c, a, g) ensures GateDone(c, b, g) {
      if g in b.fires { GateDoneFrame(c, a, b, g); }
    }
  }

  lemma DeliverOk<W(!new), V>(c: Net<W, V>, s: Tokens<W, V>, w: W, v: V, t: Tap)
    requires Inv(c, s, |c.gates|) && IsTap(c, w, t) && Pending(s, t) && Sent(s, w) == [v]
    ensures var s' := Deliver(s, t, v);
      && Inv(c, s', t.gate) && Later(c, s, s', |c.gates|) && StillPending(c, s, s', [t]) && !Pending(s', t)
  {
    var s' := Deliver(s, t, v);
    assert First(s') == First(s);
    assert forall x :: Sent(s', x) == Sent(s, x);
    forall x, t' | IsTap(c, x, t') && t' in s'.tok ensures t'.gate !in s'.fires && Sent(s', x) == [s'.tok[t']] {
      if t' == t { assert x == w; }
    }
    forall g: nat | g != t.gate ensures !Full(c, g, s'.tok) {
      assert !Full(c, g, s.tok);
    }
    GatesDoneFrame(c, s, s', |c.gates|);
    forall x | WireDone(c, s, x) ensures WireDone(c, s', x) {}
  }

  // At a full gate each token is what the port's wire was driven with.
  lemma FullPort<W(!new), V>(c: Net<W, V>, s: Tokens<W, V>, g: nat, p: nat)
    requires TokensOk(c, s) && Full(c, g, s.tok) && p < |c.gates[g].ins| && c.gates[g].ins[p].Some?
    ensures g !in s.fires && Tap(g, p) in s.tok
    ensures var w := c.gates[g].ins[p].value; w in First(s) && First(s)[w] == s.tok[Tap(g, p)]
  {
    var w := c.gates[g].ins[p].value;
    assert IsTap(c, w, Tap(g, p));
    assert Sent(s, w) == [s.tok[Tap(g, p)]];
  }

  lemma FullHasPort<W(!new), V>(c: Net<W, V>, s: Tokens<W, V>, g: nat)
    requires TokensOk(c, s) && Full(c, g, s.tok)
    ensures g !in s.fires
    ensures exists p: nat :: p < |c.gates[g].ins| && c.gates[g].ins[p].Some?
  {
    var ins := c.gates[g].ins;
    WiredIs(ins);
    assert Wired(ins)[0] in Wired(ins);
    var p: nat :| p < |ins| && ins[p] == Some(Wired(ins)[0]);
    FullPort(c, s, g, p);
  }

  lemma {:induction false} FullGate<W(!new), V>(c: Net<W, V>, s: Tokens<W, V>, g: nat)
    requires TokensOk(c, s) && Full(c, g, s.tok)
    ensures g !in s.fires && Ready(c.gates[g], First(s))
    ensures Held(c.gates[g].ins, g, 0, s.tok) == Inputs(c.gates[g], First(s))
    ensures exists p: nat :: p < |c.gates[g].ins| && c.gates[g].ins[p].Some?
  {
    FullHasPort(c, s, g);
    forall i: nat | i < |c.gates[g].ins| && c.gates[g].ins[i].Some?
      ensures Tap(g, 0 + i) in s.tok && c.gates[g].ins[i].value in First(s)
      ensures First(s)[c.gates[g].ins[i].value] == s.tok[Tap(g, 0 + i)]
    {
      FullPort(c, s, g, i);
    }
    WiredIs(c.gates[g].ins);
    HeldIs(c.gates[g].ins, g, 0, s.tok, First(s));
  }

  lemma FireOk<W(!new), V>(c: Net<W, V>, s: Tokens<W, V>, g: nat)
    requires Inv(c, s, g) && Full(c, g, s.tok)
    ensures var s' := Fire(s, g);
      && Inv(c, s', |c.gates|) && Later(c, s, s', g) && StillPending(c, s, s', []) && First(s') == First(s)
  {
    var s' := Fire(s, g);
    FullGate(c, s, g);
    assert First(s') == First(s);
    assert forall x :: Sent(s', x) == Sent(s, x);
    NoneFull(c, s, g);
    FiresAfter(c, s, g);
    GatesDoneFrame(c, s, s', g);
    PendingAfterFire(c, s, g);
  }

  lemma NoneFull<W(!new), V>(c: Net<W, V>, s: Tokens<W, V>, g: nat)
    requires TokensOk(c, s) && Full(c, g, s.tok) && forall x :: x != g ==> !Full(c, x, s.tok)
    ensures forall x :: !Full(c, x, Fire(s, g).tok)
  {
    FullGate(c, s, g);
    var p: nat :| p < |c.gates[g].ins| && c.gates[g].ins[p].Some?;
    assert Tap(g, p) !in Fire(s, g).tok;
    forall x: nat ensures !Full(c, x, Fire(s, g).tok) {
      if x != g { assert !Full(c, x, s.tok); }
    }
  }

  lemma FiresAfter<W(!new), V>(c: Net<W, V>, s: Tokens<W, V>, g: nat)
    requires FiresOk(c, s) && g !in s.fires && g < |c.gates| && c.gates[g].enabled && Ready(c.gates[g], First(s))
    requires Wired(c.gates[g].ins) != []
    ensures FiresOk(c, Fire(s, g))
  {
    assert First(Fire(s, g)) == First(s);
    assert s.fires[g] == 0;
  }

  lemma PendingAfterFire<W(!new), V>(c: Net<W, V>, s: Tokens<W, V>, g: nat)
    requires Full(c, g, s.tok)
    ensures StillPending(c, s, Fire(s, g), [])
    ensures forall w :: WireDone(c, s, w) ==> WireDone(c, Fire(s, g), w)
  {
    forall w, t | IsTap(c, w, t) && Pending(s, t) ensures Pending(Fire(s, g), t) {
      assert t == Tap(t.gate, t.port);
    }
  }

  // w is about to be driven for the first time in the round.
  ghost predicate Undriven<W(!new), V>(c: Net<W, V>, s: Tokens<W, V>, w: W) {
    Sent(s, w) == [] && forall g, j :: Drives(c, g, j, w) ==> g in s.fires
  }

  lemma PushOk<W(!new), V>(c: Net<W, V>, s: Tokens<W, V>, w: W, v: V)
    requires Inv(c, s, |c.gates|) && Undriven(c, s, w)
    ensures var s' := Push(s, w, v);
      && Inv(c, s', |c.gates|) && Sent(s', w) == [v]
      && (forall x :: x != w ==> Sent(s', x) == Sent(s, x) && (WireDone(c, s, x) ==> WireDone(c, s', x)))
      && (forall t :: IsTap(c, w, t) ==> Pending(s', t))
      && (forall g :: GateDone(c, s, g) && (forall j :: !Drives(c, g, j, w)) ==> GateDone(c, s', g))
  {
    var s' := Push(s, w, v);
    assert forall x :: x != w ==> Sent(s', x) == Sent(s, x);
    forall t | IsTap(c, w, t) ensures Pending(s', t) {
      if t.gate in s.fires { FiredReads(c, s, w, t); }
    }
    FiresKept(c, s, w, v);
    forall x, t | IsTap(c, x, t) && t in s'.tok ensures t.gate !in s'.fires && Sent(s', x) == [s'.tok[t]] {
      assert Sent(s, x) == [s.tok[t]];
    }
    forall g: nat | GateDone(c, s, g) && (forall j: nat :: !Drives(c, g, j, w)) ensures GateDone(c, s', g) {
      if g in s.fires {
        assert w !in Wired(c.gates[g].ins);
        GateDoneFrame(c, s, s', g);
      }
    }
  }

  lemma FiresKept<W(!new), V>(c: Net<W, V>, s: Tokens<W, V>, w: W, v: V)
    requires FiresOk(c, s) && Sent(s, w) == []
    ensures FiresOk(c, Push(s, w, v)) && First(Push(s, w, v)) == First(s)[w := v]
    ensures forall g :: g in s.fires ==> w !in Wired(c.gates[g].ins)
  {
    var s' := Push(s, w, v);
    assert w !in First(s);
    forall g: nat | g in s.fires ensures Ready(c.gates[g], First(s')) && w !in Wired(c.gates[g].ins) {
      assert Ready(c.gates[g], First(s));
      forall x | x in Wired(c.gates[g].ins) ensures x in First(s') { assert x in First(s); }
    }
  }

  lemma FiredReads<W(!new), V>(c: Net<W, V>, s: Tokens<W, V>, w: W, t: Tap)
    requires FiresOk(c, s) && IsTap(c, w, t) && t.gate in s.fires
    ensures Sent(s, w) != []
  {
    WiredIs(c.gates[t.gate].ins);
    assert w in First(s);
  }

  // ----- what a call does

  lemma {:induction false} DriveEffect<W(!new), V>(c: Net<W, V>, h: W -> nat, s: Tokens<W, V>, w: W, v: V)
    requires WellFormed(c, h) && Inv(c, s, |c.gates|) && Undriven(c, s, w)
    ensures var s' := Drive(c, h, s, w, v);
      && Inv(c, s', |c.gates|) && Sent(s', w) == [v] && WireDone(c, s', w)
      && Later(c, Push(s, w, v), s', |c.gates|) && StillPending(c, s, s', [])
    decreases h(w), 3, 0
  {
    var s1 := Push(s, w, v);
    PushOk(c, s, w, v);
    NotifyEffect(c, h, s1, w, v, Taps(c, w));
    forall x, t | IsTap(c, x, t) && Sent(s, x) != [] && Pending(s, t)
      ensures Pending(Drive(c, h, s, w, v), t)
    {
      assert Pending(s1, t) && Sent(s1, x) != [];
      assert t !in Taps(c, w);
    }
  }

  lemma {:induction false} NotifyEffect<W(!new), V>(c: Net<W, V>, h: W -> nat, s: Tokens<W, V>, w: W, v: V, taps: seq<Tap>)
    requires WellFormed(c, h) && Inv(c, s, |c.gates|) && Sent(s, w) == [v]
    requires forall i :: 0 <= i < |taps| ==> IsTap(c, w, taps[i]) && Pending(s, taps[i])
    requires forall i, j :: 0 <= i < j < |taps| ==> taps[i] != taps[j]
    ensures var s' := Notify(c, h, s, w, v, taps);
      && Inv(c, s', |c.gates|) && Later(c, s, s', |c.gates|) && StillPending(c, s, s', taps)
      && (forall i :: 0 <= i < |taps| ==> !Pending(s', taps[i]))
    decreases h(w), 2, |taps|
  {
    if taps != [] {
      var t, rest := taps[0], taps[1..];
      assert Reads(c, t.gate, w);
      var s1 := Deliver(s, t, v);
      DeliverOk(c, s, w, v, t);
      var s2 := Execute(c, h, s1, t.gate, h(w));
      ExecuteEffect(c, h, s1, t.gate, h(w));
      RestPending(c, s, w, v, s2, taps);
      NotifyEffect(c, h, s2, w, v, rest);
      NotifyStep(c, s, s1, s2, Notify(c, h, s, w, v, taps), taps);
    }
  }

  // The other ports of w still wait after the first one was served.
  lemma RestPending<W(!new), V>(c: Net<W, V>, s: Tokens<W, V>, w: W, v: V, s2: Tokens<W, V>, taps: seq<Tap>)
    requires taps != [] && Sent(s, w) != [] && StillPending(c, Deliver(s, taps[0], v), s2, [])
    requires forall i :: 0 <= i < |taps| ==> IsTap(c, w, taps[i]) && Pending(s, taps[i])
    requires forall i, j :: 0 <= i < j < |taps| ==> taps[i] != taps[j]
    ensures forall i :: 0 <= i < |taps[1..]| ==> IsTap(c, w, taps[1..][i]) && Pending(s2, taps[1..][i])
    ensures forall i, j :: 0 <= i < j < |taps[1..]| ==> taps[1..][i] != taps[1..][j]
  {
    forall i | 0 <= i < |taps[1..]| ensures IsTap(c, w, taps[1..][i]) && Pending(s2, taps[1..][i]) {
      assert taps[1..][i] == taps[i + 1];
      assert Pending(Deliver(s, taps[0], v), taps[i + 1]);
    }
  }

  lemma NotifyStep<W(!new), V>(
    c: Net<W, V>, s: Tokens<W, V>, s1: Tokens<W, V>, s2: Tokens<W, V>, s3: Tokens<W, V>, taps: seq<Tap>)
    requires taps != [] && !Pending(s1, taps[0])
    requires Later(c, s, s1, |c.gates|) && Later(c, s1, s2, |c.gates|) && Later(c, s2, s3, |c.gates|)
    requires StillPending(c, s, s1, [taps[0]]) && StillPending(c, s1, s2, []) && StillPending(c, s2, s3, taps[1..])
    requires forall i :: 0 <= i < |taps[1..]| ==> !Pending(s3, taps[1..][i])
    ensures Later(c, s, s3, |c.gates|) && StillPending(c, s, s3, taps)
    ensures forall i :: 0 <= i < |taps| ==> !Pending(s3, taps[i])
  {
    LaterTrans(c, s, s1, s2, |c.gates|);
    LaterTrans(c, s, s2, s3, |c.gates|);
    forall w, t | IsTap(c, w, t) && Sent(s, w) != [] && Pending(s, t) && t !in taps ensures Pending(s3, t) {
      assert t !in [taps[0]] && t !in taps[1..];
      assert Pending(s1, t) && Pending(s2, t);
    }
    forall i | 0 <= i < |taps| ensures !Pending(s3, taps[i]) {
      if i > 0 { assert taps[i] == taps[1..][i - 1]; }
    }
  }

  lemma {:induction false} ExecuteEffect<W(!new), V>(c: Net<W, V>, h: W -> nat, s: Tokens<W, V>, g: nat, bound: nat)
    requires WellFormed(c, h) && g < |c.gates| && Inv(c, s, g)
    requires forall j, o :: Drives(c, g, j, o) ==> h(o) < bound
    ensures var s' := Execute(c, h, s, g, bound);
      Inv(c, s', |c.gates|) && Later(c, s, s', |c.gates|) && StillPending(c, s, s', [])
    decreases bound, 1, 0
  {
    if Full(c, g, s.tok) {
      var s1 := Fire(s, g);
      FullGate(c, s, g);
      FireOk(c, s, g);
      var xs := Held(c.gates[g].ins, g, 0, s.tok);
      forall j: nat | j < |c.gates[g].outs| && c.gates[g].outs[j].Some? ensures Sent(s1, c.gates[g].outs[j].value) == [] {
        assert Drives(c, g, j, c.gates[g].outs[j].value);
      }
      EmitEffect(c, h, s1, g, bound, xs, 0);
      var s' := Execute(c, h, s, g, bound);
      LaterTrans(c, s, s1, s', g);
      PendingTrans(c, s, s1, s', g, []);
      forall x: nat | GateDone(c, s, x) ensures GateDone(c, s', x) {}
    }
  }

  lemma {:induction false} EmitEffect<W(!new), V>(
    c: Net<W, V>, h: W -> nat, s: Tokens<W, V>, g: nat, bound: nat, xs: seq<V>, j: nat)
    requires WellFormed(c, h) && Inv(c, s, |c.gates|) && g in s.fires && g < |c.gates|
    requires Ready(c.gates[g], First(s)) && xs == Inputs(c.gates[g], First(s))
    requires forall j, o :: Drives(c, g, j, o) ==> h(o) < bound
    requires forall k :: 0 <= k < j ==> PortDone(c, s, g, k)
    requires forall k :: j <= k < |c.gates[g].outs| && c.gates[g].outs[k].Some? ==> Sent(s, c.gates[g].outs[k].value) == []
    ensures var s' := Emit(c, h, s, g, bound, xs, j);
      && Inv(c, s', |c.gates|) && Later(c, s, s', g) && StillPending(c, s, s', []) && GateDone(c, s', g)
    decreases bound, 0, |c.gates[g].outs| - j
  {
    if j < |c.gates[g].outs| {
      var s1 := Put(c, h, s, g, bound, xs, j);
      PutEffect(c, h, s, g, bound, xs, j);
      EmitEffect(c, h, s1, g, bound, xs, j + 1);
      var s' := Emit(c, h, s, g, bound, xs, j);
      LaterTrans(c, s, s1, s', g);
      PendingTrans(c, s, s1, s', g, []);
    }
  }

  lemma {:induction false} PutEffect<W(!new), V>(
    c: Net<W, V>, h: W -> nat, s: Tokens<W, V>, g: nat, bound: nat, xs: seq<V>, j: nat)
    requires WellFormed(c, h) && Inv(c, s, |c.gates|) && g in s.fires && g < |c.gates| && j < |c.gates[g].outs|
    requires Ready(c.gates[g], First(s)) && xs == Inputs(c.gates[g], First(s))
    requires forall j, o :: Drives(c, g, j, o) ==> h(o) < bound
    requires forall k :: 0 <= k < j ==> PortDone(c, s, g, k)
    requires forall k :: j <= k < |c.gates[g].outs| && c.gates[g].outs[k].Some? ==> Sent(s, c.gates[g].outs[k].value) == []
    ensures var s' := Put(c, h, s, g, bound, xs, j);
      && Inv(c, s', |c.gates|) && Later(c, s, s', g) && StillPending(c, s, s', []) && g in s'.fires
      && Ready(c.gates[g], First(s')) && xs == Inputs(c.gates[g], First(s'))
      && (forall k :: 0 <= k < j + 1 ==> PortDone(c, s', g, k))
      && (forall k :: j < k < |c.gates[g].outs| && c.gates[g].outs[k].Some? ==> Sent(s', c.gates[g].outs[k].value) == [])
    decreases bound, 0, 0
  {
    var port, out, s' := c.gates[g].outs[j], Out(c.gates[g], xs, j), Put(c, h, s, g, bound, xs, j);
    if port.Some? && out.Some? {
      var o, v := port.value, out.value;
      assert Drives(c, g, j, o);
      PushOk(c, s, o, v);
      DriveEffect(c, h, s, o, v);
      PushedLater(c, s, g, j, o, v, s');
      FiresKept(c, s, o, v);
      SameInputs(c.gates[g], s, s');
      PutPorts(c, s, g, j, o, v, s');
    } else {
      assert s' == s && PortDone(c, s, g, j);
    }
  }

  lemma PutPorts<W(!new), V>(c: Net<W, V>, s: Tokens<W, V>, g: nat, j: nat, o: W, v: V, s': Tokens<W, V>)
    requires OneDriver(c) && Drives(c, g, j, o) && Sent(s', o) == [v]
    requires Ready(c.gates[g], First(s)) && Ready(c.gates[g], First(s'))
    requires Inputs(c.gates[g], First(s')) == Inputs(c.gates[g], First(s))
    requires Out(c.gates[g], Inputs(c.gates[g], First(s)), j) == Some(v)
    requires forall k, w :: Drives(c, g, k, w) && w != o ==> Sent(s', w) == Sent(s, w)
    requires forall k :: 0 <= k < j ==> PortDone(c, s, g, k)
    requires forall k :: j <= k < |c.gates[g].outs| && c.gates[g].outs[k].Some? ==> Sent(s, c.gates[g].outs[k].value) == []
    ensures forall k :: 0 <= k < j + 1 ==> PortDone(c, s', g, k)
    ensures forall k :: j < k < |c.gates[g].outs| && c.gates[g].outs[k].Some? ==> Sent(s', c.gates[g].outs[k].value) == []
  {
    forall k: nat | k < |c.gates[g].outs| && c.gates[g].outs[k].Some? && k != j
      ensures Sent(s', c.gates[g].outs[k].value) == Sent(s, c.gates[g].outs[k].value)
    {
      assert Drives(c, g, k, c.gates[g].outs[k].value);
    }
    forall k: nat | k < j + 1 ensures PortDone(c, s', g, k) {
      if k < j { assert PortDone(c, s, g, k); }
    }
  }

  lemma SameInputs<W(!new), V>(gate: Gate<W, V>, a: Tokens<W, V>, b: Tokens<W, V>)
    requires Ready(gate, First(a)) && forall w :: Sent(a, w) != [] ==> Sent(b, w) == Sent(a, w)
    ensures Ready(gate, First(b)) && Inputs(gate, First(b)) == Inputs(gate, First(a))
  {
    forall w | w in Wired(gate.ins) ensures w in First(b) && First(b)[w] == First(a)[w] {
      assert w in First(a) && Sent(a, w) != [] && Sent(b, w) == Sent(a, w);
    }
  }

  // Driving o, an output of g, seen from before the drive.
  lemma PushedLater<W(!new), V>(c: Net<W, V>, s: Tokens<W, V>, g: nat, j: nat, o: W, v: V, s': Tokens<W, V>)
    requires OneDriver(c) && Inv(c, s, |c.gates|) && Drives(c, g, j, o) && g in s.fires && Sent(s, o) == []
    requires Later(c, Push(s, o, v), s', |c.gates|) && WireDone(c, s', o)
    ensures Later(c, s, s', g)
    ensures forall k, w :: Drives(c, g, k, w) && w != o ==> Sent(s', w) == Sent(s, w)
  {
    var s1 := Push(s, o, v);
    PushOk(c, s, o, v);
    forall x: nat | x != g && GateDone(c, s, x) ensures GateDone(c, s', x) {
      assert forall k: nat :: !Drives(c, x, k, o);
      assert GateDone(c, s1, x);
      if x in s'.fires && x == |c.gates| { assert GateDone(c, s', x); }
    }
    forall w | Sent(s, w) != [] || Source(c, w) ensures Sent(s', w) == Sent(s, w) {
      assert w != o;
    }
    forall w | WireDone(c, s, w) ensures WireDone(c, s', w) {}
  }

  // ----- rounds

  // Nothing is under way.
  ghost predicate Quiet<W(!new), V>(c: Net<W, V>, s: Tokens<W, V>) {
    Inv(c, s, |c.gates|) && (forall g :: GateDone(c, s, g)) && (forall w :: WireDone(c, s, w))
  }

  lemma {:induction false} DriveQuiet<W(!new), V>(c: Net<W, V>, h: W -> nat, s: Tokens<W, V>, w: W, v: V)
    requires WellFormed(c, h) && Quiet(c, s) && Source(c, w) && Sent(s, w) == []
    ensures var s' := Drive(c, h, s, w, v);
      && Quiet(c, s') && Sent(s', w) == [v]
      && forall x :: Source(c, x) && x != w ==> Sent(s', x) == Sent(s, x)
  {
    PushOk(c, s, w, v);
    DriveEffect(c, h, s, w, v);
    var s1 := Push(s, w, v);
    forall g: nat ensures GateDone(c, s1, g) {}
    forall x ensures WireDone(c, Drive(c, h, s, w, v), x) {
      if x != w { assert WireDone(c, s1, x); }
    }
  }

  // Drives sources one after the other, starting from empty ports.
  ghost function Round<W(!new), V>(c: Net<W, V>, h: W -> nat, drives: seq<(W, V)>): Tokens<W, V>
    requires WellFormed(c, h)
    decreases |drives|
  {
    if drives == [] then Tokens(map[], map[], multiset{})
    else
      var last := |drives| - 1;
      Drive(c, h, Round(c, h, drives[..last]), drives[last].0, drives[last].1)
  }

  // Sources, each at most once.
  ghost predicate OncePerSource<W(!new), V>(c: Net<W, V>, drives: seq<(W, V)>) {
    && (forall i :: 0 <= i < |drives| ==> Source(c, drives[i].0))
    && (forall i, k :: 0 <= i < k < |drives| ==> drives[i].0 != drives[k].0)
  }

  lemma EmptyQuiet<W(!new), V>(c: Net<W, V>)
    ensures Quiet(c, Tokens(map[], map[], multiset{}))
  {
    var s: Tokens<W, V> := Tokens(map[], map[], multiset{});
    forall g: nat ensures !Full(c, g, s.tok) {
      if Full(c, g, s.tok) { FullGate(c, s, g); }
    }
  }

  // Each source was driven with its value in `drives`, or not at all.
  ghost predicate SentAs<W(!new), V>(c: Net<W, V>, s: Tokens<W, V>, drives: seq<(W, V)>) {
    && (forall i :: 0 <= i < |drives| ==> Sent(s, drives[i].0) == [drives[i].1])
    && (forall w :: Source(c, w) && !Driven(drives, w) ==> Sent(s, w) == [])
  }

  ghost predicate Driven<W, V>(drives: seq<(W, V)>, w: W) {
    exists i :: 0 <= i < |drives| && drives[i].0 == w
  }

  lemma {:induction false} RoundQuiet<W(!new), V>(c: Net<W, V>, h: W -> nat, drives: seq<(W, V)>)
    requires WellFormed(c, h) && OncePerSource(c, drives)
    ensures Quiet(c, Round(c, h, drives)) && SentAs(c, Round(c, h, drives), drives)
    decreases |drives|
  {
    if drives == [] {
      EmptyQuiet(c);
    } else {
      var last := |drives| - 1;
      var before, w, v := drives[..last], drives[last].0, drives[last].1;
      OncePrefix(c, drives);
      RoundQuiet(c, h, before);
      DriveQuiet(c, h, Round(c, h, before), w, v);
      SentStep(c, Round(c, h, before), Round(c, h, drives), before, w, v);
    }
  }

  lemma OncePrefix<W(!new), V>(c: Net<W, V>, drives: seq<(W, V)>)
    requires OncePerSource(c, drives) && drives != []
    ensures var last := |drives| - 1;
      && OncePerSource(c, drives[..last]) && drives == drives[..last] + [(drives[last].0, drives[last].1)]
      && !Driven(drives[..last], drives[last].0) && Source(c, drives[last].0)
  {
    var last := |drives| - 1;
    assert forall i :: 0 <= i < last ==> drives[..last][i] == drives[i];
  }

  lemma SentStep<W(!new), V>(
    c: Net<W, V>, s: Tokens<W, V>, s': Tokens<W, V>, before: seq<(W, V)>, w: W, v: V)
    requires SentAs(c, s, before) && OncePerSource(c, before) && !Driven(before, w) && Source(c, w)
    requires Sent(s', w) == [v] && forall x :: Source(c, x) && x != w ==> Sent(s', x) == Sent(s, x)
    ensures SentAs(c, s', before + [(w, v)])
  {
    var drives := before + [(w, v)];
    forall i | 0 <= i < |before| ensures Sent(s', before[i].0) == [before[i].1] {
      assert before[i].0 != w;
    }
    forall x | Source(c, x) && !Driven(drives, x) ensures Sent(s', x) == [] {
      assert drives[|before|].0 != x;
      forall i | 0 <= i < |before| ensures before[i].0 != x { assert drives[i].0 != x; }
    }
  }

  // ----- what a quiet state looks like is fixed by the sources

  lemma QuietFires<W(!new), V>(c: Net<W, V>, s: Tokens<W, V>, g: nat)
    requires Quiet(c, s) && g < |c.gates|
    ensures g in s.fires <==> c.gates[g].enabled && Wired(c.gates[g].ins) != [] && Ready(c.gates[g], First(s))
  {
    var ins := c.gates[g].ins;
    WiredIs(ins);
    if c.gates[g].enabled && Wired(ins) != [] && Ready(c.gates[g], First(s)) {
      forall p: nat | p < |ins| && ins[p].Some? ensures g in s.fires || Tap(g, p) in s.tok {
        assert IsTap(c, ins[p].value, Tap(g, p)) && ins[p].value in First(s);
        assert WireDone(c, s, ins[p].value);
      }
      assert g in s.fires || Full(c, g, s.tok);
    }
  }

  // Both rounds drove w with the same.
  lemma {:induction false} SameSent<W(!new), V>(c: Net<W, V>, c': Net<W, V>, h: W -> nat, a: Tokens<W, V>, b: Tokens<W, V>, w: W)
    requires WellFormed(c, h) && Quiet(c, a) && Quiet(c', b) && c.gates == c'.gates
    requires forall x :: Source(c, x) ==> Sent(a, x) == Sent(b, x)
    ensures Sent(a, w) == Sent(b, w)
    decreases Top(c.gates, h) - h(w)
  {
    if !Source(c, w) {
      var g: nat, j: nat :| Drives(c, g, j, w);
      var gate := c.gates[g];
      WiredIs(gate.ins);
      forall x | x in Wired(gate.ins) ensures Sent(a, x) == Sent(b, x) {
        assert Reads(c, g, x);
        TopIs(c.gates, h, g, x);
        SameSent(c, c', h, a, b, x);
      }
      assert Drives(c', g, j, w);
      SameGate(c, c', a, b, g);
      if g in a.fires {
        assert GateDone(c, a, g) && GateDone(c', b, g);
        assert PortDone(c, a, g, j) && PortDone(c', b, g, j);
      }
    }
  }

  lemma SameGate<W(!new), V>(c: Net<W, V>, c': Net<W, V>, a: Tokens<W, V>, b: Tokens<W, V>, g: nat)
    requires Quiet(c, a) && Quiet(c', b) && c.gates == c'.gates && g < |c.gates|
    requires forall x :: x in Wired(c.gates[g].ins) ==> Sent(a, x) == Sent(b, x)
    ensures g in a.fires <==> g in b.fires
    ensures Ready(c.gates[g], First(a)) <==> Ready(c.gates[g], First(b))
    ensures Ready(c.gates[g], First(a)) ==> Inputs(c.gates[g], First(a)) == Inputs(c.gates[g], First(b))
  {
    QuietFires(c, a, g);
    QuietFires(c', b, g);
    assert forall x :: x in Wired(c.gates[g].ins) ==> (x in First(a) <==> x in First(b));
    assert forall x :: x in Wired(c.gates[g].ins) && x in First(a) ==> First(a)[x] == First(b)[x];
  }

  lemma SameEnd<W(!new), V>(c: Net<W, V>, c': Net<W, V>, a: Tokens<W, V>, b: Tokens<W, V>)
    requires Quiet(c, a) && Quiet(c', b) && c.gates == c'.gates && forall w :: Sent(a, w) == Sent(b, w)
    ensures a.fires == b.fires && a.tok == b.tok
  {
    forall g: nat ensures a.fires[g] == b.fires[g] {
      if g < |c.gates| { SameGate(c, c', a, b, g); }
    }
    assert a.fires == b.fires;
    forall t ensures t in a.tok ==> t in b.tok && a.tok[t] == b.tok[t] {
      SameToken(c, c', a, b, t);
    }
    forall t ensures t in b.tok ==> t in a.tok {
      SameToken(c', c, b, a, t);
    }
  }

  lemma SameToken<W(!new), V>(c: Net<W, V>, c': Net<W, V>, a: Tokens<W, V>, b: Tokens<W, V>, t: Tap)
    requires Quiet(c, a) && Quiet(c', b) && c.gates == c'.gates && a.fires == b.fires && forall w :: Sent(a, w) == Sent(b, w)
    ensures t in a.tok ==> t in b.tok && a.tok[t] == b.tok[t]
  {
    if t in a.tok {
      var w := c.gates[t.gate].ins[t.port].value;
      assert IsTap(c, w, t) && IsTap(c', w, t);
      assert WireDone(c', b, w);
    }
  }

  /** Two rounds that drive the same sources with the same values, in whatever order, on circuits whose
      wires list their drivens in whatever order, drive every wire with the same, fire the same gates
      and leave the same tokens. */
  lemma {:induction false} OrderIrrelevant<W(!new), V>(
    c: Net<W, V>, c': Net<W, V>, h: W -> nat, drives: seq<(W, V)>, drives': seq<(W, V)>)
    requires WellFormed(c, h) && WellFormed(c', h) && c.gates == c'.gates
    requires OncePerSource(c, drives) && OncePerSource(c, drives') && multiset(drives) == multiset(drives')
    ensures var a, b := Round(c, h, drives), Round(c', h, drives');
      (forall w :: Sent(a, w) == Sent(b, w)) && a.fires == b.fires && a.tok == b.tok
  {
    var a, b := Round(c, h, drives), Round(c', h, drives');
    forall x, g: nat, j: nat ensures Drives(c, g, j, x) <==> Drives(c', g, j, x) {}
    RoundQuiet(c, h, drives);
    RoundQuiet(c', h, drives');
    forall x | Source(c, x) ensures Sent(a, x) == Sent(b, x) {
      forall i | 0 <= i < |drives| ensures drives[i] in drives' {
        assert drives[i] in multiset(drives');
      }
      forall i | 0 <= i < |drives'| ensures drives'[i] in drives {
        assert drives'[i] in multiset(drives);
      }
    }
    forall w ensures Sent(a, w) == Sent(b, w) {
      SameSent(c, c', h, a, b, w);
    }
    SameEnd(c, c', a, b);
  }

  // Every source that feeds a gate is driven.
  ghost predicate FeedsAll<W(!new), V>(c: Net<W, V>, drives: seq<(W, V)>) {
    forall w, g :: Source(c, w) && Reads(c, g, w) ==> Driven(drives, w)
  }

  lemma {:induction false} EveryGateFires<W(!new), V(!new)>(c: Net<W, V>, h: W -> nat, s: Tokens<W, V>, g: nat, bound: nat)
    requires WellFormed(c, h) && Total(c) && Quiet(c, s) && g < |c.gates|
    requires forall w, x :: Source(c, w) && Reads(c, x, w) ==> Sent(s, w) != []
    requires forall w :: Reads(c, g, w) ==> Top(c.gates, h) - h(w) < bound
    ensures g in s.fires
    decreases bound
  {
    var gate := c.gates[g];
    WiredIs(gate.ins);
    assert gate.enabled && Wired(gate.ins) != [];
    forall w | w in Wired(gate.ins) ensures w in First(s) {
      assert Reads(c, g, w);
      TopIs(c.gates, h, g, w);
      if !Source(c, w) {
        var g': nat, j: nat :| Drives(c, g', j, w);
        assert forall x :: Reads(c, g', x) ==> h(w) < h(x);
        EveryGateFires(c, h, s, g', Top(c.gates, h) - h(w));
        FiredDrives(c, s, g', j, w);
      }
    }
    QuietFires(c, s, g);
  }

  lemma FiredDrives<W(!new), V(!new)>(c: Net<W, V>, s: Tokens<W, V>, g: nat, j: nat, w: W)
    requires Total(c) && Quiet(c, s) && g in s.fires && Drives(c, g, j, w)
    ensures Ready(c.gates[g], First(s))
    ensures var out := Out(c.gates[g], Inputs(c.gates[g], First(s)), j); out.Some? && Sent(s, w) == [out.value]
  {
    assert GateDone(c, s, g) && PortDone(c, s, g, j);
    assert |Inputs(c.gates[g], First(s))| == |Wired(c.gates[g].ins)|;
  }

  /** When every source that feeds a gate is driven once, in any order, every gate fires exactly once,
      every driven wire is driven exactly once, with the value that the same circuit of direct wires
      settles at, and every port is empty again. */
  lemma {:induction false} FullRound<W(!new), V(!new)>(c: Net<W, V>, h: W -> nat, drives: seq<(W, V)>)
    requires WellFormed(c, h) && Total(c) && OncePerSource(c, drives) && FeedsAll(c, drives)
    ensures var s, settled := Round(c, h, drives), DirectWires.DriveAll(c, h, DirectWires.Signals(map[], []), drives).val;
      && (forall g: nat :: s.fires[g] == if g < |c.gates| then 1 else 0)
      && (forall g, j, o :: Drives(c, g, j, o) ==> o in settled && Sent(s, o) == [settled[o]])
      && s.tok == map[]
  {
    var s, settled := Round(c, h, drives), DirectWires.DriveAll(c, h, DirectWires.Signals(map[], []), drives).val;
    RoundQuiet(c, h, drives);
    forall w, x: nat | Source(c, w) && Reads(c, x, w) ensures Sent(s, w) != [] {}
    forall g: nat | g < |c.gates| ensures g in s.fires {
      EveryGateFires(c, h, s, g, Top(c.gates, h) + 1);
    }
    forall t ensures t !in s.tok {
      if t in s.tok { assert IsTap(c, c.gates[t.gate].ins[t.port].value, t); }
    }
    SameAsDirect(c, h, drives, s, settled);
  }

  lemma {:induction false} SameAsDirect<W(!new), V(!new)>(c: Net<W, V>, h: W -> nat, drives: seq<(W, V)>, s: Tokens<W, V>, settled: map<W, V>)
    requires WellFormed(c, h) && Total(c) && OncePerSource(c, drives) && FeedsAll(c, drives) && s == Round(c, h, drives)
    requires Quiet(c, s) && forall g :: 0 <= g < |c.gates| ==> g in s.fires
    requires settled == DirectWires.DriveAll(c, h, DirectWires.Signals(map[], []), drives).val
    ensures forall g, j, o :: Drives(c, g, j, o) ==> o in settled && Sent(s, o) == [settled[o]]
  {
    RoundQuiet(c, h, drives);
    DirectWires.DriveAllSettles(c, h, drives);
    forall g: nat, j: nat ensures DirectWires.PortOk(c, First(s), g, j) {
      if g < |c.gates| && j < |c.gates[g].outs| && c.gates[g].outs[j].Some? {
        FiredDrives(c, s, g, j, c.gates[g].outs[j].value);
      }
    }
    LastOnce(drives);
    assert DirectWires.SameSources(c, First(s), settled);
    forall g: nat, j: nat, o | Drives(c, g, j, o) ensures o in settled && Sent(s, o) == [settled[o]] {
      DirectWires.SameValue(c, h, First(s), settled, g, j, o);
    }
  }

  lemma {:induction false} LastOnce<W(!new), V>(drives: seq<(W, V)>)
    requires forall i, k :: 0 <= i < k < |drives| ==> drives[i].0 != drives[k].0
    ensures forall i :: 0 <= i < |drives| ==>
      drives[i].0 in DirectWires.Last(drives) && DirectWires.Last(drives)[drives[i].0] == drives[i].1
    decreases |drives|
  {
    if drives != [] { LastOnce(drives[..|drives| - 1]); }
  }
}
