/** What a drive on token wires sends and what it leaves at the ports, in any state and for any circuit. */
module TokenLaws {
  import opened Circuit
  import opened Options
  import opened GateLaws
  import opened TokenWires

  // ----- what is sent

  // Some enabled gate hands x to its port on o, for some inputs, and the wire takes it.
  ghost predicate Possible<W(!new), V(!new)>(c: Net<W, V>, o: W, x: V) {
    exists g: nat, j: nat, xs ::
      Drives(c, g, j, o) && c.gates[g].enabled && Hands(c.gates[g], xs, j, x) && Fits(c.gates[g], j, x)
  }

  // What has been sent on o since a.
  ghost predicate SentMore<W(!new), V(!new)>(c: Net<W, V>, a: Tokens<W, V>, b: Tokens<W, V>, o: W) {
    && Sent(a, o) <= Sent(b, o)
    && forall i :: |Sent(a, o)| <= i < |Sent(b, o)| ==> Possible(c, o, Sent(b, o)[i])
  }

  ghost predicate AllSentMore<W(!new), V(!new)>(c: Net<W, V>, a: Tokens<W, V>, b: Tokens<W, V>) {
    forall o :: SentMore(c, a, b, o)
  }

  lemma SentMoreTrans<W(!new), V(!new)>(c: Net<W, V>, x: Tokens<W, V>, y: Tokens<W, V>, z: Tokens<W, V>)
    requires AllSentMore(c, x, y) && AllSentMore(c, y, z)
    ensures AllSentMore(c, x, z)
  {
    forall o ensures SentMore(c, x, z, o) {
      assert SentMore(c, x, y, o) && SentMore(c, y, z, o);
      forall i | |Sent(x, o)| <= i < |Sent(z, o)| ensures Possible(c, o, Sent(z, o)[i]) {
        if i < |Sent(y, o)| { assert Sent(z, o)[i] == Sent(y, o)[i]; }
      }
    }
  }

  /** Beside its own value a drive sends only what enabled gates make and wires take. */
  lemma {:induction false} DriveSends<W(!new), V(!new)>(c: Net<W, V>, h: W -> nat, s: Tokens<W, V>, w: W, v: V)
    requires WellFormed(c, h)
    ensures AllSentMore(c, Push(s, w, v), Drive(c, h, s, w, v))
    decreases h(w), 3, 0
  {
    NotifySends(c, h, Push(s, w, v), w, v, Taps(c, w));
  }

  lemma {:induction false} NotifySends<W(!new), V(!new)>(
    c: Net<W, V>, h: W -> nat, s: Tokens<W, V>, w: W, v: V, taps: seq<Tap>)
    requires WellFormed(c, h)
    requires forall i :: 0 <= i < |taps| ==> IsTap(c, w, taps[i])
    ensures AllSentMore(c, s, Notify(c, h, s, w, v, taps))
    decreases h(w), 2, |taps|
  {
    if taps != [] {
      assert Reads(c, taps[0].gate, w);
      var s1 := Deliver(s, taps[0], v);
      var s2 := Execute(c, h, s1, taps[0].gate, h(w));
      assert AllSentMore(c, s, s1);
      ExecuteSends(c, h, s1, taps[0].gate, h(w));
      SentMoreTrans(c, s, s1, s2);
      NotifySends(c, h, s2, w, v, taps[1..]);
      SentMoreTrans(c, s, s2, Notify(c, h, s2, w, v, taps[1..]));
    }
  }

  lemma {:induction false} ExecuteSends<W(!new), V(!new)>(c: Net<W, V>, h: W -> nat, s: Tokens<W, V>, g: nat, bound: nat)
    requires WellFormed(c, h) && g < |c.gates|
    requires forall j, o :: Drives(c, g, j, o) ==> h(o) < bound
    ensures AllSentMore(c, s, Execute(c, h, s, g, bound))
    decreases bound, 1, 0
  {
    if Full(c, g, s.tok) {
      assert AllSentMore(c, s, Fire(s, g));
      EmitSends(c, h, Fire(s, g), g, bound, Held(c.gates[g].ins, g, 0, s.tok), 0);
      SentMoreTrans(c, s, Fire(s, g), Execute(c, h, s, g, bound));
    }
  }

  lemma {:induction false} EmitSends<W(!new), V(!new)>(
    c: Net<W, V>, h: W -> nat, s: Tokens<W, V>, g: nat, bound: nat, xs: seq<V>, j: nat)
    requires WellFormed(c, h) && g < |c.gates| && c.gates[g].enabled
    requires forall j, o :: Drives(c, g, j, o) ==> h(o) < bound
    ensures AllSentMore(c, s, Emit(c, h, s, g, bound, xs, j))
    decreases bound, 0, |c.gates[g].outs| - j
  {
    if j < |c.gates[g].outs| {
      var s1 := Put(c, h, s, g, bound, xs, j);
      PutSends(c, h, s, g, bound, xs, j);
      EmitSends(c, h, s1, g, bound, xs, j + 1);
      SentMoreTrans(c, s, s1, Emit(c, h, s1, g, bound, xs, j + 1));
    }
  }

  lemma {:induction false} PutSends<W(!new), V(!new)>(
    c: Net<W, V>, h: W -> nat, s: Tokens<W, V>, g: nat, bound: nat, xs: seq<V>, j: nat)
    requires WellFormed(c, h) && g < |c.gates| && c.gates[g].enabled && j < |c.gates[g].outs|
    requires forall j, o :: Drives(c, g, j, o) ==> h(o) < bound
    ensures AllSentMore(c, s, Put(c, h, s, g, bound, xs, j))
    decreases bound, 0, 0
  {
    var port, out := c.gates[g].outs[j], Out(c.gates[g], xs, j);
    if port.Some? && out.Some? {
      var o, x := port.value, out.value;
      assert Drives(c, g, j, o);
      OutIs(c.gates[g], xs, j, x);
      assert Possible(c, o, x);
      assert AllSentMore(c, s, Push(s, o, x));
      DriveSends(c, h, s, o, x);
      SentMoreTrans(c, s, Push(s, o, x), Drive(c, h, s, o, x));
    }
  }

  /** Nothing is sent on a wire whose drivers are all disabled, or hand nothing to their port whatever they read. */
  lemma {:induction false} SilentStays<W(!new), V(!new)>(
    c: Net<W, V>, h: W -> nat, s: Tokens<W, V>, w: W, v: V, o: W)
    requires WellFormed(c, h) && o != w && Silenced(c, o)
    ensures Sent(Drive(c, h, s, w, v), o) == Sent(s, o)
  {
    var s' := Drive(c, h, s, w, v);
    DriveSends(c, h, s, w, v);
    assert SentMore(c, Push(s, w, v), s', o);
    assert Sent(Push(s, w, v), o) == Sent(s, o);
    assert |Sent(s', o)| > |Sent(s, o)| ==> Possible(c, o, Sent(s', o)[|Sent(s, o)|]);
    assert forall x :: !Possible(c, o, x);
  }

  /** What a gate under a type test sent in the course of a drive has passed the test. */
  lemma {:induction false} SentFits<W(!new), V(!new)>(
    c: Net<W, V>, h: W -> nat, s: Tokens<W, V>, w: W, v: V, g: nat, j: nat, o: W, p: (nat, V) -> bool, i: nat)
    requires WellFormed(c, h) && Drives(c, g, j, o) && c.gates[g].guard == Some(p) && o != w
    requires |Sent(s, o)| <= i < |Sent(Drive(c, h, s, w, v), o)|
    ensures p(j, Sent(Drive(c, h, s, w, v), o)[i])
  {
    DriveSends(c, h, s, w, v);
    assert SentMore(c, Push(s, w, v), Drive(c, h, s, w, v), o);
    assert Sent(Push(s, w, v), o) == Sent(s, o);
    assert Possible(c, o, Sent(Drive(c, h, s, w, v), o)[i]);
  }

  // ----- what a round sends

  /** After a round a gate with a wired input has sent on the wire at port j what it makes of what its inputs were driven
      with, if it makes something, and nothing otherwise. */
  lemma {:induction false} RoundSends<W(!new), V(!new)>(
    c: Net<W, V>, h: W -> nat, drives: seq<(W, V)>, g: nat, j: nat, o: W)
    requires WellFormed(c, h) && OncePerSource(c, drives) && Drives(c, g, j, o)
    ensures var s := Round(c, h, drives);
      && (forall v :: Sent(s, o) == [v] <==>
            Makes(c, First(s), g, j, o, v) && exists p :: 0 <= p < |c.gates[g].ins| && c.gates[g].ins[p].Some?)
      && |Sent(s, o)| <= 1
  {
    var s := Round(c, h, drives);
    RoundQuiet(c, h, drives);
    QuietFires(c, s, g);
    WiredNone(c.gates[g].ins);
    forall v ensures Makes(c, First(s), g, j, o, v) <==>
      c.gates[g].enabled && Ready(c.gates[g], First(s)) && Out(c.gates[g], Inputs(c.gates[g], First(s)), j) == Some(v)
    {
      MakesIs(c, First(s), g, j, o, v);
    }
    if g in s.fires {
      assert GateDone(c, s, g) && PortDone(c, s, g, j);
      var out := Out(c.gates[g], Inputs(c.gates[g], First(s)), j);
      if out.Some? { assert Sent(s, o) == [out.value]; }
    } else {
      assert Sent(s, o) == [];
    }
  }

  lemma {:induction false} WiredNone<W>(ins: seq<Option<W>>)
    ensures Wired(ins) != [] <==> exists p :: 0 <= p < |ins| && ins[p].Some?
  {
    if p :| 0 <= p < |ins| && ins[p].Some? { WiredAt(ins, p); }
    if Wired(ins) != [] {
      RankIs(ins, |ins|);
      assert ins[..|ins|] == ins;
      var p := PortAt(ins, |ins|, 0);
    }
  }

  // ----- what waits at the ports

  // No gate unfires, and one that has fired since is enabled and has the ports it wants.
  ghost predicate FiresOn<W(!new), V>(c: Net<W, V>, a: Tokens<W, V>, b: Tokens<W, V>) {
    && a.fires <= b.fires
    && forall g :: b.fires[g] > a.fires[g] ==>
         g < |c.gates| && c.gates[g].enabled
         && (c.gates[g].needsAll ==> forall p :: 0 <= p < |c.gates[g].ins| ==> c.gates[g].ins[p].Some?)
  }

  // The token at t is the one that was there, or t's gate has fired and taken it.
  ghost predicate Stays<W, V>(a: Tokens<W, V>, b: Tokens<W, V>, t: Tap) {
    && (t in b.tok ==> t in a.tok && b.tok[t] == a.tok[t])
    && (t in a.tok && t !in b.tok ==> b.fires[t.gate] > a.fires[t.gate])
  }

  // v waits at t, or t's gate has fired since and taken it.
  ghost predicate Served<W, V>(a: Tokens<W, V>, b: Tokens<W, V>, t: Tap, v: V) {
    if t in b.tok then b.tok[t] == v else b.fires[t.gate] > a.fires[t.gate]
  }

  // A port of a source or of a wire of at least this height.
  ghost predicate High<W(!new), V>(c: Net<W, V>, h: W -> nat, t: Tap, bound: nat) {
    exists u :: IsTap(c, u, t) && (h(u) >= bound || Source(c, u))
  }

  ghost predicate HighStays<W(!new), V>(
    c: Net<W, V>, h: W -> nat, a: Tokens<W, V>, b: Tokens<W, V>, bound: nat, except: seq<Tap>)
  {
    FiresOn(c, a, b) && forall t :: High(c, h, t, bound) && t !in except ==> Stays(a, b, t)
  }

  lemma HighTrans<W(!new), V>(
    c: Net<W, V>, h: W -> nat, x: Tokens<W, V>, y: Tokens<W, V>, z: Tokens<W, V>, bound: nat, d: seq<Tap>, e: seq<Tap>)
    requires HighStays(c, h, x, y, bound, d) && HighStays(c, h, y, z, bound, e)
    requires forall t :: t in d ==> t in e
    ensures HighStays(c, h, x, z, bound, e)
  {
    forall g | z.fires[g] > x.fires[g] ensures y.fires[g] > x.fires[g] || z.fires[g] > y.fires[g] {}
  }

  /** A drive leaves its value at each port of its wire, in place of what was there, or the port's gate has taken it; the
      ports above keep their tokens unless their gate fires; and only enabled gates fire. */
  lemma {:induction false} DrivePorts<W(!new), V>(c: Net<W, V>, h: W -> nat, s: Tokens<W, V>, w: W, v: V)
    requires WellFormed(c, h)
    ensures var s' := Drive(c, h, s, w, v);
      HighStays(c, h, s, s', h(w), Taps(c, w)) && forall t :: IsTap(c, w, t) ==> Served(s, s', t, v)
    decreases h(w), 3, 0
  {
    var s1, s' := Push(s, w, v), Drive(c, h, s, w, v);
    NotifyPorts(c, h, s1, w, v, Taps(c, w));
    assert FiresOn(c, s1, s') && s1.tok == s.tok && s1.fires == s.fires;
    forall t | High(c, h, t, h(w)) && t !in Taps(c, w) ensures Stays(s, s', t) {
      assert Stays(s1, s', t);
    }
    forall t | IsTap(c, w, t) ensures Served(s, s', t, v) {
      assert Served(s1, s', t, v);
    }
  }

  lemma {:induction false} NotifyPorts<W(!new), V>(
    c: Net<W, V>, h: W -> nat, s: Tokens<W, V>, w: W, v: V, taps: seq<Tap>)
    requires WellFormed(c, h)
    requires forall i :: 0 <= i < |taps| ==> IsTap(c, w, taps[i])
    requires forall i, j :: 0 <= i < j < |taps| ==> taps[i] != taps[j]
    ensures var s' := Notify(c, h, s, w, v, taps);
      HighStays(c, h, s, s', h(w), taps) && forall t :: t in taps ==> Served(s, s', t, v)
    decreases h(w), 2, |taps|
  {
    if taps != [] {
      var t, rest := taps[0], taps[1..];
      assert Reads(c, t.gate, w);
      var s1 := Deliver(s, t, v);
      var s2 := Execute(c, h, s1, t.gate, h(w));
      ExecutePorts(c, h, s1, t.gate, h(w));
      NotifyPorts(c, h, s2, w, v, rest);
      NotifyPortsStep(c, h, s, s1, s2, Notify(c, h, s2, w, v, rest), w, v, taps);
    }
  }

  lemma NotifyPortsStep<W(!new), V>(
    c: Net<W, V>, h: W -> nat, s: Tokens<W, V>, s1: Tokens<W, V>, s2: Tokens<W, V>, s3: Tokens<W, V>, w: W, v: V,
    taps: seq<Tap>)
    requires taps != [] && s1 == Deliver(s, taps[0], v) && taps[0] !in taps[1..]
    requires forall i :: 0 <= i < |taps| ==> IsTap(c, w, taps[i])
    requires HighStays(c, h, s1, s2, h(w), []) && HighStays(c, h, s2, s3, h(w), taps[1..])
    requires forall t :: t in taps[1..] ==> Served(s2, s3, t, v)
    ensures HighStays(c, h, s, s3, h(w), taps) && forall t :: t in taps ==> Served(s, s3, t, v)
  {
    assert HighStays(c, h, s, s1, h(w), [taps[0]]);
    assert forall t :: t in taps <==> t == taps[0] || t in taps[1..];
    assert IsTap(c, w, taps[0]) && High(c, h, taps[0], h(w));
    assert Stays(s1, s2, taps[0]) && Stays(s2, s3, taps[0]);
    forall g | s3.fires[g] > s.fires[g] ensures s2.fires[g] > s1.fires[g] || s3.fires[g] > s2.fires[g] {}
  }

  lemma {:induction false} ExecutePorts<W(!new), V>(c: Net<W, V>, h: W -> nat, s: Tokens<W, V>, g: nat, bound: nat)
    requires WellFormed(c, h) && g < |c.gates|
    requires forall j, o :: Drives(c, g, j, o) ==> h(o) < bound
    ensures HighStays(c, h, s, Execute(c, h, s, g, bound), bound, [])
    decreases bound, 1, 0
  {
    if Full(c, g, s.tok) {
      var s1 := Fire(s, g);
      FirePorts(c, h, s, g, bound);
      EmitPorts(c, h, s1, g, bound, Held(c.gates[g].ins, g, 0, s.tok), 0);
      HighTrans(c, h, s, s1, Execute(c, h, s, g, bound), bound, [], []);
    }
  }

  lemma FirePorts<W(!new), V>(c: Net<W, V>, h: W -> nat, s: Tokens<W, V>, g: nat, bound: nat)
    requires Full(c, g, s.tok)
    ensures HighStays(c, h, s, Fire(s, g), bound, [])
  {
    forall p | 0 <= p < |c.gates[g].ins| && c.gates[g].needsAll ensures c.gates[g].ins[p].Some? {
      assert c.gates[g].ins[p] in c.gates[g].ins;
    }
  }

  lemma {:induction false} EmitPorts<W(!new), V>(
    c: Net<W, V>, h: W -> nat, s: Tokens<W, V>, g: nat, bound: nat, xs: seq<V>, j: nat)
    requires WellFormed(c, h) && g < |c.gates|
    requires forall j, o :: Drives(c, g, j, o) ==> h(o) < bound
    ensures HighStays(c, h, s, Emit(c, h, s, g, bound, xs, j), bound, [])
    decreases bound, 0, |c.gates[g].outs| - j
  {
    if j < |c.gates[g].outs| {
      var port, out, s1 := c.gates[g].outs[j], Out(c.gates[g], xs, j), Put(c, h, s, g, bound, xs, j);
      if port.Some? && out.Some? {
        assert Drives(c, g, j, port.value);
        DrivePorts(c, h, s, port.value, out.value);
        LowerDrive(c, h, s, s1, g, j, port.value, bound);
      }
      EmitPorts(c, h, s1, g, bound, xs, j + 1);
      HighTrans(c, h, s, s1, Emit(c, h, s1, g, bound, xs, j + 1), bound, [], []);
    }
  }

  // A drive of a lower wire does not serve the ports above.
  lemma LowerDrive<W(!new), V>(
    c: Net<W, V>, h: W -> nat, s: Tokens<W, V>, s': Tokens<W, V>, g: nat, j: nat, o: W, bound: nat)
    requires Agrees(c) && Drives(c, g, j, o) && h(o) < bound && HighStays(c, h, s, s', h(o), Taps(c, o))
    ensures HighStays(c, h, s, s', bound, [])
  {
    forall t | High(c, h, t, bound) ensures Stays(s, s', t) {
      assert t in Taps(c, o) ==> IsTap(c, o, t);
      var u :| IsTap(c, u, t) && (h(u) >= bound || Source(c, u));
      assert High(c, h, t, h(o)) && u != o;
    }
  }

  // ----- no gate is left that could fire

  // The gate is enabled, has the ports it wants, at least one wired, and a token at each wired port.
  ghost predicate Loaded<W, V>(c: Net<W, V>, g: nat, tok: map<Tap, V>) {
    && g < |c.gates| && c.gates[g].enabled
    && (c.gates[g].needsAll ==> forall p :: 0 <= p < |c.gates[g].ins| ==> c.gates[g].ins[p].Some?)
    && (exists p :: 0 <= p < |c.gates[g].ins| && c.gates[g].ins[p].Some?)
    && forall p :: 0 <= p < |c.gates[g].ins| && c.gates[g].ins[p].Some? ==> Tap(g, p) in tok
  }

  ghost predicate NoneLoaded<W, V>(c: Net<W, V>, tok: map<Tap, V>, except: nat) {
    forall g :: g != except ==> !Loaded(c, g, tok)
  }

  lemma {:induction false} FullIs<W, V>(c: Net<W, V>, g: nat, tok: map<Tap, V>)
    ensures Full(c, g, tok) <==> Loaded(c, g, tok)
  {
    if g < |c.gates| {
      WiredNone(c.gates[g].ins);
      if Full(c, g, tok) && c.gates[g].needsAll {
        forall p | 0 <= p < |c.gates[g].ins| ensures c.gates[g].ins[p].Some? { assert c.gates[g].ins[p] in c.gates[g].ins; }
      }
      if Loaded(c, g, tok) {
        assert forall p :: 0 <= p < |c.gates[g].ins| && c.gates[g].ins[p] == None ==> !c.gates[g].needsAll;
      }
    }
  }

  /** When no gate could fire before a drive, none could after it: every gate whose last missing token arrives fires. */
  lemma {:induction false} DriveUnloads<W(!new), V>(c: Net<W, V>, h: W -> nat, s: Tokens<W, V>, w: W, v: V)
    requires WellFormed(c, h) && NoneLoaded(c, s.tok, |c.gates|)
    ensures NoneLoaded(c, Drive(c, h, s, w, v).tok, |c.gates|)
    decreases h(w), 3, 0
  {
    NotifyUnloads(c, h, Push(s, w, v), w, v, Taps(c, w));
  }

  lemma {:induction false} NotifyUnloads<W(!new), V>(
    c: Net<W, V>, h: W -> nat, s: Tokens<W, V>, w: W, v: V, taps: seq<Tap>)
    requires WellFormed(c, h) && NoneLoaded(c, s.tok, |c.gates|)
    requires forall i :: 0 <= i < |taps| ==> IsTap(c, w, taps[i])
    ensures NoneLoaded(c, Notify(c, h, s, w, v, taps).tok, |c.gates|)
    decreases h(w), 2, |taps|
  {
    if taps != [] {
      assert Reads(c, taps[0].gate, w);
      var s1 := Deliver(s, taps[0], v);
      forall g: nat | g != taps[0].gate ensures !Loaded(c, g, s1.tok) {
        assert Loaded(c, g, s1.tok) ==> Loaded(c, g, s.tok);
      }
      ExecuteUnloads(c, h, s1, taps[0].gate, h(w));
      NotifyUnloads(c, h, Execute(c, h, s1, taps[0].gate, h(w)), w, v, taps[1..]);
    }
  }

  lemma {:induction false} ExecuteUnloads<W(!new), V>(c: Net<W, V>, h: W -> nat, s: Tokens<W, V>, g: nat, bound: nat)
    requires WellFormed(c, h) && g < |c.gates| && NoneLoaded(c, s.tok, g)
    requires forall j, o :: Drives(c, g, j, o) ==> h(o) < bound
    ensures NoneLoaded(c, Execute(c, h, s, g, bound).tok, |c.gates|)
    decreases bound, 1, 0
  {
    FullIs(c, g, s.tok);
    if Full(c, g, s.tok) {
      var s1 := Fire(s, g);
      var p: nat :| p < |c.gates[g].ins| && c.gates[g].ins[p].Some?;
      assert Tap(g, p) !in s1.tok;
      forall x: nat ensures !Loaded(c, x, s1.tok) {
        assert x != g && Loaded(c, x, s1.tok) ==> Loaded(c, x, s.tok);
      }
      EmitUnloads(c, h, s1, g, bound, Held(c.gates[g].ins, g, 0, s.tok), 0);
    }
  }

  lemma {:induction false} EmitUnloads<W(!new), V>(
    c: Net<W, V>, h: W -> nat, s: Tokens<W, V>, g: nat, bound: nat, xs: seq<V>, j: nat)
    requires WellFormed(c, h) && g < |c.gates| && NoneLoaded(c, s.tok, |c.gates|)
    requires forall j, o :: Drives(c, g, j, o) ==> h(o) < bound
    ensures NoneLoaded(c, Emit(c, h, s, g, bound, xs, j).tok, |c.gates|)
    decreases bound, 0, |c.gates[g].outs| - j
  {
    if j < |c.gates[g].outs| {
      var port, out := c.gates[g].outs[j], Out(c.gates[g], xs, j);
      if port.Some? && out.Some? {
        assert Drives(c, g, j, port.value);
        DriveUnloads(c, h, s, port.value, out.value);
      }
      EmitUnloads(c, h, Put(c, h, s, g, bound, xs, j), g, bound, xs, j + 1);
    }
  }
}
