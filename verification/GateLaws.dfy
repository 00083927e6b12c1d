/** What a gate reads and what it puts on its output ports, port by port: the laws that the functions of `Circuit`
    obey, stated on the fields of the gate. */
module GateLaws {
  import opened Circuit
  import opened Options

  // The number of wired ports before p.
  function Rank<W>(ins: seq<Option<W>>, p: nat): (n: nat)
    requires p <= |ins|
  {
    if p == 0 then 0 else Rank(ins, p - 1) + if ins[p - 1].Some? then 1 else 0
  }

  // All inputs the gate wants are there.
  ghost predicate Complete<W, V>(g: Gate<W, V>, val: map<W, V>) {
    && (g.needsAll ==> forall p :: 0 <= p < |g.ins| ==> g.ins[p].Some?)
    && forall p :: 0 <= p < |g.ins| && g.ins[p].Some? ==> g.ins[p].value in val
  }

  // xs are the values at the wired ports, in port order.
  ghost predicate Reading<W, V>(g: Gate<W, V>, val: map<W, V>, xs: seq<V>) {
    && |xs| == Rank(g.ins, |g.ins|)
    && forall p :: 0 <= p < |g.ins| && g.ins[p].Some? ==>
         Rank(g.ins, p) < |xs| && g.ins[p].value in val && xs[Rank(g.ins, p)] == val[g.ins[p].value]
  }

  // When it reads xs the gate hands v to output port j: a value it creates, a constant, or one of its inputs.
  predicate Hands<W(==), V(==)>(g: Gate<W, V>, xs: seq<V>, j: nat, v: V) {
    j < |g.f(xs)| &&
    match g.f(xs)[j]
    case Nothing => false
    case Fresh(x) => x == v
    case Constant(x) => x == v
    case Pass(i) => i < |xs| && xs[i] == v
  }

  // The wire at port j takes v.
  predicate Fits<W(==), V>(g: Gate<W, V>, j: nat, v: V) {
    match g.guard
    case None => true
    case Some(p) => p(j, v)
  }

  // Each driver of o is disabled, or hands nothing to its port on o, whatever it reads.
  ghost predicate Silenced<W(!new), V(!new)>(c: Net<W, V>, o: W) {
    forall g: nat, j: nat :: Drives(c, g, j, o) ==>
      !c.gates[g].enabled || forall xs :: j < |c.gates[g].f(xs)| ==> c.gates[g].f(xs)[j] == Nothing
  }

  lemma {:induction false} RankIs<W>(ins: seq<Option<W>>, p: nat)
    requires p <= |ins|
    ensures Rank(ins, p) == |Wired(ins[..p])|
    decreases p
  {
    if p > 0 {
      RankIs(ins, p - 1);
      assert ins[..p] == ins[..p - 1] + [ins[p - 1]];
      WiredSnoc(ins[..p - 1], ins[p - 1]);
    }
  }

  lemma {:induction false} WiredAt<W>(ins: seq<Option<W>>, p: nat)
    requires p < |ins| && ins[p].Some?
    ensures Rank(ins, p) < |Wired(ins)| && Wired(ins)[Rank(ins, p)] == ins[p].value
  {
    RankIs(ins, p);
    assert ins == ins[..p] + ins[p..];
    WiredConcat(ins[..p], ins[p..]);
  }

  lemma {:induction false} WiredConcat<W>(a: seq<Option<W>>, b: seq<Option<W>>)
    ensures Wired(a + b) == Wired(a) + Wired(b)
    decreases |a|
  {
    if a == [] {
      assert a + b == b;
    } else {
      assert (a + b)[1..] == a[1..] + b;
      WiredConcat(a[1..], b);
    }
  }

  // Each place in the list of wired inputs is the place of a port.
  lemma {:induction false} PortAt<W>(ins: seq<Option<W>>, n: nat, k: nat) returns (p: nat)
    requires n <= |ins| && k < Rank(ins, n)
    ensures p < n && ins[p].Some? && Rank(ins, p) == k
    decreases n
  {
    if k < Rank(ins, n - 1) { p := PortAt(ins, n - 1, k); } else { p := n - 1; }
  }

  /** A gate is ready exactly when all inputs it wants are there. */
  lemma {:induction false} ReadyIs<W, V>(g: Gate<W, V>, val: map<W, V>)
    ensures Ready(g, val) <==> Complete(g, val)
  {
    RankIs(g.ins, |g.ins|);
    assert g.ins[..|g.ins|] == g.ins;
    forall p: nat | p < |g.ins| && g.ins[p].Some? ensures g.ins[p].value in Wired(g.ins) { WiredAt(g.ins, p); }
    if Complete(g, val) {
      forall w | w in Wired(g.ins) ensures w in val {
        var k: nat :| k < |Wired(g.ins)| && Wired(g.ins)[k] == w;
        var p := PortAt(g.ins, |g.ins|, k);
        WiredAt(g.ins, p);
      }
      assert forall p :: 0 <= p < |g.ins| && g.ins[p] == None ==> !g.needsAll;
    }
    if Ready(g, val) && g.needsAll {
      forall p | 0 <= p < |g.ins| ensures g.ins[p].Some? { assert g.ins[p] in g.ins; }
    }
  }

  /** What it then reads is the values at its wired ports, in port order, and nothing else. */
  lemma {:induction false} InputsAre<W, V>(g: Gate<W, V>, val: map<W, V>, xs: seq<V>)
    requires Ready(g, val)
    ensures Reading(g, val, xs) <==> xs == Inputs(g, val)
  {
    var ins := g.ins;
    RankIs(ins, |ins|);
    assert ins[..|ins|] == ins;
    forall p: nat | p < |ins| && ins[p].Some?
      ensures Rank(ins, p) < |Wired(ins)| && Wired(ins)[Rank(ins, p)] == ins[p].value && ins[p].value in val
    {
      WiredAt(ins, p);
      assert ins[p].value in Wired(ins);
    }
    if Reading(g, val, xs) {
      forall k: nat | k < |xs| ensures xs[k] == Inputs(g, val)[k] {
        var p := PortAt(ins, |ins|, k);
      }
    }
  }

  /** A gate drives port j with v exactly when it hands v to the port and the wire takes v. */
  lemma OutIs<W, V>(g: Gate<W, V>, xs: seq<V>, j: nat, v: V)
    ensures Out(g, xs, j) == Some(v) <==> Hands(g, xs, j, v) && Fits(g, j, v)
  {
  }

  // With the values val, an enabled gate g makes v for wire o at its port j.
  ghost predicate Makes<W(!new), V(!new)>(c: Net<W, V>, val: map<W, V>, g: nat, j: nat, o: W, v: V) {
    && g < |c.gates| && j < |c.gates[g].outs| && c.gates[g].outs[j] == Some(o)
    && c.gates[g].enabled && Complete(c.gates[g], val) && Fits(c.gates[g], j, v)
    && exists xs :: Reading(c.gates[g], val, xs) && Hands(c.gates[g], xs, j, v)
  }

  lemma {:induction false} MakesIs<W(!new), V(!new)>(c: Net<W, V>, val: map<W, V>, g: nat, j: nat, o: W, v: V)
    requires g < |c.gates| && j < |c.gates[g].outs| && c.gates[g].outs[j] == Some(o)
    ensures Makes(c, val, g, j, o, v) <==>
      c.gates[g].enabled && Ready(c.gates[g], val) && Out(c.gates[g], Inputs(c.gates[g], val), j) == Some(v)
  {
    var gate := c.gates[g];
    ReadyIs(gate, val);
    if Ready(gate, val) {
      OutIs(gate, Inputs(gate, val), j, v);
      InputsAre(gate, val, Inputs(gate, val));
      forall xs | Reading(gate, val, xs) ensures xs == Inputs(gate, val) { InputsAre(gate, val, xs); }
    }
  }
}
