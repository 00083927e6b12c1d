/** What the logic gates show in a settled circuit, in terms of the wires at their ports. */
module BoolCircuits {
  import opened BoolGates
  import opened Circuit
  import opened DirectLaws
  import opened DirectWires
  import opened GateLaws
  import opened Options

  // Gate g is a logic gate that drives o, and its wired inputs, one at least, all hold values.
  ghost predicate Decides<W(!new)>(
    c: Net<W, bool>, val: map<W, bool>, g: nat, o: W, logic: seq<bool> -> Option<bool>)
  {
    && g < |c.gates| && c.gates[g].outs == [Some(o)] && c.gates[g].enabled && c.gates[g].guard.None?
    && (forall xs :: c.gates[g].f(xs) == Outs(logic(xs)))
    && Complete(c.gates[g], val) && exists p :: 0 <= p < |c.gates[g].ins| && c.gates[g].ins[p].Some?
  }

  // Some wired input of g holds b.
  ghost predicate SomeInput<W>(c: Net<W, bool>, val: map<W, bool>, g: nat, b: bool)
    requires g < |c.gates| && Complete(c.gates[g], val)
  {
    var ins := c.gates[g].ins;
    exists p :: 0 <= p < |ins| && ins[p].Some? && val[ins[p].value] == b
  }

  lemma {:induction false} InputsHold<W(!new)>(c: Net<W, bool>, val: map<W, bool>, g: nat, b: bool)
    requires g < |c.gates| && Ready(c.gates[g], val) && Complete(c.gates[g], val)
    ensures b in Inputs(c.gates[g], val) <==> SomeInput(c, val, g, b)
  {
    var ins, xs := c.gates[g].ins, Inputs(c.gates[g], val);
    InputsAre(c.gates[g], val, xs);
    if b in xs {
      var k: nat :| k < |xs| && xs[k] == b;
      var p := PortAt(ins, |ins|, k);
      assert val[ins[p].value] == b;
    }
    if SomeInput(c, val, g, b) {
      var p: nat :| p < |ins| && ins[p].Some? && val[ins[p].value] == b;
      assert xs[Rank(ins, p)] == b;
    }
  }

  // The gate shows what its logic makes of its inputs.
  lemma {:induction false} ShowsLogic<W(!new)>(
    c: Net<W, bool>, val: map<W, bool>, g: nat, o: W, logic: seq<bool> -> Option<bool>)
    requires Settled(c, val) && Decides(c, val, g, o, logic)
    ensures Ready(c.gates[g], val) && Inputs(c.gates[g], val) != []
    ensures var r := logic(Inputs(c.gates[g], val)); r.Some? ==> o in val && val[o] == r.value
  {
    var gate := c.gates[g];
    ReadyIs(gate, val);
    var xs := Inputs(gate, val);
    InputsAre(gate, val, xs);
    var p: nat :| p < |gate.ins| && gate.ins[p].Some?;
    assert Rank(gate.ins, p) < |xs|;
    if logic(xs).Some? { SettledShows(c, val, g, 0, o, xs, logic(xs).value); }
  }

  /** A nand gate shows whether some input is false. */
  lemma NandShows<W(!new)>(c: Net<W, bool>, val: map<W, bool>, g: nat, o: W)
    requires Settled(c, val) && Decides(c, val, g, o, Nand)
    ensures o in val && (val[o] <==> SomeInput(c, val, g, false))
  {
    ShowsLogic(c, val, g, o, Nand);
    InputsHold(c, val, g, false);
  }

  /** A nor gate, and the gate called "and", shows whether no input is true. */
  lemma NorShows<W(!new)>(c: Net<W, bool>, val: map<W, bool>, g: nat, o: W)
    requires Settled(c, val) && Decides(c, val, g, o, Nor)
    ensures o in val && (val[o] <==> !SomeInput(c, val, g, true))
  {
    ShowsLogic(c, val, g, o, Nor);
    InputsHold(c, val, g, true);
  }

  /** An or gate shows whether some input is true. */
  lemma OrShows<W(!new)>(c: Net<W, bool>, val: map<W, bool>, g: nat, o: W)
    requires Settled(c, val) && Decides(c, val, g, o, Or)
    ensures o in val && (val[o] <==> SomeInput(c, val, g, true))
  {
    ShowsLogic(c, val, g, o, Or);
    InputsHold(c, val, g, true);
  }

  /** A not gate shows the opposite of its first wired input. */
  lemma {:induction false} NotShows<W(!new)>(c: Net<W, bool>, val: map<W, bool>, g: nat, o: W, p: nat)
    requires Settled(c, val) && Decides(c, val, g, o, Not)
    requires p < |c.gates[g].ins| && c.gates[g].ins[p].Some? && forall q :: 0 <= q < p ==> c.gates[g].ins[q].None?
    ensures o in val && val[o] == !val[c.gates[g].ins[p].value]
  {
    ShowsLogic(c, val, g, o, Not);
    InputsAre(c.gates[g], val, Inputs(c.gates[g], val));
    NoneBefore(c.gates[g].ins, p);
  }

  lemma {:induction false} NoneBefore<W>(ins: seq<Option<W>>, p: nat)
    requires p <= |ins| && forall q :: 0 <= q < p ==> ins[q].None?
    ensures Rank(ins, p) == 0
    decreases p
  {
    if p > 0 { NoneBefore(ins, p - 1); }
  }

  // p and q are wired ports with no wired port between them.
  predicate Neighbours<W>(ins: seq<Option<W>>, p: nat, q: nat) {
    p < q < |ins| && ins[p].Some? && ins[q].Some? && forall k :: p < k < q ==> ins[k].None?
  }

  lemma {:induction false} NeighboursRank<W>(ins: seq<Option<W>>, p: nat, q: nat)
    requires p < q < |ins| && ins[p].Some? && ins[q].Some?
    ensures Rank(ins, q) >= Rank(ins, p) + 1
    ensures Neighbours(ins, p, q) <==> Rank(ins, q) == Rank(ins, p) + 1
    decreases q
  {
    var k: nat := q;
    while k > p + 1
      invariant p < k <= q
      invariant Rank(ins, q) >= Rank(ins, k)
      invariant Rank(ins, q) == Rank(ins, k) <==> forall i :: k <= i < q ==> ins[i].None?
    {
      k := k - 1;
    }
  }

  // The values at p and q differ, for all neighbours.
  ghost predicate NeighboursDiffer<W(!new)>(ins: seq<Option<W>>, val: map<W, bool>)
    requires forall p :: 0 <= p < |ins| && ins[p].Some? ==> ins[p].value in val
  {
    forall p: nat, q: nat :: Neighbours(ins, p, q) ==> val[ins[p].value] != val[ins[q].value]
  }

  lemma {:induction false} NeighboursAlternate<W(!new)>(g: Gate<W, bool>, val: map<W, bool>, xs: seq<bool>)
    requires Complete(g, val) && Reading(g, val, xs)
    ensures Alternates(xs) <==> NeighboursDiffer(g.ins, val)
  {
    var ins := g.ins;
    if Alternates(xs) {
      forall p: nat, q: nat | Neighbours(ins, p, q) ensures val[ins[p].value] != val[ins[q].value] {
        NeighboursRank(ins, p, q);
        assert xs[Rank(ins, q)] != xs[Rank(ins, q) - 1];
      }
    } else {
      var k: nat :| 0 < k < |xs| && xs[k] == xs[k - 1];
      var p, q := NeighboursAt(ins, k);
      assert val[ins[p].value] == xs[k - 1] && val[ins[q].value] == xs[k];
    }
  }

  // The wired ports that are read at places k - 1 and k.
  lemma {:induction false} NeighboursAt<W>(ins: seq<Option<W>>, k: nat) returns (p: nat, q: nat)
    requires 0 < k < Rank(ins, |ins|)
    ensures Neighbours(ins, p, q) && Rank(ins, p) == k - 1 && Rank(ins, q) == k
  {
    p := PortAt(ins, |ins|, k - 1);
    q := PortAt(ins, |ins|, k);
    if q < p { NeighboursRank(ins, q, p); }
    NeighboursRank(ins, p, q);
  }

  /** An xor gate with two wired inputs or more shows whether any two neighbours differ. */
  lemma {:induction false} XorShows<W(!new)>(c: Net<W, bool>, val: map<W, bool>, g: nat, o: W, i: nat, j: nat)
    requires Settled(c, val) && Decides(c, val, g, o, Xor)
    requires i < j < |c.gates[g].ins| && c.gates[g].ins[i].Some? && c.gates[g].ins[j].Some?
    ensures o in val && (val[o] <==> NeighboursDiffer(c.gates[g].ins, val))
  {
    ShowsLogic(c, val, g, o, Xor);
    var xs := Inputs(c.gates[g], val);
    InputsAre(c.gates[g], val, xs);
    NeighboursAlternate(c.gates[g], val, xs);
    NeighboursRank(c.gates[g].ins, i, j);
    assert Rank(c.gates[g].ins, j) < |xs|;
  }

  /** One with a single wired input never drives its output, whatever is driven elsewhere. */
  lemma {:induction false} XorAlone<W(!new)>(
    c: Net<W, bool>, h: W -> nat, st: Signals<W, bool>, w: W, v: bool, g: nat, o: W, p: nat)
    requires WellFormed(c, h) && o != w && g < |c.gates| && c.gates[g].outs == [Some(o)]
    requires forall xs :: c.gates[g].f(xs) == Outs(Xor(xs))
    requires p < |c.gates[g].ins| && forall q :: 0 <= q < |c.gates[g].ins| && q != p ==> c.gates[g].ins[q].None?
    ensures var st' := Drive(c, h, st, w, v);
      Same(st.val, st'.val, o) && forall i :: |st.log| <= i < |st'.log| ==> st'.log[i].0 != o
  {
    AtMostOne(c.gates[g].ins, p, |c.gates[g].ins|);
    forall val, x ensures !Justified(c, val, o, x) {
      assert forall g', j :: Makes(c, val, g', j, o, x) ==> Drives(c, g', j, o);
      assert Drives(c, g, 0, o);
      assert forall xs :: Reading(c.gates[g], val, xs) ==> !Hands(c.gates[g], xs, 0, x);
    }
    UnmadeStays(c, h, st, w, v, o);
  }

  lemma {:induction false} AtMostOne<W>(ins: seq<Option<W>>, p: nat, n: nat)
    requires n <= |ins| && forall q :: 0 <= q < |ins| && q != p ==> ins[q].None?
    ensures Rank(ins, n) <= if p < n then 1 else 0
    decreases n
  {
    if n > 0 { AtMostOne(ins, p, n - 1); }
  }
}
