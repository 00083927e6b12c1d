/** A circuit of token wires in memory: the token slots of the gate ports point at reference-counted values
    and are updated in place. */
module TokenBoard {
  import opened Circuit
  import opened Options
  import opened ReferenceCounts
  import T = TokenWires

  lemma {:induction false} HeldSnoc<W, V>(ins: seq<Option<W>>, x: Option<W>, g: nat, p: nat, tok: map<Tap, V>)
    requires forall i :: 0 <= i < |ins + [x]| && (ins + [x])[i].Some? ==> Tap(g, p + i) in tok
    ensures forall i :: 0 <= i < |ins| && ins[i].Some? ==> Tap(g, p + i) in tok
    ensures x.Some? ==> Tap(g, p + |ins|) in tok
    ensures T.Held(ins + [x], g, p, tok) ==
            T.Held(ins, g, p, tok) + (if x.Some? then [tok[Tap(g, p + |ins|)]] else [])
    decreases |ins|
  {
    forall i | 0 <= i < |ins| && ins[i].Some? ensures Tap(g, p + i) in tok {
      assert (ins + [x])[i] == ins[i];
    }
    assert (ins + [x])[|ins|] == x;
    if ins == [] {
      assert ins + [x] == [x] && [x][0].Some? ==> Tap(g, p + 0) in tok;
    } else {
      assert (ins + [x])[1..] == ins[1..] + [x];
      forall i | 0 <= i < |ins[1..] + [x]| && (ins[1..] + [x])[i].Some? ensures Tap(g, p + 1 + i) in tok {
        assert (ins[1..] + [x])[i] == (ins + [x])[i + 1] && p + 1 + i == p + (i + 1);
      }
      HeldSnoc(ins[1..], x, g, p + 1, tok);
    }
  }

  lemma {:induction false} HeldNext<W, V>(ins: seq<Option<W>>, p: nat, g: nat, slot: map<Tap, V>)
    requires p < |ins| && forall q :: 0 <= q <= p && ins[q].Some? ==> Tap(g, 0 + q) in slot
    ensures T.Held(ins[..p + 1], g, 0, slot) ==
            T.Held(ins[..p], g, 0, slot) + (if ins[p].Some? then [slot[Tap(g, 0 + p)]] else [])
    ensures Wired(ins[..p + 1]) == Wired(ins[..p]) + Wired([ins[p]])
  {
    assert ins[..p + 1] == ins[..p] + [ins[p]];
    forall q | 0 <= q < |ins[..p] + [ins[p]]| && (ins[..p] + [ins[p]])[q].Some? ensures Tap(g, 0 + q) in slot {
      assert (ins[..p] + [ins[p]])[q] == ins[q];
    }
    HeldSnoc(ins[..p], ins[p], g, 0, slot);
    WiredSnoc(ins[..p], ins[p]);
  }

  // Every gate copies the values of its tokens before it absorbs them, as the logic gates do: none is a
  // functional wrapper, and none hands a token's value on.
  ghost predicate CopyFirst<W(!new), V(!new)>(c: Net<W, V>) {
    && (forall g :: 0 <= g < |c.gates| ==> !c.gates[g].needsAll)
    && (forall g, xs, j :: 0 <= g < |c.gates| && 0 <= j < |c.gates[g].f(xs)| ==> !c.gates[g].f(xs)[j].Pass?)
  }

  // What the gates may do when the values of waiting tokens are lent, and when they need not be.
  ghost predicate Served<W(!new), V(!new)>(c: Net<W, V>, absorbs: nat -> bool, lent: bool) {
    if lent then CreateNone(c) else CopyFirst(c) && forall g :: !absorbs(g)
  }

  // No gate creates a value: each hands on values of its tokens or drives with constants, as the sorter box does.
  ghost predicate CreateNone<W(!new), V(!new)>(c: Net<W, V>) {
    forall g, xs, j :: 0 <= g < |c.gates| && 0 <= j < |c.gates[g].f(xs)| ==> !c.gates[g].f(xs)[j].Fresh?
  }

  // Somebody besides the slots holds the value.
  predicate Lent<V>(r: Ref<V>, outside: multiset<nat>) {
    r.Counted? ==> r.id in outside
  }

  ghost predicate AllLent<V>(slot: map<Tap, Ref<V>>, outside: multiset<nat>) {
    forall t :: t in slot ==> Lent(slot[t], outside)
  }

  // The values of refs.
  ghost predicate Backed<V>(refs: seq<Ref<V>>, xs: seq<V>, cells: map<nat, Cell<V>>) {
    |refs| == |xs| && forall i :: 0 <= i < |xs| ==> Live(refs[i], cells) && Value(refs[i], cells) == xs[i]
  }

  ghost predicate AllLentRefs<V>(refs: seq<Ref<V>>, outside: multiset<nat>) {
    forall i :: 0 <= i < |refs| ==> Lent(refs[i], outside)
  }

  lemma {:induction false} HeldRefs<W, V>(
    ins: seq<Option<W>>, g: nat, p: nat, slot: map<Tap, Ref<V>>, cells: map<nat, Cell<V>>, outside: multiset<nat>)
    requires forall i :: 0 <= i < |ins| && ins[i].Some? ==> Tap(g, p + i) in slot
    requires AllLive(slot, cells)
    ensures Backed(T.Held(ins, g, p, slot), T.Held(ins, g, p, Values(slot, cells)), cells)
    ensures AllLent(slot, outside) ==> AllLentRefs(T.Held(ins, g, p, slot), outside)
    decreases |ins|
  {
    if ins != [] {
      assert ins[0].Some? ==> Tap(g, p + 0) in slot;
      forall i | 0 <= i < |ins[1..]| && ins[1..][i].Some? ensures Tap(g, p + 1 + i) in slot {
        assert ins[1..][i] == ins[i + 1] && p + 1 + i == p + (i + 1);
      }
      HeldRefs(ins[1..], g, p + 1, slot, cells, outside);
    }
  }

  lemma SameBacked<V>(refs: seq<Ref<V>>, xs: seq<V>, ys: seq<V>, cells: map<nat, Cell<V>>)
    requires Backed(refs, xs, cells) && Backed(refs, ys, cells)
    ensures xs == ys
  {
  }

  // Values with outside references are still there.
  lemma StillBacked<V>(
    refs: seq<Ref<V>>, xs: seq<V>, outside: multiset<nat>, a: map<nat, Cell<V>>, b: map<nat, Cell<V>>)
    requires Backed(refs, xs, a) && AllLentRefs(refs, outside) && Kept(outside, a, b)
    ensures Backed(refs, xs, b)
  {
    forall i | 0 <= i < |xs| ensures Live(refs[i], b) && Value(refs[i], b) == xs[i] {
      HeldValue(outside, a, b, refs[i]);
    }
  }

  // The tokens without those at the first p ports of gate g.
  ghost function Without<V>(tok: map<Tap, V>, g: nat, p: nat): map<Tap, V> {
    map t | t in tok && !(t.gate == g && t.port < p) :: tok[t]
  }

  lemma WithoutNext<V>(tok: map<Tap, V>, g: nat, p: nat)
    ensures Without(tok, g, p + 1) == Without(tok, g, p) - {Tap(g, p)}
  {
    forall t | t in Without(tok, g, p) ensures t == Tap(g, p) <==> t !in Without(tok, g, p + 1) {
      assert t == Tap(t.gate, t.port);
    }
  }

  lemma WithoutAll<V>(tok: map<Tap, V>, g: nat, n: nat)
    requires forall t :: t in tok && t.gate == g ==> t.port < n
    ensures Without(tok, g, n) == map t | t in tok && t.gate != g :: tok[t]
  {
  }

  // A value with an outside reference stays as it is.
  lemma HeldValue<V>(outside: multiset<nat>, a: map<nat, Cell<V>>, b: map<nat, Cell<V>>, r: Ref<V>)
    requires Kept(outside, a, b) && Lent(r, outside)
    ensures Live(r, a) && Live(r, b) && Value(r, a) == Value(r, b)
  {
  }

  lemma KeptTrans<V>(outside: multiset<nat>, a: map<nat, Cell<V>>, b: map<nat, Cell<V>>, c: map<nat, Cell<V>>)
    requires Kept(outside, a, b) && Kept(outside, b, c)
    ensures Kept(outside, a, c)
  {
  }

  // All or nothing: a gate takes its tokens only when every wired port holds one.
  method Look<W(==), V(==)>(net: Net<W, V>, g: nat, mem: Memory<Tap, V>) returns (complete: bool, refs: seq<Ref<V>>)
    requires mem.Valid() && g < |net.gates| && net.gates[g].enabled
    ensures complete <==> T.Full(net, g, mem.Now())
    ensures complete ==> refs == T.Held(net.gates[g].ins, g, 0, mem.slot)
  {
    var ins := net.gates[g].ins;
    refs := [];
    for p := 0 to |ins|
      invariant forall q :: 0 <= q < p ==> (ins[q].Some? ==> Tap(g, 0 + q) in mem.slot)
      invariant net.gates[g].needsAll ==> None !in ins[..p]
      invariant refs == T.Held(ins[..p], g, 0, mem.slot) && (refs == [] <==> Wired(ins[..p]) == [])
    {
      if ins[p].Some? && Tap(g, p) !in mem.slot {
        return false, [];
      }
      if ins[p].None? && net.gates[g].needsAll {
        assert None in ins;
        return false, [];
      }
      assert ins[p].Some? ==> Tap(g, 0 + p) in mem.slot;
      HeldNext(ins, p, g, mem.slot);
      if ins[p].Some? {
        refs := refs + [mem.slot[Tap(g, p)]];
      }
    }
    assert ins[..|ins|] == ins;
    complete := refs != [];
  }

  // The tokens of the other gates.
  ghost function OtherGates<V>(m: map<Tap, V>, g: nat): map<Tap, V> {
    map t | t in m && t.gate != g :: m[t]
  }

  // Only wired ports hold tokens.
  ghost predicate TapsOk<W(!new), V, X>(c: Net<W, V>, slot: map<Tap, X>) {
    forall t :: t in slot ==>
      t.gate < |c.gates| && t.port < |c.gates[t.gate].ins| && c.gates[t.gate].ins[t.port].Some?
  }

  // Gate g takes its tokens, one port after the other.
  method Absorb<W(!new), V(==)>(net: Net<W, V>, g: nat, mem: Memory<Tap, V>)
    requires mem.Valid() && g < |net.gates| && TapsOk(net, mem.slot)
    modifies mem`slot, mem`cells
    ensures mem.Valid() && mem.slot == OtherGates(old(mem.slot), g) && mem.Now() == OtherGates(old(mem.Now()), g)
    ensures Kept(mem.outside, old(mem.cells), mem.cells) && NoneNew(old(mem.cells), mem.cells)
  {
    ghost var slot, tok := mem.slot, mem.Now();
    assert slot == Without(slot, g, 0) && tok == Without(tok, g, 0);
    for p := 0 to |net.gates[g].ins|
      invariant mem.Valid() && Kept(mem.outside, old(mem.cells), mem.cells) && NoneNew(old(mem.cells), mem.cells)
      invariant mem.slot == Without(slot, g, p) && mem.Now() == Without(tok, g, p)
    {
      WithoutNext(slot, g, p);
      WithoutNext(tok, g, p);
      AbsorbPort(net, g, p, mem);
    }
    WithoutAll(slot, g, |net.gates[g].ins|);
    WithoutAll(tok, g, |net.gates[g].ins|);
  }

  method AbsorbPort<W(!new), V(==)>(net: Net<W, V>, g: nat, p: nat, mem: Memory<Tap, V>)
    requires mem.Valid() && g < |net.gates| && p < |net.gates[g].ins| && TapsOk(net, mem.slot)
    modifies mem`slot, mem`cells
    ensures mem.Valid() && mem.slot == old(mem.slot) - {Tap(g, p)} && mem.Now() == old(mem.Now()) - {Tap(g, p)}
    ensures Kept(mem.outside, old(mem.cells), mem.cells) && NoneNew(old(mem.cells), mem.cells)
  {
    if net.gates[g].ins[p].Some? {
      mem.Clear(Tap(g, p));
    } else {
      assert Tap(g, p) !in mem.slot && Tap(g, p) !in mem.Now();
    }
  }

  class Board<W(==,!new), V(==,!new)> {
    const net: Net<W, V>
    ghost const h: W -> nat
    const mem: Memory<Tap, V>
    // The gates that absorb their tokens before they read them; then every token's value is lent by a holder that
    // keeps it until the round has ended.
    const absorbs: nat -> bool
    ghost const lent: bool
    // What each wire was driven with, and the gates that fired.
    ghost var sent: map<W, seq<V>>
    ghost var fires: multiset<nat>

    ghost predicate Valid()
      reads this, mem
    {
      && WellFormed(net, h) && Served(net, absorbs, lent) && mem.Valid() && (lent ==> AllLent(mem.slot, mem.outside))
      && TapsOk(net, mem.slot)
    }

    ghost function Now(): T.Tokens<W, V>
      requires Valid()
      reads this, mem
    {
      T.Tokens(mem.Now(), sent, fires)
    }

    constructor (net: Net<W, V>, ghost h: W -> nat, absorbs: nat -> bool, ghost lent: bool)
      requires WellFormed(net, h) && Served(net, absorbs, lent)
      ensures Valid() && Now() == T.Tokens(map[], map[], multiset{}) && mem.outside == multiset{} && fresh(mem)
      ensures this.net == net && this.h == h && this.absorbs == absorbs && this.lent == lent
    {
      this.net, this.h, this.absorbs, this.lent := net, h, absorbs, lent;
      sent, fires := map[], multiset{};
      mem := new Memory();
    }

    // r is a constant, or the caller holds it.
    ghost predicate Holds(r: Ref<V>)
      reads mem
    {
      Lent(r, mem.outside)
    }

    /** Each port of the wire is given the value, and its gate notified, before the next port's turn.  The
        caller's reference keeps the value in memory when a gate that fires absorbs the token. */
    method Drive(w: W, r: Ref<V>)
      requires Valid() && Holds(r) && Live(r, mem.cells)
      modifies this, mem
      ensures Valid() && Now() == T.Drive(net, h, old(Now()), w, old(Value(r, mem.cells)))
      ensures mem.outside == old(mem.outside) && Kept(mem.outside, old(mem.cells), mem.cells)
      decreases h(w), 5
    {
      ghost var v := Value(r, mem.cells);
      sent := sent[w := T.Sent(Now(), w) + [v]];
      NotifyAll(w, r, v);
    }

    method NotifyAll(w: W, r: Ref<V>, ghost v: V)
      requires Valid() && Holds(r) && Live(r, mem.cells) && v == Value(r, mem.cells)
      modifies this, mem
      ensures Valid() && Now() == T.Notify(net, h, old(Now()), w, v, Taps(net, w))
      ensures mem.outside == old(mem.outside) && Kept(mem.outside, old(mem.cells), mem.cells)
      decreases h(w), 4
    {
      var taps := Taps(net, w);
      assert taps[0..] == taps;
      for i := 0 to |taps|
        invariant Valid() && mem.outside == old(mem.outside) && Kept(mem.outside, old(mem.cells), mem.cells)
        invariant T.Notify(net, h, Now(), w, v, taps[i..]) == T.Notify(net, h, old(Now()), w, v, taps)
      {
        ghost var s, cells := Now(), mem.cells;
        assert taps[i..][1..] == taps[i + 1..];
        assert IsTap(net, w, taps[i]) && Reads(net, taps[i].gate, w);
        HeldValue(mem.outside, old(mem.cells), cells, r);
        Deliver(taps[i], r, v, h(w));
        KeptTrans(mem.outside, old(mem.cells), cells, mem.cells);
        assert T.Notify(net, h, s, w, v, taps[i..]) == T.Notify(net, h, Now(), w, v, taps[i + 1..]);
      }
    }

    method Deliver(t: Tap, r: Ref<V>, ghost v: V, ghost bound: nat)
      requires Valid() && Holds(r) && Live(r, mem.cells) && v == Value(r, mem.cells)
      requires t.gate < |net.gates| && t.port < |net.gates[t.gate].ins| && net.gates[t.gate].ins[t.port].Some?
      requires forall j, o :: Drives(net, t.gate, j, o) ==> h(o) < bound
      modifies this, mem
      ensures Valid() && Now() == T.Execute(net, h, T.Deliver(old(Now()), t, v), t.gate, bound)
      ensures mem.outside == old(mem.outside) && Kept(mem.outside, old(mem.cells), mem.cells)
      decreases bound, 3
    {
      mem.Import(t, r);
      if net.gates[t.gate].enabled {
        Execute(t.gate, bound);
      }
    }

    method Execute(g: nat, ghost bound: nat)
      requires Valid() && g < |net.gates| && net.gates[g].enabled
      requires forall j, o :: Drives(net, g, j, o) ==> h(o) < bound
      modifies this, mem
      ensures Valid() && Now() == T.Execute(net, h, old(Now()), g, bound)
      ensures mem.outside == old(mem.outside) && Kept(mem.outside, old(mem.cells), mem.cells)
      decreases bound, 2
    {
      var complete, refs := Look(net, g, mem);
      if complete {
        HeldRefs(net.gates[g].ins, g, 0, mem.slot, mem.cells, mem.outside);
        ghost var tok, cells := Now().tok, mem.cells;
        var xs := Accept(g, refs);
        SameBacked(refs, xs, T.Held(net.gates[g].ins, g, 0, tok), cells);
        fires := fires + multiset{g};
        assert Now() == T.Fire(old(Now()), g);
        Spread(g, refs, xs, bound);
      }
    }

    // Takes the tokens and reads their values, in the gate's order.
    method Accept(g: nat, refs: seq<Ref<V>>) returns (xs: seq<V>)
      requires Valid() && g < |net.gates| && (lent ==> AllLentRefs(refs, mem.outside))
      requires forall i :: 0 <= i < |refs| ==> Live(refs[i], mem.cells)
      modifies mem`slot, mem`cells
      ensures Valid() && Now().tok == map t | t in old(Now().tok) && t.gate != g :: old(Now().tok)[t]
      ensures Kept(mem.outside, old(mem.cells), mem.cells)
      ensures old(Backed(refs, xs, mem.cells)) && (lent ==> Backed(refs, xs, mem.cells))
    {
      ghost var cells := mem.cells;
      if absorbs(g) {
        Absorb(net, g, mem);
        forall i | 0 <= i < |refs| ensures Live(refs[i], mem.cells) && Value(refs[i], mem.cells) == Value(refs[i], cells) {
          HeldValue(mem.outside, cells, mem.cells, refs[i]);
        }
        xs := ReadAll(refs);
      } else {
        xs := ReadAll(refs);
        Absorb(net, g, mem);
        if lent { StillBacked(refs, xs, mem.outside, cells, mem.cells); }
      }
    }

    method ReadAll(refs: seq<Ref<V>>) returns (xs: seq<V>)
      requires forall i :: 0 <= i < |refs| ==> Live(refs[i], mem.cells)
      ensures Backed(refs, xs, mem.cells)
    {
      xs := [];
      for i := 0 to |refs|
        invariant Backed(refs[..i], xs, mem.cells)
      {
        xs := xs + [Value(refs[i], mem.cells)];
      }
    }

    // Drives the output ports in order with what the gate makes of the values it has read.
    method Spread(g: nat, refs: seq<Ref<V>>, xs: seq<V>, ghost bound: nat)
      requires Valid() && g < |net.gates|
      requires forall j, o :: Drives(net, g, j, o) ==> h(o) < bound
      requires lent ==> Backed(refs, xs, mem.cells) && AllLentRefs(refs, mem.outside)
      modifies this, mem
      ensures Valid() && Now() == T.Emit(net, h, old(Now()), g, bound, xs, 0)
      ensures mem.outside == old(mem.outside) && Kept(mem.outside, old(mem.cells), mem.cells)
      decreases bound, 1
    {
      var os := net.gates[g].f(xs);
      for j := 0 to |net.gates[g].outs|
        invariant Valid() && mem.outside == old(mem.outside) && Kept(mem.outside, old(mem.cells), mem.cells)
        invariant T.Emit(net, h, Now(), g, bound, xs, j) == T.Emit(net, h, old(Now()), g, bound, xs, 0)
      {
        if lent { StillBacked(refs, xs, mem.outside, old(mem.cells), mem.cells); }
        PutOut(g, refs, xs, j, if j < |os| then os[j] else Nothing, bound);
      }
    }

    // A token's value handed on, a constant, or a value created for the port and given back after it was driven.
    method PutOut(g: nat, refs: seq<Ref<V>>, xs: seq<V>, j: nat, o: Output<V>, ghost bound: nat)
      requires Valid() && g < |net.gates| && j < |net.gates[g].outs|
      requires var os := net.gates[g].f(xs); o == if j < |os| then os[j] else Nothing
      requires forall j, o :: Drives(net, g, j, o) ==> h(o) < bound
      requires lent ==> Backed(refs, xs, mem.cells) && AllLentRefs(refs, mem.outside)
      modifies this, mem
      ensures Valid() && Now() == T.Put(net, h, old(Now()), g, bound, xs, j)
      ensures mem.outside == old(mem.outside) && Kept(mem.outside, old(mem.cells), mem.cells)
      decreases bound, 0
    {
      var port := net.gates[g].outs[j];
      if port.Some? {
        assert Drives(net, g, j, port.value);
        match o {
          case Nothing =>
          case Pass(i) =>
            assert lent;
            if i < |xs| && Guarded(net.gates[g], j, xs[i]) {
              Drive(port.value, refs[i]);
            }
          case Constant(v) =>
            if Guarded(net.gates[g], j, v) {
              Drive(port.value, Static(v));
            }
          case Fresh(v) =>
            assert !lent;
            if Guarded(net.gates[g], j, v) {
              DriveNew(port.value, v);
            } else {
              CreateOnly(v);
            }
        }
      }
    }

    // A value that its wire does not take.
    method CreateOnly(v: V)
      requires Valid() && !lent
      modifies mem
      ensures Valid() && Now() == old(Now())
      ensures mem.outside == old(mem.outside) && Kept(mem.outside, old(mem.cells), mem.cells)
    {
      var id := mem.Create(v);
      mem.GiveBack(id);
      assert mem.outside == old(mem.outside);
    }

    // Creates a value, drives a wire with it and gives the creator's reference back.
    method DriveNew(w: W, v: V)
      requires Valid() && !lent
      modifies this, mem
      ensures Valid() && Now() == T.Drive(net, h, old(Now()), w, v)
      ensures mem.outside == old(mem.outside) && Kept(mem.outside, old(mem.cells), mem.cells)
      decreases h(w), 6
    {
      var id := mem.Create(v);
      Drive(w, Counted(id));
      mem.GiveBack(id);
      assert mem.outside == old(mem.outside);
    }
  }
}
