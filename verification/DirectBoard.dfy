/** A circuit of direct wires in memory: wire slots that point at reference-counted values, updated in
    place by nested calls. */
module DirectBoard {
  import opened Circuit
  import opened Options
  import DirectLaws
  import opened DirectWires
  import GateLaws
  import opened ReferenceCounts

  // What a gate has for one output port: nothing, a value it does not own, or a value it created.
  datatype Handle<+V> = Silent | Lent(r: Ref<V>) | Made(id: nat)

  // The references a gate still has to give back.
  function Owned<V>(hs: seq<Handle<V>>): multiset<nat> {
    if hs == [] then multiset{}
    else (if hs[0].Made? then multiset{hs[0].id} else multiset{}) + Owned(hs[1..])
  }

  lemma {:induction false} OwnedSnoc<V>(hs: seq<Handle<V>>, x: Handle<V>)
    ensures Owned(hs + [x]) == Owned(hs) + Owned([x])
    decreases |hs|
  {
    if hs == [] {
      assert hs + [x] == [x];
    } else {
      assert (hs + [x])[1..] == hs[1..] + [x];
      OwnedSnoc(hs[1..], x);
    }
  }

  // refs are the pointers in the slots of the wires ws.
  predicate Pointers<W(==), V(==)>(slot: map<W, Ref<V>>, ws: seq<W>, refs: seq<Ref<V>>) {
    |refs| == |ws| && forall k :: 0 <= k < |ws| ==> ws[k] in slot && slot[ws[k]] == refs[k]
  }

  lemma PointersSnoc<W, V>(slot: map<W, Ref<V>>, ws: seq<W>, refs: seq<Ref<V>>, w: W)
    requires Pointers(slot, ws, refs) && w in slot
    ensures Pointers(slot, ws + [w], refs + [slot[w]])
  {
  }

  ghost predicate Fits<V>(hd: Handle<V>, out: Option<V>, refs: seq<Ref<V>>, xs: seq<V>, cells: map<nat, Cell<V>>)
    requires |refs| == |xs|
  {
    match hd
    case Silent => out == None
    case Lent(r) => (r.Static? && out == Some(r.v)) || (exists k :: 0 <= k < |refs| && refs[k] == r && out == Some(xs[k]))
    case Made(id) => id in cells && out == Some(cells[id].v)
  }

  ghost predicate Grown<V>(a: map<nat, Cell<V>>, b: map<nat, Cell<V>>) {
    forall id :: id in a ==> id in b && a[id].v == b[id].v
  }

  lemma FitsGrown<V>(
    hd: Handle<V>, out: Option<V>, refs: seq<Ref<V>>, xs: seq<V>, a: map<nat, Cell<V>>, b: map<nat, Cell<V>>)
    requires |refs| == |xs| && Fits(hd, out, refs, xs, a) && Grown(a, b)
    ensures Fits(hd, out, refs, xs, b)
  {
  }

  // The handles from j on carry what the gate makes of xs for their ports, guarded or not.
  ghost predicate FitFrom<W, V>(
    hs: seq<Handle<V>>, j: nat, gate: Gate<W, V>, refs: seq<Ref<V>>, xs: seq<V>, cells: map<nat, Cell<V>>)
    requires |refs| == |xs|
  {
    forall k :: j <= k < |hs| ==> Fits(hs[k], Offered(gate, xs, k), refs, xs, cells)
  }

  lemma FitGrown<W, V>(
    hs: seq<Handle<V>>, gate: Gate<W, V>, refs: seq<Ref<V>>, xs: seq<V>, a: map<nat, Cell<V>>, b: map<nat, Cell<V>>)
    requires |refs| == |xs| && FitFrom(hs, 0, gate, refs, xs, a) && Grown(a, b)
    ensures FitFrom(hs, 0, gate, refs, xs, b)
  {
    forall k | 0 <= k < |hs| ensures Fits(hs[k], Offered(gate, xs, k), refs, xs, b) {
      FitsGrown(hs[k], Offered(gate, xs, k), refs, xs, a, b);
    }
  }

  lemma FitKept<W, V>(
    hs: seq<Handle<V>>, j: nat, gate: Gate<W, V>, refs: seq<Ref<V>>, xs: seq<V>, held: multiset<nat>,
    a: map<nat, Cell<V>>, b: map<nat, Cell<V>>)
    requires |refs| == |xs| && FitFrom(hs, j, gate, refs, xs, a)
    requires j <= |hs| && Owned(hs[j..]) <= held && Kept(held, a, b)
    ensures FitFrom(hs, j, gate, refs, xs, b)
  {
    forall k | j <= k < |hs| ensures Fits(hs[k], Offered(gate, xs, k), refs, xs, b) {
      OwnedPart(hs[j..], k - j);
      if hs[k].Made? { assert hs[k].id in Owned([hs[k]]) && hs[k].id in held; }
    }
  }

  lemma {:induction false} OwnedPart<V>(hs: seq<Handle<V>>, k: nat)
    requires k < |hs|
    ensures Owned([hs[k]]) <= Owned(hs)
    decreases k
  {
    if k > 0 { OwnedPart(hs[1..], k - 1); }
  }

  lemma OwnedHead<V>(hs: seq<Handle<V>>, j: nat, rest: multiset<nat>)
    requires j < |hs|
    ensures Owned(hs[j..]) == Owned([hs[j]]) + Owned(hs[j + 1..])
    ensures rest + Owned(hs[j..]) - Owned([hs[j]]) == rest + Owned(hs[j + 1..])
    ensures hs[j].Made? ==> Owned([hs[j]]) == multiset{hs[j].id} && hs[j].id in Owned(hs[j..])
    ensures !hs[j].Made? ==> rest + Owned(hs[j..]) == rest + Owned(hs[j + 1..])
  {
    assert hs[j..][1..] == hs[j + 1..];
  }

  lemma FrameAbove<W(!new), V, T>(c: Net<W, V>, h: W -> nat, g: nat, j: nat, o: W, a: map<W, T>, b: map<W, T>)
    requires WellFormed(c, h) && Drives(c, g, j, o)
    requires forall x :: x != o && (h(x) >= h(o) || Source(c, x)) ==> Same(a, b, x)
    ensures forall x :: Above(c, h, g, x) ==> Same(a, b, x)
    ensures forall k :: 0 <= k < |Wired(c.gates[g].ins)| ==> Same(a, b, Wired(c.gates[g].ins)[k])
  {
    InputsAbove(c, h, g);
    forall x | Above(c, h, g, x) ensures Same(a, b, x) {
      assert x != o;
    }
  }

  class Board<W(==,!new), V(==,!new)> {
    const net: Net<W, V>
    ghost const h: W -> nat
    const mem: Memory<W, V>
    // Every drive so far.
    ghost var log: seq<(W, V)>

    ghost predicate Valid()
      reads this, mem
    {
      WellFormed(net, h) && mem.Valid()
    }

    ghost function Now(): Signals<W, V>
      requires Valid()
      reads this, mem
    {
      Signals(mem.Now(), log)
    }

    constructor (net: Net<W, V>, ghost h: W -> nat)
      requires WellFormed(net, h)
      ensures Valid() && Now() == Signals(map[], []) && mem.outside == multiset{} && fresh(mem)
      ensures this.net == net && this.h == h
    {
      this.net, this.h, log := net, h, [];
      mem := new Memory();
    }

    // The gate looks at its wired inputs, and gives up at the first that is missing.
    method Gather(g: nat) returns (ready: bool, refs: seq<Ref<V>>)
      requires Valid() && g < |net.gates|
      ensures ready <==> Ready(net.gates[g], Now().val)
      ensures ready ==> Pointers(mem.slot, Wired(net.gates[g].ins), refs)
    {
      var ins := net.gates[g].ins;
      GateLaws.ReadyIs(net.gates[g], Now().val);
      refs := [];
      for p := 0 to |ins|
        invariant Pointers(mem.slot, Wired(ins[..p]), refs)
        invariant forall q :: 0 <= q < p ==> if ins[q].Some? then ins[q].value in Now().val else !net.gates[g].needsAll
      {
        assert ins[..p + 1] == ins[..p] + [ins[p]];
        WiredSnoc(ins[..p], ins[p]);
        match ins[p] {
          case None =>
            if net.gates[g].needsAll {
              return false, [];
            }
          case Some(w) =>
            if w !in mem.slot {
              return false, [];
            }
            PointersSnoc(mem.slot, Wired(ins[..p]), refs, w);
            refs := refs + [mem.slot[w]];
        }
      }
      assert ins[..|ins|] == ins;
      return true, refs;
    }

    method ReadAll(ghost ws: seq<W>, refs: seq<Ref<V>>) returns (xs: seq<V>)
      requires Valid() && Pointers(mem.slot, ws, refs)
      ensures |xs| == |ws| && forall k :: 0 <= k < |ws| ==> Now().val[ws[k]] == xs[k]
    {
      xs := [];
      for k := 0 to |refs|
        invariant |xs| == k && forall i :: 0 <= i < k ==> Now().val[ws[i]] == xs[i]
      {
        assert ws[k] in mem.slot && Live(mem.slot[ws[k]], mem.cells);
        xs := xs + [Value(refs[k], mem.cells)];
      }
    }

    method MakeOne(o: Output<V>, refs: seq<Ref<V>>, ghost xs: seq<V>) returns (hd: Handle<V>)
      requires Valid() && |refs| == |xs|
      modifies mem`cells, mem`next, mem`outside
      ensures Valid() && Now() == old(Now())
      ensures mem.outside == old(mem.outside) + Owned([hd]) && Grown(old(mem.cells), mem.cells)
      ensures Fits(hd, Produced(o, xs), refs, xs, mem.cells)
    {
      match o {
        case Nothing => hd := Silent;
        case Pass(k) => hd := if k < |refs| then Lent(refs[k]) else Silent;
        case Constant(v) => hd := Lent(Static(v));
        case Fresh(v) =>
          var id := mem.Create(v);
          hd := Made(id);
      }
    }

    // The gate's function; the values it creates are its own until it gives them back.
    method Make(g: nat, refs: seq<Ref<V>>, ghost xs: seq<V>) returns (hs: seq<Handle<V>>)
      requires Valid() && g < |net.gates| && Ready(net.gates[g], Now().val) && xs == Inputs(net.gates[g], Now().val)
      requires Pointers(mem.slot, Wired(net.gates[g].ins), refs)
      modifies mem`cells, mem`next, mem`outside
      ensures Valid() && Now() == old(Now()) && mem.outside == old(mem.outside) + Owned(hs) && Grown(old(mem.cells), mem.cells)
      ensures |hs| == |net.gates[g].outs| && FitFrom(hs, 0, net.gates[g], refs, xs, mem.cells)
    {
      var gate := net.gates[g];
      var ys := ReadAll(Wired(gate.ins), refs);
      assert ys == xs;
      var os := gate.f(ys);
      hs := [];
      for j := 0 to |gate.outs|
        invariant Valid() && Now() == old(Now()) && |hs| == j
        invariant mem.outside == old(mem.outside) + Owned(hs) && Grown(old(mem.cells), mem.cells)
        invariant FitFrom(hs, 0, gate, refs, xs, mem.cells)
      {
        ghost var was := mem.cells;
        var hd := MakeOne(if j < |os| then os[j] else Nothing, refs, xs);
        FitGrown(hs, gate, refs, xs, was, mem.cells);
        OwnedSnoc(hs, hd);
        hs := hs + [hd];
      }
    }

    /** lxc_drive_wire_value: stores the value, then notifies the gates one after the other.  The caller's
        value only has to be in memory; from then on the slot keeps it there. */
    method Drive(w: W, r: Ref<V>)
      requires Valid() && Live(r, mem.cells)
      modifies mem`slot, mem`cells, mem`next, mem`outside, `log
      ensures Valid() && Now() == DirectWires.Drive(net, h, old(Now()), w, old(Value(r, mem.cells)))
      ensures mem.outside == old(mem.outside) && Kept(mem.outside, old(mem.cells), mem.cells)
      ensures w in mem.slot && mem.slot[w] == r
      ensures forall x :: x != w && (h(x) >= h(w) || Source(net, x)) ==> Same(old(mem.slot), mem.slot, x)
      ensures forall x :: x != w && GateLaws.Silenced(net, x) ==> Same(old(Now().val), Now().val, x)
      decreases h(w), 5
    {
      ghost var v := Value(r, mem.cells);
      mem.Import(w, r);
      log := log + [(w, v)];
      NotifyAll(w, r);
      assert Same(old(mem.slot)[w := r], mem.slot, w);
      forall x | x != w && GateLaws.Silenced(net, x) ensures Same(old(Now().val), Now().val, x) {
        DirectLaws.SilentStays(net, h, old(Now()), w, v, x);
      }
    }

    // Every gate is handed a value that its wire still holds.
    method NotifyAll(w: W, r: Ref<V>)
      requires Valid() && w in mem.slot && mem.slot[w] == r
      modifies mem`slot, mem`cells, mem`next, mem`outside, `log
      ensures Valid() && Now() == Notify(net, h, old(Now()), w, Taps(net, w))
      ensures mem.outside == old(mem.outside) && Kept(mem.outside, old(mem.cells), mem.cells)
      ensures forall x :: h(x) >= h(w) || Source(net, x) ==> Same(old(mem.slot), mem.slot, x)
      decreases h(w), 4
    {
      var taps := Taps(net, w);
      assert taps[0..] == taps;
      for i := 0 to |taps|
        invariant Valid() && mem.outside == old(mem.outside) && Kept(mem.outside, old(mem.cells), mem.cells)
        invariant forall x :: h(x) >= h(w) || Source(net, x) ==> Same(old(mem.slot), mem.slot, x)
        invariant Notify(net, h, Now(), w, taps[i..]) == Notify(net, h, old(Now()), w, taps)
      {
        var g := taps[i].gate;
        assert IsTap(net, w, taps[i]) && Reads(net, g, w);
        assert taps[i..][1..] == taps[i + 1..];
        assert Same(old(mem.slot), mem.slot, w);
        assert forall x :: h(x) >= h(w) ==> Above(net, h, g, x);
        if net.gates[g].enabled {
          Execute(g, r, h(w));
        }
      }
    }

    // Notifies gate g of a value that is in memory.
    method Execute(g: nat, r: Ref<V>, ghost bound: nat)
      requires Valid() && g < |net.gates| && net.gates[g].enabled && Live(r, mem.cells)
      requires forall j, o :: Drives(net, g, j, o) ==> h(o) < bound
      modifies mem`slot, mem`cells, mem`next, mem`outside, `log
      ensures Valid() && Now() == DirectWires.Execute(net, h, old(Now()), g, bound)
      ensures mem.outside == old(mem.outside) && Kept(mem.outside, old(mem.cells), mem.cells)
      ensures forall x :: Above(net, h, g, x) ==> Same(old(mem.slot), mem.slot, x)
      decreases bound, 3
    {
      var ready, refs := Gather(g);
      if ready {
        ghost var xs := Inputs(net.gates[g], Now().val);
        var hs := Make(g, refs, xs);
        Spread(g, refs, hs, xs, old(mem.outside), bound);
      }
    }

    // Gate g is about to drive output port j: it still reads xs at its inputs, and owns what is left.
    ghost predicate Driving(g: nat, refs: seq<Ref<V>>, hs: seq<Handle<V>>, xs: seq<V>, rest: multiset<nat>, j: nat)
      reads this, mem
    {
      && Valid() && g < |net.gates| && Ready(net.gates[g], Now().val) && xs == Inputs(net.gates[g], Now().val)
      && Pointers(mem.slot, Wired(net.gates[g].ins), refs)
      && j <= |hs| == |net.gates[g].outs| && mem.outside == rest + Owned(hs[j..])
      && FitFrom(hs, j, net.gates[g], refs, xs, mem.cells)
    }

    // Drives the output ports in order, giving back each created value after its port was driven.
    method Spread(g: nat, refs: seq<Ref<V>>, hs: seq<Handle<V>>, ghost xs: seq<V>, ghost rest: multiset<nat>, ghost bound: nat)
      requires Driving(g, refs, hs, xs, rest, 0)
      requires forall j, o :: Drives(net, g, j, o) ==> h(o) < bound
      modifies mem`slot, mem`cells, mem`next, mem`outside, `log
      ensures Valid() && Now() == Emit(net, h, old(Now()), g, bound, xs, 0)
      ensures mem.outside == rest && Kept(rest, old(mem.cells), mem.cells)
      ensures forall x :: Above(net, h, g, x) ==> Same(old(mem.slot), mem.slot, x)
      decreases bound, 2
    {
      for j := 0 to |hs|
        invariant Driving(g, refs, hs, xs, rest, j) && Kept(rest, old(mem.cells), mem.cells)
        invariant forall x :: Above(net, h, g, x) ==> Same(old(mem.slot), mem.slot, x)
        invariant Emit(net, h, Now(), g, bound, xs, j) == Emit(net, h, old(Now()), g, bound, xs, 0)
      {
        PutOut(g, j, refs, hs, xs, rest, bound);
      }
    }

    method PutOut(
      g: nat, j: nat, refs: seq<Ref<V>>, hs: seq<Handle<V>>, ghost xs: seq<V>, ghost rest: multiset<nat>, ghost bound: nat)
      requires Driving(g, refs, hs, xs, rest, j) && j < |hs|
      requires forall j, o :: Drives(net, g, j, o) ==> h(o) < bound
      modifies mem`slot, mem`cells, mem`next, mem`outside, `log
      ensures Driving(g, refs, hs, xs, rest, j + 1) && Now() == Put(net, h, old(Now()), g, bound, xs, j)
      ensures Kept(rest, old(mem.cells), mem.cells)
      ensures forall x :: Above(net, h, g, x) ==> Same(old(mem.slot), mem.slot, x)
      decreases bound, 1
    {
      DrivePort(g, j, refs, hs, xs, rest, bound);
      if hs[j].Made? {
        GiveBackPort(g, j, refs, hs, xs, rest);
      } else {
        SkipPort(g, j, refs, hs, xs, rest);
      }
    }

    lemma SkipPort(g: nat, j: nat, refs: seq<Ref<V>>, hs: seq<Handle<V>>, xs: seq<V>, rest: multiset<nat>)
      requires Driving(g, refs, hs, xs, rest, j) && j < |hs| && !hs[j].Made?
      ensures Driving(g, refs, hs, xs, rest, j + 1)
    {
      OwnedHead(hs, j, rest);
    }

    // A functional wrapper compares the value's type with that of the wire; a value that does not fit is
    // not driven.
    method DrivePort(
      g: nat, j: nat, refs: seq<Ref<V>>, hs: seq<Handle<V>>, ghost xs: seq<V>, ghost rest: multiset<nat>, ghost bound: nat)
      requires Driving(g, refs, hs, xs, rest, j) && j < |hs|
      requires forall j, o :: Drives(net, g, j, o) ==> h(o) < bound
      modifies mem`slot, mem`cells, mem`next, mem`outside, `log
      ensures Driving(g, refs, hs, xs, rest, j) && Kept(rest, old(mem.cells), mem.cells)
      ensures Now() == Put(net, h, old(Now()), g, bound, xs, j)
      ensures forall x :: Above(net, h, g, x) ==> Same(old(mem.slot), mem.slot, x)
      decreases bound, 0
    {
      if net.gates[g].outs[j].Some? && !hs[j].Silent? {
        var o, hd := net.gates[g].outs[j].value, hs[j];
        var r := if hd.Made? then Counted(hd.id) else hd.r;
        HandleValue(g, hd, Offered(net.gates[g], xs, j), refs, xs);
        assert Drives(net, g, j, o);
        if Guarded(net.gates[g], j, Value(r, mem.cells)) {
          DriveHeld(g, j, refs, hs, xs, rest, o, r);
        }
      }
    }

    method DriveHeld(
      g: nat, j: nat, refs: seq<Ref<V>>, hs: seq<Handle<V>>, ghost xs: seq<V>, ghost rest: multiset<nat>, o: W, r: Ref<V>)
      requires Driving(g, refs, hs, xs, rest, j) && Drives(net, g, j, o) && Live(r, mem.cells)
      modifies mem`slot, mem`cells, mem`next, mem`outside, `log
      ensures Driving(g, refs, hs, xs, rest, j) && Kept(rest, old(mem.cells), mem.cells)
      ensures Now() == DirectWires.Drive(net, h, old(Now()), o, old(Value(r, mem.cells)))
      ensures forall x :: Above(net, h, g, x) ==> Same(old(mem.slot), mem.slot, x)
      decreases h(o), 6
    {
      DriveEffect(net, h, Now(), o, Value(r, mem.cells));
      Drive(o, r);
      FrameAbove(net, h, g, j, o, old(mem.slot), mem.slot);
      FrameAbove(net, h, g, j, o, old(Now()).val, Now().val);
      InputsFrame(net.gates[g], old(Now()).val, Now().val);
      FitKept(hs, j, net.gates[g], refs, xs, mem.outside, old(mem.cells), mem.cells);
    }

    method GiveBackPort(
      g: nat, j: nat, refs: seq<Ref<V>>, hs: seq<Handle<V>>, ghost xs: seq<V>, ghost rest: multiset<nat>)
      requires Driving(g, refs, hs, xs, rest, j) && j < |hs| && hs[j].Made?
      modifies mem`cells, mem`outside
      ensures Driving(g, refs, hs, xs, rest, j + 1) && Kept(rest, old(mem.cells), mem.cells) && Now() == old(Now())
    {
      OwnedHead(hs, j, rest);
      mem.GiveBack(hs[j].id);
      FitKept(hs, j + 1, net.gates[g], refs, xs, mem.outside, old(mem.cells), mem.cells);
    }

    lemma HandleValue(g: nat, hd: Handle<V>, out: Option<V>, refs: seq<Ref<V>>, xs: seq<V>)
      requires Valid() && g < |net.gates| && Ready(net.gates[g], Now().val) && xs == Inputs(net.gates[g], Now().val)
      requires Pointers(mem.slot, Wired(net.gates[g].ins), refs)
      requires Fits(hd, out, refs, xs, mem.cells) && !hd.Silent?
      ensures var r := if hd.Made? then Counted(hd.id) else hd.r; Live(r, mem.cells) && out == Some(Value(r, mem.cells))
    {
      if hd.Lent? && hd.r.Counted? {
        var k :| 0 <= k < |refs| && refs[k] == hd.r && out == Some(xs[k]);
        assert Live(mem.slot[Wired(net.gates[g].ins)[k]], mem.cells);
      }
    }

    // Creates a value, drives a source wire with it and gives the creator's reference back.
    method DriveNew(w: W, v: V)
      requires Valid() && Source(net, w) && Settled(net, Now().val)
      modifies mem`slot, mem`cells, mem`next, mem`outside, `log
      ensures Valid() && mem.outside == old(mem.outside)
      ensures Now() == DirectWires.Drive(net, h, old(Now()), w, v)
      ensures Settled(net, Now().val) && w in Now().val && Now().val[w] == v
      ensures forall x :: Source(net, x) && x != w ==> Same(old(Now()).val, Now().val, x)
    {
      var id := mem.Create(v);
      DriveSettles(net, h, Now(), w, v);
      Drive(w, Counted(id));
      mem.GiveBack(id);
      assert mem.outside == old(mem.outside);
    }

    // Destroying every wire leaves in memory exactly what others still hold.
    method ClearAll(ws: seq<W>)
      requires Valid() && forall w :: w in mem.slot ==> w in ws
      modifies mem`slot, mem`cells
      ensures Valid() && mem.slot == map[] && forall id :: id in mem.cells <==> id in mem.outside
    {
      for i := 0 to |ws|
        invariant Valid() && forall w :: w in mem.slot ==> w in ws[i..]
      {
        mem.Clear(ws[i]);
      }
      assert mem.slot == map[];
      forall id: nat ensures id in mem.cells <==> id in mem.outside {
        InMemoryIffHeld(mem.slot, mem.cells, mem.outside, id);
      }
    }
  }
}
