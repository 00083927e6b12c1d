/** Wiring gate outputs: the gate's slot holds the wire, and the wire's drivers hold a record of gate and
    index.  Records are not pointed at, so it only matters how many there are. */
module WiringOutputs {
  import opened Options
  import opened NullTerminated
  import opened Wiring

  datatype Outputs = Outputs(slot: map<Port, nat>, drivers: map<nat, seq<Option<(nat, int)>>>)

  function Drivers(c: Outputs, w: nat): seq<Option<(nat, int)>> {
    if w in c.drivers then c.drivers[w] else []
  }

  function FirstOf<T(==)>(s: seq<Option<T>>, x: T): (i: nat)
    ensures i <= |s| && (i < |s| ==> s[i] == Some(x))
  {
    if s == [] || s[0].None? then |s|
    else if s[0].value == x then 0
    else
      var i := FirstOf(s[1..], x);
      if i == |s[1..]| then |s| else i + 1
  }

  function WireOutput(d: World, c: Outputs, p: Port, w: nat): (Outputs, Status) {
    if p in c.slot then (c, PortInUse)
    else if p.index >= d.ports(p.gate, p.signal, p.subtype) then (c, OutOfRange)
    else (Outputs(c.slot[p := w], c.drivers[w := Appended(Drivers(c, w), (p.gate, p.index))]), Done)
  }

  function UnwireOutput(c: Outputs, p: Port): (Outputs, Status) {
    if p !in c.slot then (c, PortFree)
    else
      var w := c.slot[p];
      var i := FirstOf(Drivers(c, w), (p.gate, p.index));
      if i == |Drivers(c, w)| then (c.(slot := c.slot - {p}), NotConnected)
      else (Outputs(c.slot - {p}, c.drivers[w := Dropped(Drivers(c, w), i)]), Done)
  }

  function Serve(d: World, c: Outputs, r: Request): (Outputs, Status) {
    var (status, p) := Checked(d, r);
    if status != Done then (c, status)
    else if r.wire.Some? then WireOutput(d, c, p, r.wire.value)
    else UnwireOutput(c, p)
  }

  // The ports of a gate with this index that hold w.
  ghost function Holders(slot: map<Port, nat>, w: nat, gate: nat, index: int): set<Port> {
    set p | p in slot && slot[p] == w && p.gate == gate && p.index == index
  }

  ghost predicate CountOk(c: Outputs, w: nat, gate: nat, index: int) {
    multiset(Members(Drivers(c, w)))[(gate, index)] == |Holders(c.slot, w, gate, index)|
  }

  // Every wire has as many records of a gate and index as slots of that gate and index hold the wire.
  ghost predicate Agree(c: Outputs) {
    (forall w :: GapFree(Drivers(c, w))) && forall w, gate, index :: CountOk(c, w, gate, index)
  }

  lemma WireAgrees(d: World, c: Outputs, p: Port, w: nat)
    requires Agree(c)
    ensures Agree(WireOutput(d, c, p, w).0)
  {
    var c' := WireOutput(d, c, p, w).0;
    if c' != c {
      assert GapFree(Drivers(c, w));
      AppendedMembers(Drivers(c, w), (p.gate, p.index));
      forall x: nat ensures GapFree(Drivers(c', x)) { assert GapFree(Drivers(c, x)); }
      forall x: nat, gate: nat, index: int ensures CountOk(c', x, gate, index) {
        WireCount(d, c, p, w, x, gate, index);
      }
    }
  }

  lemma WireCount(d: World, c: Outputs, p: Port, w: nat, x: nat, gate: nat, index: int)
    requires Agree(c) && WireOutput(d, c, p, w).1 == Done
    ensures CountOk(WireOutput(d, c, p, w).0, x, gate, index)
  {
    assert GapFree(Drivers(c, w)) && CountOk(c, x, gate, index);
    AppendedMembers(Drivers(c, w), (p.gate, p.index));
    AddHolder(c.slot, p, w, x, gate, index);
    assert WireOutput(d, c, p, w).0.slot == c.slot[p := w];
  }

  lemma AddHolder(slot: map<Port, nat>, p: Port, w: nat, x: nat, gate: nat, index: int)
    requires p !in slot
    ensures |Holders(slot[p := w], x, gate, index)| ==
            |Holders(slot, x, gate, index)| + (if x == w && gate == p.gate && index == p.index then 1 else 0)
  {
    var before, after := Holders(slot, x, gate, index), Holders(slot[p := w], x, gate, index);
    assert p !in before;
    assert p in after <==> x == w && gate == p.gate && index == p.index;
    assert after - {p} == before;
  }

  lemma DropHolder(slot: map<Port, nat>, p: Port, x: nat, gate: nat, index: int)
    requires p in slot
    ensures |Holders(slot - {p}, x, gate, index)| ==
            |Holders(slot, x, gate, index)| - (if x == slot[p] && gate == p.gate && index == p.index then 1 else 0)
  {
    var before, after := Holders(slot, x, gate, index), Holders(slot - {p}, x, gate, index);
    assert after == before - {p};
    assert p in before <==> x == slot[p] && gate == p.gate && index == p.index;
  }

  // The port's wire has a record of it, and loses one.
  lemma UnwireMembers(c: Outputs, p: Port)
    requires Agree(c) && p in c.slot
    ensures var c', w, x := UnwireOutput(c, p).0, c.slot[p], (p.gate, p.index);
      && UnwireOutput(c, p).1 == Done && GapFree(Drivers(c', w)) && x in multiset(Members(Drivers(c, w)))
      && multiset(Members(Drivers(c', w))) == multiset(Members(Drivers(c, w))) - multiset{x}
  {
    var w, x := c.slot[p], (p.gate, p.index);
    assert CountOk(c, w, p.gate, p.index) && p in Holders(c.slot, w, p.gate, p.index);
    assert x in multiset(Members(Drivers(c, w)));
    FirstOfIs(Drivers(c, w), x);
    MembersAt(Drivers(c, w));
    assert GapFree(Drivers(c, w));
    DroppedMembers(Drivers(c, w), FirstOf(Drivers(c, w), x));
    DropOne(Members(Drivers(c, w)), FirstOf(Drivers(c, w), x));
  }

  lemma {:induction false} FirstOfIs<T>(s: seq<Option<T>>, x: T)
    requires x in Members(s)
    ensures FirstOf(s, x) < |Members(s)| && Members(s)[FirstOf(s, x)] == x
    decreases |s|
  {
    MembersAt(s);
    if s[0].value != x { FirstOfIs(s[1..], x); }
  }

  lemma DropOne<T>(m: seq<T>, i: nat)
    requires i < |m|
    ensures multiset(m[..i] + m[i + 1..]) == multiset(m) - multiset{m[i]}
  {
    assert m == m[..i] + [m[i]] + m[i + 1..];
  }

  lemma UnwireAgrees(c: Outputs, p: Port)
    requires Agree(c)
    ensures Agree(UnwireOutput(c, p).0) && UnwireOutput(c, p).1 != NotConnected
  {
    if p in c.slot {
      var c' := UnwireOutput(c, p).0;
      UnwireMembers(c, p);
      forall y: nat ensures GapFree(Drivers(c', y)) { assert GapFree(Drivers(c, y)); }
      forall y: nat, gate: nat, index: int ensures CountOk(c', y, gate, index) {
        UnwireCount(c, p, y, gate, index);
      }
    }
  }

  lemma UnwireCount(c: Outputs, p: Port, y: nat, gate: nat, index: int)
    requires Agree(c) && p in c.slot
    ensures CountOk(UnwireOutput(c, p).0, y, gate, index)
  {
    var c', x := UnwireOutput(c, p).0, (p.gate, p.index);
    UnwireMembers(c, p);
    assert CountOk(c, y, gate, index);
    DropHolder(c.slot, p, y, gate, index);
    assert c'.slot == c.slot - {p};
    if y == c.slot[p] {
      OneLess(multiset(Members(Drivers(c, y))), x, (gate, index));
    } else {
      assert Drivers(c', y) == Drivers(c, y);
    }
  }

  lemma OneLess<T>(m: multiset<T>, x: T, y: T)
    requires x in m
    ensures (m - multiset{x})[y] == m[y] - (if x == y then 1 else 0)
  {
  }

  function ServeAll(d: World, c: Outputs, rs: seq<Request>): Outputs
    decreases |rs|
  {
    if rs == [] then c else Serve(d, ServeAll(d, c, rs[..|rs| - 1]), rs[|rs| - 1]).0
  }

  /** Over every sequence of wiring and unwiring calls, whatever their subtypes. */
  lemma {:induction false} RunAgrees(d: World, rs: seq<Request>)
    ensures var c := ServeAll(d, Outputs(map[], map[]), rs);
      Agree(c) && forall r :: Serve(d, c, r).1 != NotConnected
    decreases |rs|
  {
    var c := ServeAll(d, Outputs(map[], map[]), rs);
    if rs == [] {
      EmptyAgrees();
    } else {
      var r, c0 := rs[|rs| - 1], ServeAll(d, Outputs(map[], map[]), rs[..|rs| - 1]);
      RunAgrees(d, rs[..|rs| - 1]);
      var (status, p) := Checked(d, r);
      if r.wire.Some? { WireAgrees(d, c0, p, r.wire.value); } else { UnwireAgrees(c0, p); }
    }
    forall r ensures Serve(d, c, r).1 != NotConnected {
      UnwireAgrees(c, Checked(d, r).1);
    }
  }

  lemma EmptyAgrees()
    ensures Agree(Outputs(map[], map[]))
  {
    forall w: nat, gate: nat, index: int ensures CountOk(Outputs(map[], map[]), w, gate, index) {
      assert Holders(map[], w, gate, index) == {};
    }
  }

  // Every connection is made with the type and subtype of its wire.
  ghost predicate OwnTypes(d: World, c: Outputs) {
    forall p :: p in c.slot ==> p.signal == d.signal(c.slot[p]) && p.subtype == d.subtype(c.slot[p])
  }

  lemma ServeKeepsTypes(d: World, c: Outputs, r: Request)
    requires OwnTypes(d, c) && Guarded(d, r)
    ensures OwnTypes(d, Serve(d, c, r).0)
  {
  }

  /** Then a slot holds a wire exactly when the wire has one record of it, and no port has two. */
  lemma SlotIffOneRecord(d: World, c: Outputs, w: nat, gate: nat, index: int)
    requires Agree(c) && OwnTypes(d, c)
    ensures var p, records := Port(gate, d.signal(w), d.subtype(w), index), multiset(Members(Drivers(c, w)))[(gate, index)];
      (p in c.slot && c.slot[p] == w <==> records == 1) && records <= 1
  {
    var p, holders := Port(gate, d.signal(w), d.subtype(w), index), Holders(c.slot, w, gate, index);
    assert CountOk(c, w, gate, index);
    assert forall q :: q in holders ==> q == p;
    if p in c.slot && c.slot[p] == w {
      assert holders == {p};
    } else {
      assert holders == {};
    }
  }

  /** Over every sequence of calls with the wires' own types. */
  lemma {:induction false} GuardedRunOneRecord(d: World, rs: seq<Request>, w: nat, gate: nat, index: int)
    requires forall i :: 0 <= i < |rs| ==> Guarded(d, rs[i])
    ensures var c := ServeAll(d, Outputs(map[], map[]), rs);
      var p, records := Port(gate, d.signal(w), d.subtype(w), index), multiset(Members(Drivers(c, w)))[(gate, index)];
      (p in c.slot && c.slot[p] == w <==> records == 1) && records <= 1
  {
    GuardedRunTypes(d, rs);
    RunAgrees(d, rs);
    SlotIffOneRecord(d, ServeAll(d, Outputs(map[], map[]), rs), w, gate, index);
  }

  lemma {:induction false} GuardedRunTypes(d: World, rs: seq<Request>)
    requires forall i :: 0 <= i < |rs| ==> Guarded(d, rs[i])
    ensures OwnTypes(d, ServeAll(d, Outputs(map[], map[]), rs))
    decreases |rs|
  {
    if rs != [] {
      GuardedRunTypes(d, rs[..|rs| - 1]);
      ServeKeepsTypes(d, ServeAll(d, Outputs(map[], map[]), rs[..|rs| - 1]), rs[|rs| - 1]);
    }
  }
}
