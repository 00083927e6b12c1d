/** Circuits: gates, the wires at their ports, and for each wire the input ports it drives. */
module Circuit {
  import opened Options

  // What a gate puts on one output port: nothing, the value of one of its inputs handed on, a value it
  // creates, or a constant of the library.
  datatype Output<+V> = Nothing | Pass(index: nat) | Fresh(v: V) | Constant(v: V)

  /** `f` maps the values of the wired input ports, in port order, to what each output port gets.  A
      gate fires only when every wired input holds a value; one that `needsAll` also wants every port
      wired (functional wrappers), the others skip unwired ports (logic gates, sorter boxes).  Functional
      wrappers also compare the type and subtype of a value with those of the wire: under a guard, output
      port j drives its wire with v only when guard(j, v). */
  datatype Gate<!W(==), !V> = Gate(
    ins: seq<Option<W>>, outs: seq<Option<W>>, enabled: bool, needsAll: bool, f: seq<V> -> seq<Output<V>>,
    guard: Option<(nat, V) -> bool>)

  datatype Tap = Tap(gate: nat, port: nat)

  datatype Net<!W(==), !V> = Net(gates: seq<Gate<W, V>>, drivens: map<W, seq<Tap>>)

  function Taps<W(==), V>(c: Net<W, V>, w: W): seq<Tap> {
    if w in c.drivens then c.drivens[w] else []
  }

  // The wires at the wired input ports.
  function Wired<W(==)>(ins: seq<Option<W>>): seq<W> {
    if ins == [] then []
    else if ins[0].Some? then [ins[0].value] + Wired(ins[1..])
    else Wired(ins[1..])
  }

  function Produced<V>(o: Output<V>, xs: seq<V>): Option<V> {
    match o
    case Nothing => None
    case Pass(i) => if i < |xs| then Some(xs[i]) else None
    case Fresh(v) => Some(v)
    case Constant(v) => Some(v)
  }

  // What the gate has for output port j when the wired inputs hold xs.
  function Offered<W(==), V>(g: Gate<W, V>, xs: seq<V>, j: nat): Option<V> {
    if j < |g.f(xs)| then Produced(g.f(xs)[j], xs) else None
  }

  predicate Guarded<W(==), V>(g: Gate<W, V>, j: nat, v: V) {
    g.guard.None? || g.guard.value(j, v)
  }

  // The value output port j drives its wire with.
  function Out<W(==), V>(g: Gate<W, V>, xs: seq<V>, j: nat): Option<V> {
    var o := Offered(g, xs, j);
    if o.Some? && Guarded(g, j, o.value) then o else None
  }

  // Every wired input holds a value.
  predicate Ready<W(==), V>(g: Gate<W, V>, val: map<W, V>) {
    && (g.needsAll ==> None !in g.ins)
    && (forall w :: w in Wired(g.ins) ==> w in val)
  }

  function Inputs<W(==), V>(g: Gate<W, V>, val: map<W, V>): seq<V>
    requires Ready(g, val)
  {
    seq(|Wired(g.ins)|, i requires 0 <= i < |Wired(g.ins)| => assert Wired(g.ins)[i] in Wired(g.ins); val[Wired(g.ins)[i]])
  }

  // ----- well-formed circuits

  predicate IsTap<W(==), V>(c: Net<W, V>, w: W, t: Tap) {
    t.gate < |c.gates| && t.port < |c.gates[t.gate].ins| && c.gates[t.gate].ins[t.port] == Some(w)
  }

  predicate Reads<W(==), V>(c: Net<W, V>, g: nat, w: W) {
    g < |c.gates| && Some(w) in c.gates[g].ins
  }

  predicate Drives<W(==), V>(c: Net<W, V>, g: nat, j: nat, w: W) {
    g < |c.gates| && j < |c.gates[g].outs| && c.gates[g].outs[j] == Some(w)
  }

  // Both sides of every connection agree: the drivens of a wire are exactly the ports wired to it.
  ghost predicate Agrees<W(!new), V>(c: Net<W, V>) {
    && (forall w, i :: w in c.drivens && 0 <= i < |c.drivens[w]| ==> IsTap(c, w, c.drivens[w][i]))
    && (forall w, t :: IsTap(c, w, t) ==> t in Taps(c, w))
    && (forall w, i, j :: w in c.drivens && 0 <= i < j < |c.drivens[w]| ==> c.drivens[w][i] != c.drivens[w][j])
  }

  ghost predicate OneDriver<W(!new), V>(c: Net<W, V>) {
    forall w, g, j, g', j' :: Drives(c, g, j, w) && Drives(c, g', j', w) ==> g == g' && j == j'
  }

  // h falls along every gate, so it bounds how deep a propagation can go.
  ghost predicate Acyclic<W(!new), V>(c: Net<W, V>, h: W -> nat) {
    forall g, j, w, o :: Reads(c, g, w) && Drives(c, g, j, o) ==> h(o) < h(w)
  }

  ghost predicate WellFormed<W(!new), V>(c: Net<W, V>, h: W -> nat) {
    Agrees(c) && OneDriver(c) && Acyclic(c, h)
  }

  ghost predicate Source<W(!new), V>(c: Net<W, V>, w: W) {
    forall g, j :: !Drives(c, g, j, w)
  }

  lemma {:induction false} WiredIs<W>(ins: seq<Option<W>>)
    ensures |Wired(ins)| <= |ins|
    ensures forall w :: w in Wired(ins) <==> Some(w) in ins
  {
    if ins != [] {
      assert ins == [ins[0]] + ins[1..];
      WiredIs(ins[1..]);
    }
  }

  lemma {:induction false} WiredSnoc<W>(ins: seq<Option<W>>, p: Option<W>)
    ensures Wired(ins + [p]) == Wired(ins) + Wired([p])
    decreases |ins|
  {
    if ins == [] {
      assert ins + [p] == [p];
    } else {
      assert (ins + [p])[1..] == ins[1..] + [p];
      WiredSnoc(ins[1..], p);
    }
  }

  // Every gate is enabled, can fire, and puts a value on every output port.
  ghost predicate Total<W(!new), V(!new)>(c: Net<W, V>) {
    forall g :: 0 <= g < |c.gates| ==>
      && c.gates[g].enabled && Wired(c.gates[g].ins) != []
      && (c.gates[g].needsAll ==> None !in c.gates[g].ins)
      && (forall xs, j :: |xs| == |Wired(c.gates[g].ins)| && 0 <= j < |c.gates[g].outs| ==> Out(c.gates[g], xs, j).Some?)
  }

  // The greatest height of a wire that some gate reads.
  ghost function Top<W(!new), V>(gates: seq<Gate<W, V>>, h: W -> nat): nat {
    if gates == [] then 0
    else
      var here, rest := Highest(Wired(gates[0].ins), h), Top(gates[1..], h);
      if here > rest then here else rest
  }

  ghost function Highest<W>(ws: seq<W>, h: W -> nat): nat {
    if ws == [] then 0
    else
      var rest := Highest(ws[1..], h);
      if h(ws[0]) > rest then h(ws[0]) else rest
  }

  lemma {:induction false} HighestIs<W>(ws: seq<W>, h: W -> nat, w: W)
    requires w in ws
    ensures h(w) <= Highest(ws, h)
  {
    if w != ws[0] { HighestIs(ws[1..], h, w); }
  }

  lemma {:induction false} TopIs<W(!new), V>(gates: seq<Gate<W, V>>, h: W -> nat, g: nat, w: W)
    requires g < |gates| && Some(w) in gates[g].ins
    ensures h(w) <= Top(gates, h)
    decreases |gates|
  {
    if g == 0 {
      WiredIs(gates[0].ins);
      HighestIs(Wired(gates[0].ins), h, w);
    } else {
      TopIs(gates[1..], h, g - 1, w);
    }
  }
}
