/** What a wiring call answers, and that it leaves every other port and wire as they were. */
module WiringLaws {
  import opened Options
  import opened NullTerminated
  import opened Wiring
  import O = WiringOutputs

  // ----- what is answered

  // Neither a type nor a wire is given, or the type is not the wire's.
  predicate Illegal(d: World, r: Request) {
    if r.wire.Some? then r.signal.Some? && r.signal.value != d.signal(r.wire.value) else r.signal.None?
  }

  // The port that a legal call is about.
  function Called(d: World, r: Request): Port
    requires !Illegal(d, r)
  {
    Port(r.gate, if r.wire.Some? then d.signal(r.wire.value) else r.signal.value, r.subtype, r.index)
  }

  // How many ports of this kind the gate has.
  function Count(d: World, p: Port): nat {
    d.ports(p.gate, p.signal, p.subtype)
  }

  // The answer to a call when the ports in `used` are connected.
  ghost predicate Answers(d: World, used: set<Port>, r: Request, status: Status) {
    if Illegal(d, r) then status == BadCall
    else
      var p := Called(d, r);
      var n := Count(d, p);
      && (status == TypeNotSupported <==> n == 0)
      && (n > 0 && (p.index < 0 || p.index > n) ==> status == OutOfRange)
      && (n > 0 && 0 <= p.index <= n && r.wire.None? ==> status == if p in used then Done else PortFree)
      && (n > 0 && 0 <= p.index <= n && r.wire.Some? && p in used ==> status == PortInUse)
      && (n > 0 && 0 <= p.index <= n && r.wire.Some? && p !in used ==>
            status == if p.index < n then Done else OutOfRange)
  }

  /** The answer to a call on an input depends on the port alone, and on whether it is connected. */
  lemma InputAnswers(d: World, c: Panel, r: Request)
    requires Agree(d, c) && OwnSubtypes(d, c)
    ensures Answers(d, c.slot.Keys, r, Serve(d, c, r).1)
  {
    ServedIff(d, c, r);
    var (status, p) := Checked(d, r);
    if status == Done && r.wire.None? && p in c.slot {
      UnwireAgreesIff(d, c, p);
    }
  }

  /** And so does the answer to a call on an output. */
  lemma OutputAnswers(d: World, c: O.Outputs, r: Request)
    requires O.Agree(c)
    ensures Answers(d, c.slot.Keys, r, O.Serve(d, c, r).1)
  {
    O.UnwireAgrees(c, Checked(d, r).1);
  }

  // ----- what is changed

  // The elements of m without the one at k.
  function Without<T>(m: seq<T>, k: nat): seq<T>
    requires k < |m|
  {
    m[..k] + m[k + 1..]
  }

  // m' is m without one occurrence of x.
  ghost predicate LessOne<T(!new)>(m: seq<T>, x: T, m': seq<T>) {
    exists k: nat :: k < |m| && m[k] == x && m' == Without(m, k)
  }

  // Input p is connected to w by its record.
  ghost predicate Connected(c: Panel, p: Port, w: nat) {
    && p in c.slot && c.slot[p] in c.record && c.record[c.slot[p]] == Tokenport(p.gate, p.index, w)
    && c.slot[p] in Members(List(c, w))
  }

  // Port q is as it was, its record too.
  ghost predicate SamePort(c: Panel, c': Panel, q: Port) {
    && (q in c'.slot <==> q in c.slot)
    && (q in c.slot ==>
          && c'.slot[q] == c.slot[q] && c.slot[q] in c.record && c.slot[q] in c'.record
          && c'.record[c.slot[q]] == c.record[c.slot[q]])
  }

  /** A successful call on an input connects the port to the wire, its record last in the wire's array, or disconnects
      it, and its record leaves the array of its wire; every other port and wire stay as they were. */
  lemma InputFrame(d: World, c: Panel, r: Request)
    requires Agree(d, c) && OwnSubtypes(d, c) && Serve(d, c, r).1 == Done
    ensures !Illegal(d, r)
    ensures var c', p := Serve(d, c, r).0, Called(d, r);
      && (forall q :: q != p ==> SamePort(c, c', q))
      && (r.wire.Some? ==>
            && Connected(c', p, r.wire.value) && c'.slot[p] !in c.record
            && Members(List(c', r.wire.value)) == Members(List(c, r.wire.value)) + [c'.slot[p]]
            && forall x :: x != r.wire.value ==> List(c', x) == List(c, x))
      && (r.wire.None? ==>
            && p !in c'.slot && p in c.slot && c.slot[p] in c.record && c.slot[p] !in c'.record
            && var w := c.record[c.slot[p]].owner;
               && LessOne(Members(List(c, w)), c.slot[p], Members(List(c', w)))
               && forall x :: x != w ==> List(c', x) == List(c, x))
  {
    ServedIff(d, c, r);
    var p := Called(d, r);
    if r.wire.Some? { WireFrame(d, c, p, r.wire.value); } else { UnwireFrame(d, c, p); }
  }

  lemma WireFrame(d: World, c: Panel, p: Port, w: nat)
    requires Agree(d, c) && Wire(d, c, p, w).1 == Done
    ensures var c' := Wire(d, c, p, w).0;
      && (forall q :: q != p ==> SamePort(c, c', q)) && Connected(c', p, w) && c'.slot[p] !in c.record
      && Members(List(c', w)) == Members(List(c, w)) + [c'.slot[p]]
      && forall x :: x != w ==> List(c', x) == List(c, x)
  {
    var c' := Wire(d, c, p, w).0;
    assert ArrayOk(c, w);
    AppendedMembers(List(c, w), c.next);
    forall q | q != p ensures SamePort(c, c', q) {
      assert SlotOk(d, c, q);
    }
  }

  lemma UnwireFrame(d: World, c: Panel, p: Port)
    requires Agree(d, c) && OwnSubtypes(d, c) && p in c.slot
    ensures c.slot[p] in c.record
    ensures var c', w := Unwire(c, p).0, c.record[c.slot[p]].owner;
      && (forall q :: q != p ==> SamePort(c, c', q)) && p !in c'.slot && c.slot[p] !in c'.record
      && LessOne(Members(List(c, w)), c.slot[p], Members(List(c', w)))
      && forall x :: x != w ==> List(c', x) == List(c, x)
  {
    OwnSubtypesTakeOwn(d, c, p);
    TakenIs(d, c, p);
    var c', w, k := Unwire(c, p).0, c.record[c.slot[p]].owner, Taken(c, p);
    assert ArrayOk(c, w) && SlotOk(d, c, p);
    DroppedMembers(List(c, w), k);
    assert Members(List(c, w))[k] == c.slot[p] && Members(List(c', w)) == Without(Members(List(c, w)), k);
    forall q | q != p ensures SamePort(c, c', q) {
      assert SlotOk(d, c, q);
    }
  }

  /** The same for outputs, which hold their wire; the wire's array holds gate and index. */
  lemma OutputFrame(d: World, c: O.Outputs, r: Request)
    requires O.Agree(c) && O.Serve(d, c, r).1 == Done
    ensures !Illegal(d, r)
    ensures var c', p := O.Serve(d, c, r).0, Called(d, r);
      && (forall q :: q != p ==> (q in c'.slot <==> q in c.slot) && (q in c.slot ==> c'.slot[q] == c.slot[q]))
      && (r.wire.Some? ==>
            && p !in c.slot && p in c'.slot && c'.slot[p] == r.wire.value
            && Members(O.Drivers(c', r.wire.value)) == Members(O.Drivers(c, r.wire.value)) + [(p.gate, p.index)]
            && forall x :: x != r.wire.value ==> O.Drivers(c', x) == O.Drivers(c, x))
      && (r.wire.None? ==>
            && p in c.slot && p !in c'.slot
            && LessOne(Members(O.Drivers(c, c.slot[p])), (p.gate, p.index), Members(O.Drivers(c', c.slot[p])))
            && forall x :: x != c.slot[p] ==> O.Drivers(c', x) == O.Drivers(c, x))
  {
    var p := Called(d, r);
    if r.wire.Some? { WireOutputFrame(d, c, p, r.wire.value); } else { UnwireOutputFrame(c, p); }
  }

  lemma WireOutputFrame(d: World, c: O.Outputs, p: Port, w: nat)
    requires O.Agree(c) && O.WireOutput(d, c, p, w).1 == Done
    ensures var c' := O.WireOutput(d, c, p, w).0;
      && (forall q :: q != p ==> (q in c'.slot <==> q in c.slot) && (q in c.slot ==> c'.slot[q] == c.slot[q]))
      && p !in c.slot && p in c'.slot && c'.slot[p] == w
      && Members(O.Drivers(c', w)) == Members(O.Drivers(c, w)) + [(p.gate, p.index)]
      && forall x :: x != w ==> O.Drivers(c', x) == O.Drivers(c, x)
  {
    assert GapFree(O.Drivers(c, w));
    AppendedMembers(O.Drivers(c, w), (p.gate, p.index));
  }

  lemma UnwireOutputFrame(c: O.Outputs, p: Port)
    requires O.Agree(c) && p in c.slot
    ensures var c', w := O.UnwireOutput(c, p).0, c.slot[p];
      && (forall q :: q != p ==> (q in c'.slot <==> q in c.slot) && (q in c.slot ==> c'.slot[q] == c.slot[q]))
      && p !in c'.slot && LessOne(Members(O.Drivers(c, w)), (p.gate, p.index), Members(O.Drivers(c', w)))
      && forall x :: x != w ==> O.Drivers(c', x) == O.Drivers(c, x)
  {
    var c', w, x := O.UnwireOutput(c, p).0, c.slot[p], (p.gate, p.index);
    O.UnwireMembers(c, p);
    var m, k := Members(O.Drivers(c, w)), O.FirstOf(O.Drivers(c, w), x);
    assert k < |O.Drivers(c, w)| && O.Drivers(c', w) == Dropped(O.Drivers(c, w), k);
    assert LessOne(m, x, Members(O.Drivers(c', w))) by {
      O.FirstOfIs(O.Drivers(c, w), x);
      assert GapFree(O.Drivers(c, w));
      DroppedMembers(O.Drivers(c, w), k);
      assert k < |m| && m[k] == x && Members(Dropped(O.Drivers(c, w), k)) == Without(m, k);
    }
  }

  // ----- runs

  // The wire of the last successful call on p, if that was not to disconnect it.
  ghost function LastWire(d: World, rs: seq<Request>, p: Port): Option<nat>
    decreases |rs|
  {
    if rs == [] then None
    else
      var before, r := rs[..|rs| - 1], rs[|rs| - 1];
      var c := ServeAll(d, Panel(map[], map[], map[], 0, map[]), before);
      if Serve(d, c, r).1 == Done && !Illegal(d, r) && Called(d, r) == p then r.wire else LastWire(d, before, p)
  }

  lemma ServeConnects(d: World, c: Panel, r: Request, p: Port)
    requires Agree(d, c) && OwnSubtypes(d, c) && Guarded(d, r)
    ensures var (c', status) := Serve(d, c, r);
      if status == Done && !Illegal(d, r) && Called(d, r) == p
      then (if r.wire.Some? then Connected(c', p, r.wire.value) else p !in c'.slot)
      else (p in c'.slot <==> p in c.slot) && forall w :: Connected(c, p, w) ==> Connected(c', p, w)
  {
    var (c', status) := Serve(d, c, r);
    if status == Done {
      InputFrame(d, c, r);
      ServeKeeps(d, c, r);
      if Called(d, r) != p && p in c.slot { assert SamePort(c, c', p) && SlotOk(d, c', p); }
    } else {
      ServedIff(d, c, r);
    }
  }

  /** Over every sequence of guarded calls a port is connected to a wire exactly when the last successful call on it
      connected it to that wire. */
  lemma {:induction false} RunConnects(d: World, rs: seq<Request>, p: Port)
    requires forall i :: 0 <= i < |rs| ==> Guarded(d, rs[i])
    ensures var c := ServeAll(d, Panel(map[], map[], map[], 0, map[]), rs);
      (p in c.slot <==> LastWire(d, rs, p).Some?) && forall w :: LastWire(d, rs, p) == Some(w) ==> Connected(c, p, w)
    decreases |rs|
  {
    if rs != [] {
      var before, r := rs[..|rs| - 1], rs[|rs| - 1];
      RunConnects(d, before, p);
      RunAgrees(d, before);
      ServeConnects(d, ServeAll(d, Panel(map[], map[], map[], 0, map[]), before), r, p);
    }
  }
}
