/** Wiring gate inputs: the gate's slot and the wire's drivens must tell the same story. */
module Wiring {
  import opened Options
  import opened NullTerminated

  datatype Port = Port(gate: nat, signal: nat, subtype: int, index: int)

  // The record of one connection; the gate's slot and the wire's array both point at it.
  datatype Tokenport = Tokenport(gate: nat, index: int, owner: nat)

  // Number of ports of each kind a gate has, and the type and subtype of each wire.
  datatype World = World(ports: (nat, nat, int) -> nat, signal: nat -> nat, subtype: nat -> int)

  /** Slots, live records and drivens.  `home` is bookkeeping for the proofs only: the port a record was
      made for. */
  datatype Panel = Panel(
    slot: map<Port, nat>, record: map<nat, Tokenport>, drivens: map<nat, seq<Option<nat>>>, next: nat, home: map<nat, Port>)

  datatype Status = Done | BadCall | TypeNotSupported | OutOfRange | PortFree | PortInUse | NotConnected | FreedRecord

  // signal and wire are optional; no wire means: unwire the port.
  datatype Request = Request(signal: Option<nat>, subtype: int, wire: Option<nat>, gate: nat, index: int)

  function List(c: Panel, w: nat): seq<Option<nat>> {
    if w in c.drivens then c.drivens[w] else []
  }

  // The port a call is about, or why it is refused.  An index equal to the number of ports passes.
  function Checked(d: World, r: Request): (Status, Port) {
    var signal := if r.signal.Some? then r.signal.value else if r.wire.Some? then d.signal(r.wire.value) else 0;
    var p := Port(r.gate, signal, r.subtype, r.index);
    if r.signal.None? && r.wire.None? then (BadCall, p)
    else if r.wire.Some? && d.signal(r.wire.value) != signal then (BadCall, p)
    else if d.ports(r.gate, signal, r.subtype) == 0 then (TypeNotSupported, p)
    else if r.index < 0 || r.index > d.ports(r.gate, signal, r.subtype) then (OutOfRange, p)
    else (Done, p)
  }

  // Position of the first record of gate and index in a wire's array.
  function FirstMatch(record: map<nat, Tokenport>, s: seq<Option<nat>>, gate: nat, index: int): (i: nat)
    ensures i <= |s|
    ensures i < |s| && s[i].Some? ==> s[i].value in record
  {
    if s == [] || s[0].None? || s[0].value !in record then |s|
    else if record[s[0].value].gate == gate && record[s[0].value].index == index then 0
    else
      var i := FirstMatch(record, s[1..], gate, index);
      i + 1
  }

  function Wire(d: World, c: Panel, p: Port, w: nat): (Panel, Status) {
    if p in c.slot then (c, PortInUse)
    else if p.index >= d.ports(p.gate, p.signal, p.subtype) then (c, OutOfRange)
    else
      var t := c.next;
      (Panel(c.slot[p := t], c.record[t := Tokenport(p.gate, p.index, w)],
             c.drivens[w := Appended(List(c, w), t)], t + 1, c.home[t := p]), Done)
  }

  function Unwire(c: Panel, p: Port): (Panel, Status) {
    if p !in c.slot then (c, PortFree)
    else if c.slot[p] !in c.record then (c, FreedRecord)
    else
      var w := c.record[c.slot[p]].owner;
      var i := FirstMatch(c.record, List(c, w), p.gate, p.index);
      if i == |List(c, w)| || List(c, w)[i].None? then (c.(slot := c.slot - {p}), NotConnected)
      else
        (c.(slot := c.slot - {p}, record := c.record - {List(c, w)[i].value}, drivens := c.drivens[w := Dropped(List(c, w), i)]),
         Done)
  }

  function Serve(d: World, c: Panel, r: Request): (Panel, Status) {
    var (status, p) := Checked(d, r);
    if status != Done then (c, status)
    else if r.wire.Some? then Wire(d, c, p, r.wire.value)
    else Unwire(c, p)
  }

  // ----- agreement

  predicate Listed(c: Panel, w: nat, k: nat, t: nat) {
    k < |Members(List(c, w))| && Members(List(c, w))[k] == t
  }

  // The record a port's slot points at is in memory, is the port's own, and is in its wire's array.
  ghost predicate SlotOk(d: World, c: Panel, p: Port) {
    p in c.slot ==>
      var t := c.slot[p];
      && t in c.record && t in c.home && c.home[t] == p
      && c.record[t].gate == p.gate && c.record[t].index == p.index && d.signal(c.record[t].owner) == p.signal
      && exists k :: Listed(c, c.record[t].owner, k, t)
  }

  // A record in a wire's array is in memory, says it belongs to the wire, and some slot points at it.
  ghost predicate ListedOk(c: Panel, w: nat, k: nat, t: nat) {
    Listed(c, w, k, t) ==> t in c.record && c.record[t].owner == w && t in c.home && c.home[t] in c.slot && c.slot[c.home[t]] == t
  }

  // Arrays are gap free and name no record twice.
  ghost predicate ArrayOk(c: Panel, w: nat) {
    && GapFree(List(c, w))
    && forall i, j, t, u :: Listed(c, w, i, t) && Listed(c, w, j, u) && i < j ==> t != u
  }

  ghost predicate Agree(d: World, c: Panel) {
    && (forall p :: SlotOk(d, c, p))
    && (forall w, k, t :: ListedOk(c, w, k, t))
    && (forall w :: ArrayOk(c, w))
    && (forall t :: t in c.record ==> t < c.next && t in c.home && c.home[t] in c.slot && c.slot[c.home[t]] == t)
  }

  lemma EmptyAgrees(d: World)
    ensures Agree(d, Panel(map[], map[], map[], 0, map[]))
  {
  }

  lemma WireAgrees(d: World, c: Panel, p: Port, w: nat)
    requires Agree(d, c) && p !in c.slot && d.signal(w) == p.signal && p.index < d.ports(p.gate, p.signal, p.subtype)
    ensures Agree(d, Wire(d, c, p, w).0)
  {
    var c', t := Wire(d, c, p, w).0, c.next;
    assert ArrayOk(c, w);
    AppendedMembers(List(c, w), t);
    var n := |Members(List(c, w))|;
    forall x: nat, k: nat, u: nat ensures Listed(c', x, k, u) <==> Listed(c, x, k, u) || (x == w && k == n && u == t) {}
    forall x: nat, k: nat, u: nat ensures ListedOk(c', x, k, u) {
      assert ListedOk(c, x, k, u);
    }
    forall q ensures SlotOk(d, c', q) {
      if q == p {
        assert Listed(c', w, n, t);
      } else if q in c.slot {
        assert SlotOk(d, c, q);
        var k: nat :| Listed(c, c.record[c.slot[q]].owner, k, c.slot[q]);
        assert Listed(c', c'.record[c.slot[q]].owner, k, c.slot[q]);
      }
    }
    forall x: nat ensures ArrayOk(c', x) {
      assert ArrayOk(c, x);
      forall i: nat, j: nat, u: nat, v: nat | Listed(c', x, i, u) && Listed(c', x, j, v) && i < j ensures u != v {
        assert ListedOk(c, x, i, u) && ListedOk(c, x, j, v);
      }
    }
  }

  // Records in s up to and including the first match are in memory, and the match is where it says.
  lemma {:induction false} FirstMatchIs(c: Panel, s: seq<Option<nat>>, gate: nat, index: int, k: nat)
    requires forall i :: 0 <= i < |Members(s)| ==> Members(s)[i] in c.record
    requires k < |Members(s)| && c.record[Members(s)[k]].gate == gate && c.record[Members(s)[k]].index == index
    ensures var i := FirstMatch(c.record, s, gate, index);
      && i <= k && i < |Members(s)| && i < |s| && s[i].Some? && c.record[Members(s)[i]].gate == gate && c.record[Members(s)[i]].index == index
    decreases |s|
  {
    MembersAt(s);
    assert Members(s)[0] == s[0].value;
    var t := s[0].value;
    if !(c.record[t].gate == gate && c.record[t].index == index) {
      forall i | 0 <= i < |Members(s[1..])| ensures Members(s[1..])[i] in c.record {
        assert Members(s[1..])[i] == Members(s)[i + 1];
      }
      FirstMatchIs(c, s[1..], gate, index, k - 1);
    }
  }

  // The record that unwiring p takes out of the wire's array and frees.
  function Taken(c: Panel, p: Port): (k: nat)
    requires p in c.slot && c.slot[p] in c.record
  {
    FirstMatch(c.record, List(c, c.record[c.slot[p]].owner), p.gate, p.index)
  }

  lemma TakenIs(d: World, c: Panel, p: Port)
    requires Agree(d, c) && p in c.slot
    ensures c.slot[p] in c.record
    ensures var w, k := c.record[c.slot[p]].owner, Taken(c, p);
      && k < |Members(List(c, w))| && Members(List(c, w))[k] in c.record && k < |List(c, w)| && List(c, w)[k] == Some(Members(List(c, w))[k])
      && c.record[Members(List(c, w))[k]].gate == p.gate && c.record[Members(List(c, w))[k]].index == p.index
  {
    assert SlotOk(d, c, p);
    var t := c.slot[p];
    var w := c.record[t].owner;
    var k: nat :| Listed(c, w, k, t);
    forall i: nat | i < |Members(List(c, w))| ensures Members(List(c, w))[i] in c.record {
      assert ListedOk(c, w, i, Members(List(c, w))[i]);
    }
    MembersAt(List(c, w));
    FirstMatchIs(c, List(c, w), p.gate, p.index, k);
  }

  // The record of p is the first of its gate and index in the wire's array.
  ghost predicate TakesOwn(c: Panel, p: Port)
    requires p in c.slot && c.slot[p] in c.record
  {
    Listed(c, c.record[c.slot[p]].owner, Taken(c, p), c.slot[p])
  }

  // What is still listed was listed before, one place further on in the array of the port's wire.
  lemma UnwireShifts(d: World, c: Panel, p: Port, x: nat, i: nat, u: nat)
    requires Agree(d, c) && p in c.slot && c.slot[p] in c.record && TakesOwn(c, p)
    ensures var c', w, k := Unwire(c, p).0, c.record[c.slot[p]].owner, Taken(c, p);
      Listed(c', x, i, u) ==> u != c.slot[p] && Listed(c, x, if x == w && i >= k then i + 1 else i, u)
  {
    var c', t, w, k := Unwire(c, p).0, c.slot[p], c.record[c.slot[p]].owner, Taken(c, p);
    TakenIs(d, c, p);
    assert ArrayOk(c, w);
    DroppedMembers(List(c, w), k);
    if Listed(c', x, i, u) {
      var i' := if x == w && i >= k then i + 1 else i;
      assert Listed(c, x, i', u);
      assert ListedOk(c, x, i', u) && ListedOk(c, w, k, t);
    }
  }

  lemma UnwireListed(d: World, c: Panel, p: Port, x: nat, i: nat, u: nat)
    requires Agree(d, c) && p in c.slot && c.slot[p] in c.record && TakesOwn(c, p)
    ensures ListedOk(Unwire(c, p).0, x, i, u)
  {
    var w, k := c.record[c.slot[p]].owner, Taken(c, p);
    TakenIs(d, c, p);
    UnwireShifts(d, c, p, x, i, u);
    assert ListedOk(c, x, if x == w && i >= k then i + 1 else i, u) && ListedOk(c, w, k, c.slot[p]);
  }

  lemma UnwireKeeps(d: World, c: Panel, p: Port)
    requires Agree(d, c) && p in c.slot && c.slot[p] in c.record && TakesOwn(c, p)
    ensures Agree(d, Unwire(c, p).0)
  {
    TakenIs(d, c, p);
    var t, w, k := c.slot[p], c.record[c.slot[p]].owner, Taken(c, p);
    var c' := Unwire(c, p).0;
    assert ArrayOk(c, w);
    DroppedMembers(List(c, w), k);
    forall x: nat, i: nat, u: nat ensures ListedOk(c', x, i, u) {
      UnwireListed(d, c, p, x, i, u);
    }
    forall q ensures SlotOk(d, c', q) {
      if q in c'.slot { UnwireSlot(d, c, p, q); }
    }
    forall x: nat ensures ArrayOk(c', x) {
      assert ArrayOk(c, x);
      forall i: nat, j: nat, u: nat, v: nat | Listed(c', x, i, u) && Listed(c', x, j, v) && i < j ensures u != v {
        UnwireShifts(d, c, p, x, i, u);
        UnwireShifts(d, c, p, x, j, v);
      }
    }
    assert forall u :: u in c'.record ==> u in c.record && u != t;
  }

  lemma UnwireSlot(d: World, c: Panel, p: Port, q: Port)
    requires Agree(d, c) && p in c.slot && c.slot[p] in c.record && TakesOwn(c, p) && q in c.slot && q != p
    ensures SlotOk(d, Unwire(c, p).0, q)
  {
    var c', u := Unwire(c, p).0, c.slot[q];
    TakenIs(d, c, p);
    assert SlotOk(d, c, p) && SlotOk(d, c, q);
    assert u != c.slot[p];
    var i: nat :| Listed(c, c.record[u].owner, i, u);
    UnwireStillListed(d, c, p, c.record[u].owner, i, u);
  }

  lemma UnwireStillListed(d: World, c: Panel, p: Port, x: nat, i: nat, u: nat)
    requires Agree(d, c) && p in c.slot && c.slot[p] in c.record && TakesOwn(c, p) && u != c.slot[p] && Listed(c, x, i, u)
    ensures var w, k := c.record[c.slot[p]].owner, Taken(c, p);
      Listed(Unwire(c, p).0, x, if x == w && i > k then i - 1 else i, u)
  {
    var w, k := c.record[c.slot[p]].owner, Taken(c, p);
    TakenIs(d, c, p);
    assert ArrayOk(c, w);
    DroppedMembers(List(c, w), k);
  }

  // Another connected port of the same gate and index has its record before p's, on the same wire.
  ghost predicate EarlierTwin(c: Panel, p: Port)
    requires p in c.slot && c.slot[p] in c.record
  {
    exists q, i: nat, k: nat :: q in c.slot && q != p && q.gate == p.gate && q.index == p.index && i < k
      && Listed(c, c.record[c.slot[p]].owner, i, c.slot[q]) && Listed(c, c.record[c.slot[p]].owner, k, c.slot[p])
  }

  lemma TakesOwnIff(d: World, c: Panel, p: Port)
    requires Agree(d, c) && p in c.slot
    ensures c.slot[p] in c.record && (TakesOwn(c, p) <==> !EarlierTwin(c, p))
  {
    TakenIs(d, c, p);
    var t, w, j := c.slot[p], c.record[c.slot[p]].owner, Taken(c, p);
    var m := Members(List(c, w));
    assert SlotOk(d, c, p) && ArrayOk(c, w);
    var k: nat :| Listed(c, w, k, t);
    forall i: nat | i < |m| ensures m[i] in c.record { assert ListedOk(c, w, i, m[i]); }
    if TakesOwn(c, p) {
      forall q, i: nat, k: nat | q in c.slot && q != p && q.gate == p.gate && q.index == p.index
          && Listed(c, w, i, c.slot[q]) && Listed(c, w, k, t)
        ensures i >= k
      {
        assert SlotOk(d, c, q);
        FirstMatchIs(c, List(c, w), p.gate, p.index, i);
        assert Listed(c, w, j, t);
      }
    } else {
      FirstMatchIs(c, List(c, w), p.gate, p.index, k);
      assert Listed(c, w, j, m[j]) && ListedOk(c, w, j, m[j]);
      var q := c.home[m[j]];
      assert SlotOk(d, c, q);
      assert q != p && j < k;
    }
  }

  /** Unwiring a port leaves slots and arrays in agreement exactly when no other connected port of the same
      gate and index has an earlier record on the wire: the type of the port is not compared. */
  lemma UnwireAgreesIff(d: World, c: Panel, p: Port)
    requires Agree(d, c) && p in c.slot
    ensures c.slot[p] in c.record && Unwire(c, p).1 == Done
    ensures Agree(d, Unwire(c, p).0) <==> !EarlierTwin(c, p)
  {
    TakesOwnIff(d, c, p);
    TakenIs(d, c, p);
    if TakesOwn(c, p) {
      UnwireKeeps(d, c, p);
    } else {
      var w := c.record[c.slot[p]].owner;
      var u := Members(List(c, w))[Taken(c, p)];
      assert ListedOk(c, w, Taken(c, p), u);
      assert c.home[u] in Unwire(c, p).0.slot && !SlotOk(d, Unwire(c, p).0, c.home[u]);
    }
  }

  // ----- runs

  // Every connection is made with the subtype of its wire.
  ghost predicate OwnSubtypes(d: World, c: Panel) {
    forall p :: p in c.slot && c.slot[p] in c.record ==> p.subtype == d.subtype(c.record[c.slot[p]].owner)
  }

  lemma OwnSubtypesTakeOwn(d: World, c: Panel, p: Port)
    requires Agree(d, c) && OwnSubtypes(d, c) && p in c.slot
    ensures c.slot[p] in c.record && TakesOwn(c, p)
  {
    TakenIs(d, c, p);
    var w := c.record[c.slot[p]].owner;
    var u := Members(List(c, w))[Taken(c, p)];
    assert ListedOk(c, w, Taken(c, p), u);
    assert SlotOk(d, c, p) && SlotOk(d, c, c.home[u]);
    assert c.home[u] == p;
  }

  function ServeAll(d: World, c: Panel, rs: seq<Request>): Panel
    decreases |rs|
  {
    if rs == [] then c else Serve(d, ServeAll(d, c, rs[..|rs| - 1]), rs[|rs| - 1]).0
  }

  ghost predicate Guarded(d: World, r: Request) {
    r.wire.Some? ==> r.subtype == d.subtype(r.wire.value)
  }

  lemma ServeKeeps(d: World, c: Panel, r: Request)
    requires Agree(d, c) && OwnSubtypes(d, c) && Guarded(d, r)
    ensures Agree(d, Serve(d, c, r).0) && OwnSubtypes(d, Serve(d, c, r).0)
    ensures Serve(d, c, r).1 !in {NotConnected, FreedRecord}
  {
    var (status, p) := Checked(d, r);
    if status == Done {
      if r.wire.Some? {
        if Wire(d, c, p, r.wire.value).1 == Done {
          WireAgrees(d, c, p, r.wire.value);
          forall q | q in c.slot ensures c.slot[q] in c.record && c.slot[q] != c.next { assert SlotOk(d, c, q); }
        }
      } else if p in c.slot {
        OwnSubtypesTakeOwn(d, c, p);
        TakesOwnIff(d, c, p);
        UnwireAgreesIff(d, c, p);
        TakenIs(d, c, p);
      }
    }
  }

  // Wiring wants an existing port of the wire's type that is free, unwiring one that is connected.
  ghost predicate Fulfillable(d: World, c: Panel, r: Request) {
    match r.wire
    case Some(w) =>
      && (r.signal == None || r.signal == Some(d.signal(w)))
      && 0 <= r.index < d.ports(r.gate, d.signal(w), r.subtype)
      && Port(r.gate, d.signal(w), r.subtype, r.index) !in c.slot
    case None =>
      && r.signal.Some? && 0 <= r.index <= d.ports(r.gate, r.signal.value, r.subtype) != 0
      && Port(r.gate, r.signal.value, r.subtype, r.index) in c.slot
  }

  /** A call succeeds exactly when it can be fulfilled, and a refused call changes nothing. */
  lemma ServedIff(d: World, c: Panel, r: Request)
    requires Agree(d, c) && OwnSubtypes(d, c)
    ensures Serve(d, c, r).1 == Done <==> Fulfillable(d, c, r)
    ensures Serve(d, c, r).1 != Done ==> Serve(d, c, r).0 == c
  {
    var (status, p) := Checked(d, r);
    if status == Done && r.wire.None? && p in c.slot {
      OwnSubtypesTakeOwn(d, c, p);
      TakesOwnIff(d, c, p);
      UnwireAgreesIff(d, c, p);
    }
  }

  /** Over every sequence of wiring and unwiring calls, each with its wire's own subtype, slots and
      arrays agree, and no call ends on the path for ports that are not connected. */
  lemma {:induction false} RunAgrees(d: World, rs: seq<Request>)
    requires forall i :: 0 <= i < |rs| ==> Guarded(d, rs[i])
    ensures var c := ServeAll(d, Panel(map[], map[], map[], 0, map[]), rs);
      && Agree(d, c) && OwnSubtypes(d, c)
      && forall r :: Guarded(d, r) ==> Serve(d, c, r).1 !in {NotConnected, FreedRecord}
    decreases |rs|
  {
    var empty := Panel(map[], map[], map[], 0, map[]);
    if rs == [] {
      EmptyAgrees(d);
    } else {
      RunAgrees(d, rs[..|rs| - 1]);
      ServeKeeps(d, ServeAll(d, empty, rs[..|rs| - 1]), rs[|rs| - 1]);
    }
    var c := ServeAll(d, empty, rs);
    forall r | Guarded(d, r) ensures Serve(d, c, r).1 !in {NotConnected, FreedRecord} {
      ServeKeeps(d, c, r);
    }
  }

  /** Without the guard it fails: two ports of one gate that differ only in subtype, wired to the same
      wire; unwiring the second frees the record of the first. */
  lemma MixedSubtypesDisagree(d: World, c: Panel, p: Port, q: Port, w: nat)
    requires Agree(d, c) && p !in c.slot && q !in c.slot && p.subtype != q.subtype
    requires p.gate == q.gate && p.index == q.index && p.signal == q.signal == d.signal(w)
    requires p.index < d.ports(p.gate, p.signal, p.subtype) && q.index < d.ports(q.gate, q.signal, q.subtype)
    ensures !Agree(d, Unwire(Wire(d, Wire(d, c, p, w).0, q, w).0, q).0)
  {
    var c1 := Wire(d, c, p, w).0;
    var c2 := Wire(d, c1, q, w).0;
    WireAgrees(d, c, p, w);
    WireAgrees(d, c1, q, w);
    assert SlotOk(d, c2, p) && SlotOk(d, c2, q);
    var k: nat :| Listed(c2, w, k, c2.slot[p]);
    var m := |Members(List(c1, w))|;
    assert ArrayOk(c1, w);
    AppendedMembers(List(c1, w), c1.next);
    assert Listed(c2, w, m, c2.slot[q]) && ArrayOk(c2, w);
    forall i: nat | i < |Members(List(c2, w))| ensures Members(List(c2, w))[i] in c2.record {
      assert ListedOk(c2, w, i, Members(List(c2, w))[i]);
    }
    FirstMatchIs(c2, List(c2, w), q.gate, q.index, k);
    TakesOwnIff(d, c2, q);
    UnwireAgreesIff(d, c2, q);
  }

  // ----- the calls

  class Switchboard {
    const world: World
    var slot: map<Port, nat>
    var record: map<nat, Tokenport>
    var drivens: map<nat, seq<Option<nat>>>
    var next: nat
    ghost var home: map<nat, Port>

    ghost function Now(): Panel
      reads this
    {
      Panel(slot, record, drivens, next, home)
    }

    constructor (world: World)
      ensures Now() == Panel(map[], map[], map[], 0, map[]) && this.world == world
    {
      this.world := world;
      slot, record, drivens, next, home := map[], map[], map[], 0, map[];
    }

    // Finds the first record of gate and index, takes it out and frees it.
    method RemovePort(w: nat, gate: nat, index: int) returns (found: bool)
      modifies `record, `drivens
      ensures var s, i := old(List(Now(), w)), FirstMatch(old(record), old(List(Now(), w)), gate, index);
        && (found <==> i < |s| && s[i].Some?)
        && (found ==> record == old(record) - {s[i].value} && drivens == old(drivens)[w := Dropped(s, i)])
        && (!found ==> Now() == old(Now()))
    {
      var s := if w in drivens then drivens[w] else [];
      var i := 0;
      while i < |s| && s[i].Some? && s[i].value in record
        invariant 0 <= i <= |s| && Now() == old(Now())
        invariant FirstMatch(record, s, gate, index) == i + FirstMatch(record, s[i..], gate, index)
      {
        var p := record[s[i].value];
        if p.gate == gate && p.index == index {
          drivens := drivens[w := Dropped(s, i)];
          record := record - {s[i].value};
          return true;
        }
        assert s[i..][1..] == s[i + 1..];
        i := i + 1;
      }
      return false;
    }

    method Wiring(r: Request) returns (status: Status)
      modifies this
      ensures (Now(), status) == Serve(world, old(Now()), r)
    {
      var (checked, p) := Checked(world, r);
      if checked != Done {
        return checked;
      }
      match r.wire {
        case Some(w) =>
          if p in slot {
            return PortInUse;
          }
          if p.index >= world.ports(p.gate, p.signal, p.subtype) {
            return OutOfRange;
          }
          var t := next;
          next := next + 1;
          record := record[t := Tokenport(p.gate, p.index, w)];
          slot := slot[p := t];
          drivens := drivens[w := Appended(if w in drivens then drivens[w] else [], t)];
          home := home[t := p];
          return Done;
        case None =>
          if p !in slot {
            return PortFree;
          }
          if slot[p] !in record {
            return FreedRecord;
          }
          var w := record[slot[p]].owner;
          slot := slot - {p};
          var found := RemovePort(w, p.gate, p.index);
          return if found then Done else NotConnected;
      }
    }
  }
}
