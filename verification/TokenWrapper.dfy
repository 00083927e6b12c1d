/** Functional wrappers in memory: tokens point at reference-counted values, a gate takes its tokens and then reads
    them, and each driver gives its value back when its drive has returned.  The reads are safe exactly in safe rounds. */
module TokenWrapper {
  import opened Circuit
  import opened Options
  import opened ReferenceCounts
  import opened TokenBoard
  import opened TokenSafety
  import T = TokenWires

  // Every gate creates what it puts on its output ports.
  ghost predicate CreateAll<W(!new), V(!new)>(c: Net<W, V>) {
    forall g, xs, j :: 0 <= g < |c.gates| && 0 <= j < |c.gates[g].f(xs)| ==>
      c.gates[g].f(xs)[j].Fresh? || c.gates[g].f(xs)[j].Nothing?
  }

  // ----- tokens and the values they point at

  // Each wire's tokens point at the value it was driven with, which its creator holds while the drive is under way.
  ghost predicate Linked<W(!new), V>(
    c: Net<W, V>, slot: map<Tap, Ref<V>>, outside: multiset<nat>, idOf: map<W, nat>, open: set<W>)
  {
    && (forall w, t :: IsTap(c, w, t) && t in slot ==> w in idOf && slot[t] == Counted(idOf[w]))
    && (forall w :: w in open ==> w in idOf)
    && (forall w :: w in idOf ==> outside[idOf[w]] == if w in open then 1 else 0)
    && (forall w, u :: w in idOf && u in idOf && w != u ==> idOf[w] != idOf[u])
  }

  // When gate g has absorbed its tokens the value of w is in memory exactly if somebody else holds it.
  lemma AbsorbedLiveIff<W(!new), V>(
    c: Net<W, V>, slot: map<Tap, Ref<V>>, cells: map<nat, Cell<V>>, outside: multiset<nat>, idOf: map<W, nat>,
    open: set<W>, g: nat, w: W)
    requires Linked(c, slot, outside, idOf, open) && TapsOk(c, slot) && w in idOf
    requires Balanced(OtherGates(slot, g), cells, outside)
    ensures idOf[w] in cells <==> w in open || WaitsElsewhere(c, slot, w, g)
  {
    var rest, id := OtherGates(slot, g), idOf[w];
    InMemoryIffHeld(rest, cells, outside, id);
    if t :| t in rest && rest[t] == Counted(id) {
      var u := c.gates[t.gate].ins[t.port].value;
      assert IsTap(c, u, t);
      assert WaitsElsewhere(c, slot, w, g);
    }
    if WaitsElsewhere(c, slot, w, g) {
      var t :| t in slot && t.gate != g && IsTap(c, w, t);
      assert t in rest && rest[t] == Counted(id);
    }
  }

  lemma WaitsSame<W(!new), V, X, Y>(c: Net<W, V>, a: map<Tap, X>, b: map<Tap, Y>, w: W, g: nat)
    requires a.Keys == b.Keys
    ensures WaitsElsewhere(c, a, w, g) <==> WaitsElsewhere(c, b, w, g)
  {
  }

  // Earlier wires keep their values.
  ghost predicate Extends<W>(a: map<W, nat>, b: map<W, nat>) {
    forall w :: w in a ==> w in b && b[w] == a[w]
  }

  lemma {:induction false} TakenReads<W(!new), V>(
    c: Net<W, V>, slot: map<Tap, Ref<V>>, a: map<nat, Cell<V>>, b: map<nat, Cell<V>>, outside: multiset<nat>,
    idOf: map<W, nat>, open: set<W>, g: nat)
    requires Linked(c, slot, outside, idOf, open) && TapsOk(c, slot) && AllLive(slot, a)
    requires Balanced(OtherGates(slot, g), b, outside) && T.Full(c, g, Values(slot, a))
    requires forall i :: 0 <= i < |c.gates[g].ins| && c.gates[g].ins[i].Some? ==> Tap(g, 0 + i) in slot
    ensures var refs, tok := T.Held(c.gates[g].ins, g, 0, slot), Values(slot, a);
      && Backed(refs, T.Held(c.gates[g].ins, g, 0, tok), a)
      && ((forall r :: r in refs ==> Live(r, b)) <==> SafeFire(c, tok, g, open))
  {
    HeldRefs(c.gates[g].ins, g, 0, slot, a, outside);
    ReadsLiveIff(c, slot, b, outside, idOf, open, g, Values(slot, a));
  }

  // What a call that returns leaves of the drives under way and their values.
  ghost predicate Same<W, V>(
    open: set<W>, idOf: map<W, nat>, outside: multiset<nat>, cells: map<nat, Cell<V>>,
    open': set<W>, idOf': map<W, nat>, outside': multiset<nat>, cells': map<nat, Cell<V>>)
  {
    open' == open && Extends(idOf, idOf') && outside' == outside && Kept(outside, cells, cells')
  }

  lemma SameTrans<W, V>(
    open: set<W>, idOf: map<W, nat>, outside: multiset<nat>, cells: map<nat, Cell<V>>,
    open1: set<W>, idOf1: map<W, nat>, outside1: multiset<nat>, cells1: map<nat, Cell<V>>,
    open2: set<W>, idOf2: map<W, nat>, outside2: multiset<nat>, cells2: map<nat, Cell<V>>)
    requires Same(open, idOf, outside, cells, open1, idOf1, outside1, cells1)
    requires Same(open1, idOf1, outside1, cells1, open2, idOf2, outside2, cells2)
    ensures Same(open, idOf, outside, cells, open2, idOf2, outside2, cells2)
  {
  }

  // A drive of w with value id has begun, gone on and ended.
  lemma SameAfter<W, V>(
    open: set<W>, idOf: map<W, nat>, outside: multiset<nat>, cells: map<nat, Cell<V>>, w: W, id: nat,
    cells1: map<nat, Cell<V>>, idOf2: map<W, nat>, cells2: map<nat, Cell<V>>, cells3: map<nat, Cell<V>>)
    requires w !in open && w !in idOf && Kept(outside, cells, cells1)
    requires Same(open + {w}, idOf[w := id], outside + multiset{id}, cells1, open + {w}, idOf2, outside + multiset{id}, cells2)
    requires Kept(outside, cells2, cells3)
    ensures Same(open, idOf, outside, cells, open + {w} - {w}, idOf2, outside + multiset{id} - multiset{id}, cells3)
  {
    assert open + {w} - {w} == open && outside + multiset{id} - multiset{id} == outside;
    forall u | u in idOf ensures u in idOf2 && idOf2[u] == idOf[u] { assert u in idOf[w := id]; }
  }

  lemma LinkedBegin<W(!new), V>(
    c: Net<W, V>, slot: map<Tap, Ref<V>>, outside: multiset<nat>, idOf: map<W, nat>, open: set<W>, w: W, id: nat)
    requires Linked(c, slot, outside, idOf, open) && NoToken(c, slot, w) && w !in idOf
    requires id !in outside && forall u :: u in idOf ==> idOf[u] != id
    ensures Linked(c, slot, outside + multiset{id}, idOf[w := id], open + {w})
  {
  }

  lemma LinkedEnd<W(!new), V>(
    c: Net<W, V>, slot: map<Tap, Ref<V>>, outside: multiset<nat>, idOf: map<W, nat>, open: set<W>, w: W)
    requires Linked(c, slot, outside, idOf, open) && w in open
    ensures Linked(c, slot, outside - multiset{idOf[w]}, idOf, open - {w})
  {
  }

  lemma LinkedGiven<W(!new), V>(
    c: Net<W, V>, slot: map<Tap, Ref<V>>, outside: multiset<nat>, idOf: map<W, nat>, open: set<W>, t: Tap, w: W)
    requires Linked(c, slot, outside, idOf, open) && IsTap(c, w, t) && w in idOf && TapsOk(c, slot)
    ensures Linked(c, slot[t := Counted(idOf[w])], outside, idOf, open) && TapsOk(c, slot[t := Counted(idOf[w])])
  {
  }

  lemma LinkedTaken<W(!new), V>(
    c: Net<W, V>, slot: map<Tap, Ref<V>>, outside: multiset<nat>, idOf: map<W, nat>, open: set<W>, g: nat)
    requires Linked(c, slot, outside, idOf, open) && TapsOk(c, slot)
    ensures Linked(c, OtherGates(slot, g), outside, idOf, open) && TapsOk(c, OtherGates(slot, g))
  {
  }

  lemma ReadBacked<V>(
    refs: seq<Ref<V>>, xs: seq<V>, ys: seq<V>, a: map<nat, Cell<V>>, b: map<nat, Cell<V>>)
    requires Backed(refs, ys, a) && Backed(refs, xs, b) && NoneNew(a, b)
    ensures xs == ys
  {
  }

  lemma {:induction false} HeldElements<W, X>(ins: seq<Option<W>>, g: nat, p: nat, m: map<Tap, X>)
    requires forall i :: 0 <= i < |ins| && ins[i].Some? ==> Tap(g, p + i) in m
    ensures forall i :: 0 <= i < |ins| && ins[i].Some? ==> m[Tap(g, p + i)] in T.Held(ins, g, p, m)
    ensures forall x :: x in T.Held(ins, g, p, m) ==>
              exists i :: 0 <= i < |ins| && ins[i].Some? && m[Tap(g, p + i)] == x
    decreases |ins|
  {
    if ins != [] {
      forall i | 0 <= i < |ins[1..]| && ins[1..][i].Some? ensures Tap(g, p + 1 + i) in m {
        assert ins[1..][i] == ins[i + 1] && p + 1 + i == p + (i + 1);
      }
      HeldElements(ins[1..], g, p + 1, m);
      var head := if ins[0].Some? then [m[Tap(g, p + 0)]] else [];
      var rest := T.Held(ins[1..], g, p + 1, m);
      forall i | 0 <= i < |ins| && ins[i].Some? ensures m[Tap(g, p + i)] in head + rest {
        if i > 0 { assert ins[1..][i - 1] == ins[i] && p + 1 + (i - 1) == p + i; }
      }
      forall x | x in head + rest ensures exists i :: 0 <= i < |ins| && ins[i].Some? && m[Tap(g, p + i)] == x {
        if x in rest {
          var i :| 0 <= i < |ins[1..]| && ins[1..][i].Some? && m[Tap(g, p + 1 + i)] == x;
          assert ins[i + 1] == ins[1..][i] && p + (i + 1) == p + 1 + i;
        } else {
          assert m[Tap(g, p + 0)] == x;
        }
      }
    }
  }

  // The gate reads only values in memory exactly when it fires safely.
  lemma {:induction false} ReadsLiveIff<W(!new), V>(
    c: Net<W, V>, slot: map<Tap, Ref<V>>, cells: map<nat, Cell<V>>, outside: multiset<nat>, idOf: map<W, nat>,
    open: set<W>, g: nat, tok: map<Tap, V>)
    requires Linked(c, slot, outside, idOf, open) && TapsOk(c, slot) && Balanced(OtherGates(slot, g), cells, outside)
    requires tok.Keys == slot.Keys && T.Full(c, g, tok)
    requires forall i :: 0 <= i < |c.gates[g].ins| && c.gates[g].ins[i].Some? ==> Tap(g, 0 + i) in slot
    ensures (forall r :: r in T.Held(c.gates[g].ins, g, 0, slot) ==> Live(r, cells)) <==> SafeFire(c, tok, g, open)
  {
    var ins := c.gates[g].ins;
    HeldElements(ins, g, 0, slot);
    WiredIs(ins);
    forall i: nat | i < |ins| && ins[i].Some?
      ensures var w := ins[i].value;
        Live(slot[Tap(g, 0 + i)], cells) <==> w in open || WaitsElsewhere(c, tok, w, g)
    {
      var w := ins[i].value;
      assert IsTap(c, w, Tap(g, 0 + i));
      AbsorbedLiveIff(c, slot, cells, outside, idOf, open, g, w);
      WaitsSame(c, slot, tok, w, g);
    }
    forall w | w in Wired(ins) ensures exists i: nat :: i < |ins| && ins[i] == Some(w) {
      assert Some(w) in ins;
    }
  }

  class WrapperBoard<W(==,!new), V(==,!new)> {
    const net: Net<W, V>
    ghost const h: W -> nat
    const mem: Memory<Tap, V>
    // What each wire was driven with, and with which value; the gates that fired; the drives under way.
    ghost var sent: map<W, seq<V>>
    ghost var idOf: map<W, nat>
    ghost var fires: multiset<nat>
    ghost var open: set<W>

    ghost predicate Valid()
      reads this, mem
    {
      && WellFormed(net, h) && CreateAll(net) && mem.Valid() && TapsOk(net, mem.slot)
      && Linked(net, mem.slot, mem.outside, idOf, open)
      && forall w :: w in idOf ==> idOf[w] < mem.next && T.Sent(Now(), w) != []
    }

    ghost function Now(): T.Tokens<W, V>
      requires mem.Valid()
      reads this, mem
    {
      T.Tokens(mem.Now(), sent, fires)
    }

    constructor (net: Net<W, V>, ghost h: W -> nat)
      requires WellFormed(net, h) && CreateAll(net)
      ensures Valid() && Now() == T.Tokens(map[], map[], multiset{}) && open == {} && mem.outside == multiset{}
      ensures fresh(mem) && this.net == net && this.h == h
    {
      this.net, this.h := net, h;
      sent, idOf, fires, open := map[], map[], multiset{}, {};
      mem := new Memory();
    }

    // The driver creates a value for w, which it holds during the drive.
    method Begin(w: W, v: V) returns (id: nat)
      requires Valid() && T.Sent(Now(), w) == [] && NoToken(net, mem.slot, w)
      modifies this, mem
      ensures Valid() && Now() == T.Push(old(Now()), w, v)
      ensures open == old(open) + {w} && w !in old(idOf) && idOf == old(idOf)[w := id]
      ensures mem.outside == old(mem.outside) + multiset{id} && id in mem.cells && mem.cells[id].v == v
      ensures Kept(old(mem.outside), old(mem.cells), mem.cells)
    {
      ghost var outside := mem.outside;
      sent := sent[w := T.Sent(Now(), w) + [v]];
      id := mem.Create(v);
      assert id !in outside;
      LinkedBegin(net, mem.slot, outside, idOf, open, w, id);
      idOf := idOf[w := id];
      open := open + {w};
    }

    method End(ghost w: W, id: nat)
      requires Valid() && w in open && id == idOf[w]
      modifies this, mem
      ensures Valid() && Now() == old(Now())
      ensures open == old(open) - {w} && idOf == old(idOf) && mem.outside == old(mem.outside) - multiset{id}
      ensures Kept(mem.outside, old(mem.cells), mem.cells)
    {
      LinkedEnd(net, mem.slot, mem.outside, idOf, open, w);
      mem.GiveBack(id);
      open := open - {w};
    }

    // Takes the tokens of a full gate and then reads their values, unless one is not in memory any more.
    method Accept(g: nat, refs: seq<Ref<V>>) returns (ok: bool, xs: seq<V>)
      requires Valid() && T.Full(net, g, Now().tok)
      requires refs == T.Held(net.gates[g].ins, g, 0, mem.slot)
      modifies this, mem
      ensures ok <==> SafeFire(net, old(Now()).tok, g, old(open))
      ensures ok ==> xs == T.Held(net.gates[g].ins, g, 0, old(Now()).tok)
      ensures Valid() && Now() == T.Fire(old(Now()), g)
      ensures Same(old(open), old(idOf), old(mem.outside), old(mem.cells), open, idOf, mem.outside, mem.cells)
    {
      ghost var slot, cells, tok := mem.slot, mem.cells, Now().tok;
      ghost var idOf0, open0 := idOf, open;
      assert Linked(net, slot, mem.outside, idOf0, open0) && tok == Values(slot, cells);
      Take(g);
      TakenReads(net, slot, cells, mem.cells, mem.outside, idOf0, open0, g);
      ok, xs := TryRead(refs);
      if ok { ReadBacked(refs, xs, T.Held(net.gates[g].ins, g, 0, tok), cells, mem.cells); }
    }

    method Take(g: nat)
      requires Valid() && T.Full(net, g, Now().tok)
      modifies this, mem
      ensures Valid() && Now() == T.Fire(old(Now()), g) && mem.slot == OtherGates(old(mem.slot), g)
      ensures open == old(open) && idOf == old(idOf) && mem.outside == old(mem.outside)
      ensures Kept(mem.outside, old(mem.cells), mem.cells) && NoneNew(old(mem.cells), mem.cells)
    {
      LinkedTaken(net, mem.slot, mem.outside, idOf, open, g);
      Absorb(net, g, mem);
      fires := fires + multiset{g};
    }

    method TryRead(refs: seq<Ref<V>>) returns (ok: bool, xs: seq<V>)
      ensures ok <==> forall r :: r in refs ==> Live(r, mem.cells)
      ensures ok ==> Backed(refs, xs, mem.cells)
    {
      xs := [];
      for i := 0 to |refs|
        invariant Backed(refs[..i], xs, mem.cells)
      {
        if !Live(refs[i], mem.cells) {
          return false, [];
        }
        xs := xs + [Value(refs[i], mem.cells)];
      }
      assert refs[..|refs|] == refs;
      ok := true;
    }

    /** A drive with a value that is created for it and given back when the drive has returned.  It reads only values in
        memory exactly when every gate that fires on the way fires safely, and then it computes its function. */
    method DriveNew(w: W, v: V) returns (ok: bool)
      requires Valid() && OnceDrive(net, h, Now(), w, v)
      modifies this, mem
      ensures ok <==> SafeDrive(net, h, old(Now()), w, v, old(open))
      ensures ok ==> Valid() && Now() == T.Drive(net, h, old(Now()), w, v)
      ensures ok ==>
        Same(old(open), old(idOf), old(mem.outside), old(mem.cells), open, idOf, mem.outside, mem.cells)
      decreases h(w), 7
    {
      ghost var open0, idOf0, outside, cells := open, idOf, mem.outside, mem.cells;
      var id := Begin(w, v);
      ghost var cells1 := mem.cells;
      ok := NotifyAll(w, id, v);
      if ok {
        ghost var idOf2, cells2 := idOf, mem.cells;
        End(w, id);
        SameAfter(open0, idOf0, outside, cells, w, id, cells1, idOf2, cells2, mem.cells);
      }
    }

    method NotifyAll(w: W, id: nat, ghost v: V) returns (ok: bool)
      requires Valid() && w in open && idOf[w] == id && id in mem.cells && mem.cells[id].v == v
      requires OnceNotify(net, h, Now(), w, v, Taps(net, w))
      modifies this, mem
      ensures ok <==> SafeNotify(net, h, old(Now()), w, v, Taps(net, w), old(open))
      ensures ok ==> Valid() && Now() == T.Notify(net, h, old(Now()), w, v, Taps(net, w))
      ensures ok ==>
        Same(old(open), old(idOf), old(mem.outside), old(mem.cells), open, idOf, mem.outside, mem.cells)
      decreases h(w), 6
    {
      var left := Taps(net, w);
      ok := true;
      while left != []
        invariant ok && Valid() && open == old(open) && Extends(old(idOf), idOf) && mem.outside == old(mem.outside)
        invariant Kept(mem.outside, old(mem.cells), mem.cells)
        invariant idOf[w] == id && id in mem.cells && mem.cells[id].v == v
        invariant (forall i :: 0 <= i < |left| ==> IsTap(net, w, left[i])) && OnceNotify(net, h, Now(), w, v, left)
        invariant T.Notify(net, h, Now(), w, v, left) == T.Notify(net, h, old(Now()), w, v, Taps(net, w))
        invariant SafeNotify(net, h, Now(), w, v, left, open) <==>
                  SafeNotify(net, h, old(Now()), w, v, Taps(net, w), open)
        decreases |left|
      {
        ghost var cells := mem.cells;
        ok := NotifyOne(left[0], w, id, v, left);
        if !ok {
          return;
        }
        KeptTrans(mem.outside, old(mem.cells), cells, mem.cells);
        left := left[1..];
      }
    }

    // The turn of one port; taps are those that are left, t the first of them.
    method NotifyOne(t: Tap, ghost w: W, id: nat, ghost v: V, ghost taps: seq<Tap>) returns (ok: bool)
      requires Valid() && w in open && idOf[w] == id && id in mem.cells && mem.cells[id].v == v
      requires taps != [] && taps[0] == t && forall i :: 0 <= i < |taps| ==> IsTap(net, w, taps[i])
      requires OnceNotify(net, h, Now(), w, v, taps)
      modifies this, mem
      ensures !ok ==> !SafeNotify(net, h, old(Now()), w, v, taps, old(open))
      ensures ok ==> Valid() && OnceNotify(net, h, Now(), w, v, taps[1..])
      ensures ok ==> T.Notify(net, h, Now(), w, v, taps[1..]) == T.Notify(net, h, old(Now()), w, v, taps)
      ensures ok ==>
        (SafeNotify(net, h, Now(), w, v, taps[1..], open) <==> SafeNotify(net, h, old(Now()), w, v, taps, old(open)))
      ensures ok ==>
        Same(old(open), old(idOf), old(mem.outside), old(mem.cells), open, idOf, mem.outside, mem.cells)
      ensures ok ==> w in open && idOf[w] == id && id in mem.cells && mem.cells[id].v == v
      decreases h(w), 5
    {
      assert Reads(net, t.gate, w) && id in mem.outside;
      ok := Deliver(t, w, id, v, h(w));
    }

    method Deliver(t: Tap, ghost w: W, id: nat, ghost v: V, ghost bound: nat) returns (ok: bool)
      requires Valid() && IsTap(net, w, t) && w in open && idOf[w] == id && id in mem.cells && mem.cells[id].v == v
      requires forall j, o :: Drives(net, t.gate, j, o) ==> h(o) < bound
      requires OnceExecute(net, h, T.Deliver(Now(), t, v), t.gate, bound)
      modifies this, mem
      ensures ok <==> SafeExecute(net, h, T.Deliver(old(Now()), t, v), t.gate, bound, old(open))
      ensures ok ==> Valid() && Now() == T.Execute(net, h, T.Deliver(old(Now()), t, v), t.gate, bound)
      ensures ok ==>
        Same(old(open), old(idOf), old(mem.outside), old(mem.cells), open, idOf, mem.outside, mem.cells)
      decreases bound, 4
    {
      LinkedGiven(net, mem.slot, mem.outside, idOf, open, t, w);
      mem.Import(t, Counted(id));
      ok := true;
      if net.gates[t.gate].enabled {
        ok := Execute(t.gate, bound);
      }
    }

    method Execute(g: nat, ghost bound: nat) returns (ok: bool)
      requires Valid() && g < |net.gates| && net.gates[g].enabled
      requires forall j, o :: Drives(net, g, j, o) ==> h(o) < bound
      requires OnceExecute(net, h, Now(), g, bound)
      modifies this, mem
      ensures ok <==> SafeExecute(net, h, old(Now()), g, bound, old(open))
      ensures ok ==> Valid() && Now() == T.Execute(net, h, old(Now()), g, bound)
      ensures ok ==>
        Same(old(open), old(idOf), old(mem.outside), old(mem.cells), open, idOf, mem.outside, mem.cells)
      decreases bound, 3
    {
      var complete, refs := Look(net, g, mem);
      ok := true;
      if complete {
        var xs;
        ok, xs := Accept(g, refs);
        if ok {
          ok := Spread(g, xs, bound);
        }
      }
    }

    method Spread(g: nat, xs: seq<V>, ghost bound: nat) returns (ok: bool)
      requires Valid() && g < |net.gates|
      requires forall j, o :: Drives(net, g, j, o) ==> h(o) < bound
      requires OnceEmit(net, h, Now(), g, bound, xs, 0)
      modifies this, mem
      ensures ok <==> SafeEmit(net, h, old(Now()), g, bound, xs, 0, old(open))
      ensures ok ==> Valid() && Now() == T.Emit(net, h, old(Now()), g, bound, xs, 0)
      ensures ok ==>
        Same(old(open), old(idOf), old(mem.outside), old(mem.cells), open, idOf, mem.outside, mem.cells)
      decreases bound, 2
    {
      var os := net.gates[g].f(xs);
      for j := 0 to |net.gates[g].outs|
        invariant Valid()
        invariant Same(old(open), old(idOf), old(mem.outside), old(mem.cells), open, idOf, mem.outside, mem.cells)
        invariant OnceEmit(net, h, Now(), g, bound, xs, j)
        invariant T.Emit(net, h, Now(), g, bound, xs, j) == T.Emit(net, h, old(Now()), g, bound, xs, 0)
        invariant SafeEmit(net, h, Now(), g, bound, xs, j, open) <==> SafeEmit(net, h, old(Now()), g, bound, xs, 0, open)
      {
        ok := PutOut(g, xs, j, if j < |os| then os[j] else Nothing, bound);
        if !ok {
          return;
        }
      }
      ok := true;
    }

    method PutOut(g: nat, ghost xs: seq<V>, j: nat, o: Output<V>, ghost bound: nat) returns (ok: bool)
      requires Valid() && g < |net.gates| && j < |net.gates[g].outs|
      requires var os := net.gates[g].f(xs); o == if j < |os| then os[j] else Nothing
      requires forall j, o :: Drives(net, g, j, o) ==> h(o) < bound
      requires OncePut(net, h, Now(), g, bound, xs, j)
      modifies this, mem
      ensures ok <==> SafePut(net, h, old(Now()), g, bound, xs, j, old(open))
      ensures ok ==> Valid() && Now() == T.Put(net, h, old(Now()), g, bound, xs, j)
      ensures ok ==>
        Same(old(open), old(idOf), old(mem.outside), old(mem.cells), open, idOf, mem.outside, mem.cells)
      decreases bound, 1
    {
      ok := true;
      var port := net.gates[g].outs[j];
      if port.Some? && o.Fresh? {
        assert Drives(net, g, j, port.value);
        if Guarded(net.gates[g], j, o.v) {
          ok := DriveNew(port.value, o.v);
        }
      }
    }

    /** A whole round of sources, each driven once: every value that a gate reads is in memory exactly when the round
        is safe, and then the round computes its function and leaves no reference of its own. */
    method Round(drives: seq<(W, V)>) returns (ok: bool)
      requires Valid() && open == {} && Now() == T.Tokens(map[], map[], multiset{})
      requires T.OncePerSource(net, drives)
      modifies this, mem
      ensures ok <==> SafeRound(net, h, drives)
      ensures ok ==> Valid() && Now() == T.Round(net, h, drives) && open == {} && mem.outside == old(mem.outside)
    {
      for i := 0 to |drives|
        invariant Valid() && open == {} && mem.outside == old(mem.outside)
        invariant Now() == T.Round(net, h, drives[..i]) && SafeRound(net, h, drives[..i])
      {
        NextOnce(net, h, drives, i);
        RoundNext(net, h, drives, i);
        ok := DriveNew(drives[i].0, drives[i].1);
        if !ok {
          SafePrefix(net, h, drives, i + 1);
          return;
        }
      }
      assert drives[..|drives|] == drives;
      ok := true;
    }
  }
}
