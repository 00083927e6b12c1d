/** The books of a circuit with queued notifications: in every run each count is the number of slots, queued
    and posted tasks, calls in progress and clients that hold the value, and no step touches freed memory. */
module QueuedBooks {
  import opened Circuit
  import opened Options
  import opened ReferenceCounts
  import opened DirectBoard
  import opened QueuedBoard

  // No gate hands on the value of an input.
  ghost predicate NoPass<W(!new), V(!new)>(c: Net<W, V>) {
    forall g, xs, j :: 0 <= g < |c.gates| && 0 <= j < |c.gates[g].f(xs)| ==> !c.gates[g].f(xs)[j].Pass?
  }

  // ----- who keeps the values of the calls in progress in memory

  // The value of a handle: a constant, one the gate owns, or one that an input wire of the gate holds.
  ghost predicate HandleOk<W(!new), V>(c: Net<W, V>, h: W -> nat, s: State<W, V>, g: nat, hd: Handle<V>)
    requires g < |c.gates|
  {
    hd.Lent? && hd.r.Counted? ==> Acyclic(c, h) && exists x :: x in Wired(c.gates[g].ins) && x in s.slot && s.slot[x] == hd.r
  }

  // The value that is handed to the drivens of w: a constant, one that a client or an outer call holds,
  // or one that the wire still holds.
  ghost predicate ValueOk<W(!new), V>(c: Net<W, V>, h: W -> nat, s: State<W, V>, i: nat, w: W, r: Ref<V>)
    requires i <= |s.stack|
  {
    r.Static? || r.id in s.client + StackRefs(s.stack[..i]) || (Acyclic(c, h) && w in s.slot && s.slot[w] == r)
  }

  // Gate and port numbers are in range.
  ghost predicate InRange<W(!new), V>(c: Net<W, V>, f: Frame<W, V>) {
    match f
    case Notifying(w, _, taps) => forall k :: 0 <= k < |taps| ==> IsTap(c, w, taps[k])
    case Driving(g, hs, j, driven) => g < |c.gates| && j <= |hs| == |c.gates[g].outs| && (driven ==> j < |hs|)
    case Draining(t, _) => t.gate < |c.gates|
    case Posted(t, _) => t.gate < |c.gates|
  }

  ghost predicate FrameOk<W(!new), V>(c: Net<W, V>, h: W -> nat, s: State<W, V>, i: nat)
    requires i < |s.stack|
  {
    && InRange(c, s.stack[i])
    && match s.stack[i]
       case Notifying(w, r, taps) => ValueOk(c, h, s, i, w, r)
       case Driving(g, hs, j, driven) => forall k :: j <= k < |hs| ==> HandleOk(c, h, s, g, hs[k])
       case _ => true
  }

  ghost predicate FramesOk<W(!new), V>(c: Net<W, V>, h: W -> nat, s: State<W, V>) {
    forall i :: 0 <= i < |s.stack| ==> FrameOk(c, h, s, i)
  }

  // ----- inner calls only drive wires below

  // Everything gate g drives lies below b.
  ghost predicate GateBelow<W(!new), V>(c: Net<W, V>, h: W -> nat, g: nat, b: nat) {
    forall j, o :: Drives(c, g, j, o) ==> h(o) < b
  }

  ghost predicate FrameBelow<W(!new), V>(c: Net<W, V>, h: W -> nat, f: Frame<W, V>, b: nat) {
    match f
    case Notifying(w, _, _) => h(w) < b
    case Driving(g, _, _, _) => GateBelow(c, h, g, b)
    case Draining(t, _) => GateBelow(c, h, t.gate, b)
    case Posted(t, _) => GateBelow(c, h, t.gate, b)
  }

  ghost predicate TasksBelow<W(!new), V>(c: Net<W, V>, h: W -> nat, ts: seq<Task<V>>, b: nat) {
    forall k :: 0 <= k < |ts| ==> GateBelow(c, h, ts[k].gate, b)
  }

  // Calls inside the notification of w, and tasks that such a call will run, only drive wires below w.
  ghost predicate Descends<W(!new), V>(c: Net<W, V>, h: W -> nat, s: State<W, V>) {
    forall i, k :: 0 <= i < k < |s.stack| && s.stack[i].Notifying? ==>
      && FrameBelow(c, h, s.stack[k], h(s.stack[i].w))
      && (s.stack[k].Draining? ==> TasksBelow(c, h, Queued(s), h(s.stack[i].w)))
  }

  // ----- the shape of the stack

  // A gate's call goes on only inside a drive of the port it is at.
  ghost predicate Nested<W(!new), V>(c: Net<W, V>, s: State<W, V>) {
    forall i :: 0 <= i < |s.stack| - 1 && s.stack[i].Driving? ==>
      s.stack[i].driven && s.stack[i + 1].Notifying? && Drives(c, s.stack[i].gate, s.stack[i].j, s.stack[i + 1].w)
  }

  // There is a queue exactly during the outermost call of the loop breaker.
  ghost predicate OneDrain<W, V>(s: State<W, V>) {
    && (s.queue.Some? <==> exists i :: 0 <= i < |s.stack| && s.stack[i].Draining?)
    && (forall i, k :: 0 <= i < k < |s.stack| && s.stack[i].Draining? ==> !s.stack[k].Draining?)
  }

  ghost predicate TasksOk<W, V>(c: Net<W, V>, ts: seq<Task<V>>) {
    forall k :: 0 <= k < |ts| ==> ts[k].gate < |c.gates|
  }

  // A call that runs a task is inside a call of its code or about to make or end it.
  ghost predicate Shape<W(!new), V>(c: Net<W, V>, s: State<W, V>) {
    && Nested(c, s) && OneDrain(s) && TasksOk(c, Queued(s)) && TasksOk(c, s.posted)
    && (forall i :: 0 <= i < |s.stack| - 1 && (s.stack[i].Draining? || s.stack[i].Posted?) ==> s.stack[i].ran)
  }

  ghost predicate Books<W(!new), V>(s: State<W, V>) {
    Balanced(s.slot, s.cells, Outside(s)) && forall id :: id in s.cells ==> id < s.next
  }

  ghost predicate Calls<W(!new), V>(c: Net<W, V>, h: W -> nat, s: State<W, V>) {
    FramesOk(c, h, s) && Shape(c, s) && (Acyclic(c, h) ==> Descends(c, h, s))
  }

  ghost predicate Inv<W(!new), V>(c: Net<W, V>, h: W -> nat, s: State<W, V>) {
    Books(s) && Calls(c, h, s)
  }

  // ----- references outside the slots

  // The references of s when those of its stack, queue and posted tasks are a, b and c.
  lemma Sum(client: multiset<nat>, a: multiset<nat>, b: multiset<nat>, c: multiset<nat>, x: multiset<nat>)
    ensures client + x + a + b + c == client + a + b + c + x
    ensures client + (a + x) + b + c == client + a + b + c + x
    ensures client + a + (b + x) + c == client + a + b + c + x
    ensures client + a + (x + b) + c == client + a + b + c + x
    ensures client + a + b + (c + x) == client + a + b + c + x
    ensures client + a + b + (x + c) == client + a + b + c + x
  {
  }

  lemma PushOutside<W, V>(s: State<W, V>, f: Frame<W, V>)
    ensures Outside(Push(s, f)) == Outside(s) + FrameRefs(f)
  {
    StackSnoc(s.stack, f);
    Sum(s.client, StackRefs(s.stack), TaskRefs(Queued(s)), TaskRefs(s.posted), FrameRefs(f));
  }

  lemma PopOutside<W, V>(s: State<W, V>)
    requires s.stack != []
    ensures Outside(s) == Outside(Pop(s)) + FrameRefs(Inner(s))
    ensures FrameRefs(Inner(s)) <= Outside(s)
  {
    Sum(s.client, StackRefs(Outer(s)), TaskRefs(Queued(s)), TaskRefs(s.posted), FrameRefs(Inner(s)));
  }

  lemma ReplaceOutside<W, V>(s: State<W, V>, f: Frame<W, V>)
    requires s.stack != []
    ensures Outside(Replace(s, f)) == Outside(Pop(s)) + FrameRefs(f)
  {
    PushOutside(Pop(s), f);
  }

  lemma EnqueueOutside<W, V>(s: State<W, V>, t: Task<V>)
    ensures Outside(s.(queue := Some(Queued(s) + [t]))) == Outside(s) + One(t.r)
  {
    TasksConcat(Queued(s), [t]);
    assert TaskRefs([t]) == One(t.r);
    Sum(s.client, StackRefs(s.stack), TaskRefs(Queued(s)), TaskRefs(s.posted), One(t.r));
  }

  lemma DequeueOutside<W, V>(s: State<W, V>)
    requires Queued(s) != []
    ensures Outside(s) == Outside(s.(queue := Some(Queued(s)[1..]))) + One(Queued(s)[0].r)
  {
    Sum(s.client, StackRefs(s.stack), TaskRefs(Queued(s)[1..]), TaskRefs(s.posted), One(Queued(s)[0].r));
  }

  lemma PostOutside<W, V>(s: State<W, V>, t: Task<V>)
    ensures Outside(s.(posted := s.posted + [t])) == Outside(s) + One(t.r)
  {
    TasksConcat(s.posted, [t]);
    assert TaskRefs([t]) == One(t.r);
    Sum(s.client, StackRefs(s.stack), TaskRefs(Queued(s)), TaskRefs(s.posted), One(t.r));
  }

  lemma TakeOutside<W, V>(s: State<W, V>, i: nat)
    requires i < |s.posted|
    ensures Outside(s) == Outside(s.(posted := s.posted[..i] + s.posted[i + 1..])) + One(s.posted[i].r)
  {
    TakeRefs(s.posted, i);
    Sum(s.client, StackRefs(s.stack), TaskRefs(Queued(s)), TaskRefs(s.posted[..i] + s.posted[i + 1..]), One(s.posted[i].r));
  }

  lemma {:induction false} TakeRefs<V>(ts: seq<Task<V>>, i: nat)
    requires i < |ts|
    ensures TaskRefs(ts) == One(ts[i].r) + TaskRefs(ts[..i] + ts[i + 1..])
  {
    TasksConcat(ts[..i], ts[i..]);
    TasksConcat(ts[..i], ts[i + 1..]);
    assert ts[..i] + ts[i..] == ts && ts[i..][1..] == ts[i + 1..];
  }

  lemma ClientOutside<W, V>(s: State<W, V>, x: multiset<nat>)
    ensures Outside(s.(client := s.client + x)) == Outside(s) + x
  {
    Sum(s.client, StackRefs(s.stack), TaskRefs(Queued(s)), TaskRefs(s.posted), x);
  }

  // ----- when a step is safe

  ghost predicate AllInRange<W(!new), V>(c: Net<W, V>, s: State<W, V>) {
    (forall i :: 0 <= i < |s.stack| ==> InRange(c, s.stack[i])) && TasksOk(c, Queued(s)) && TasksOk(c, s.posted)
  }

  // What the innermost call is about to hand on without a reference of its own: the value of a wire, to a
  // gate that is notified by a task, or the value of an input, to the wire of an output.
  ghost function HandedOn<W(!new), V>(c: Net<W, V>, mode: nat -> Mode, s: State<W, V>): Option<Ref<V>>
    requires s.stack != []
  {
    match Inner(s)
    case Notifying(_, r, taps) => if taps != [] && Queues(c, mode, taps[0].gate) then Some(r) else None
    case Driving(g, hs, j, driven) =>
      if g < |c.gates| && j < |hs| && j < |c.gates[g].outs| && !driven && c.gates[g].outs[j].Some? && hs[j].Lent?
      then Some(hs[j].r) else None
    case _ => None
  }

  // A constant, or a value that a slot, a task, a call in progress or a client holds.
  ghost predicate IsHeld<W(!new), V>(s: State<W, V>, r: Ref<V>) {
    r.Static? || r.id in Outside(s) || exists w :: w in s.slot && s.slot[w] == r
  }

  lemma LiveIffHeld<W(!new), V>(s: State<W, V>, r: Ref<V>)
    requires Books(s)
    ensures Live(r, s.cells) <==> IsHeld(s, r)
  {
    if r.Counted? { InMemoryIffHeld(s.slot, s.cells, Outside(s), r.id); }
  }

  // Everything else that the innermost call touches is its own.
  lemma OwnLive<W(!new), V>(c: Net<W, V>, s: State<W, V>)
    requires Books(s) && AllInRange(c, s) && s.stack != []
    ensures Inner(s).Draining? || Inner(s).Posted? ==> Live(Inner(s).task.r, s.cells)
    ensures var f := Inner(s); f.Driving? && f.j < |f.hs| && f.hs[f.j].Made? ==> f.hs[f.j].id in s.cells
  {
    PopOutside(s);
    match Inner(s) {
      case Notifying(_, _, _) =>
      case Driving(g, hs, j, _) => if j < |hs| && hs[j].Made? { MadeLive(s, hs, j); }
      case Draining(t, _) => TaskLive(s, t);
      case Posted(t, _) => TaskLive(s, t);
    }
  }

  // The step of the call on top of the stack touches only values in memory.
  lemma SafeIff<W(!new), V>(c: Net<W, V>, mode: nat -> Mode, s: State<W, V>)
    requires AllInRange(c, s) && s.stack != []
    requires Inner(s).Draining? || Inner(s).Posted? ==> Live(Inner(s).task.r, s.cells)
    requires var f := Inner(s); f.Driving? && f.j < |f.hs| && f.hs[f.j].Made? ==> f.hs[f.j].id in s.cells
    ensures SafeInner(c, mode, s) <==> (HandedOn(c, mode, s).Some? ==> Live(HandedOn(c, mode, s).value, s.cells))
  {
    assert InRange(c, s.stack[|s.stack| - 1]);
    if Inner(s).Notifying? && Inner(s).taps != [] { assert IsTap(c, Inner(s).w, Inner(s).taps[0]); }
  }

  /** Whatever the circuit: the next step of the innermost call touches only values in memory exactly when
      what it hands on, if anything, is held by someone. */
  lemma ProceedSafeIff<W(!new), V>(c: Net<W, V>, mode: nat -> Mode, s: State<W, V>)
    requires Books(s) && AllInRange(c, s) && s.stack != []
    ensures Safe(c, mode, s, Proceed) <==> (HandedOn(c, mode, s).Some? ==> IsHeld(s, HandedOn(c, mode, s).value))
  {
    OwnLive(c, s);
    SafeIff(c, mode, s);
    if HandedOn(c, mode, s).Some? { LiveIffHeld(s, HandedOn(c, mode, s).value); }
  }

  lemma MadeLive<W(!new), V>(s: State<W, V>, hs: seq<Handle<V>>, j: nat)
    requires Books(s) && j < |hs| && hs[j].Made? && Owned(hs[j..]) <= Outside(s)
    ensures hs[j].id in s.cells
  {
    OwnedHead(hs, j, multiset{});
    assert hs[j].id in Outside(s);
  }

  lemma TaskLive<W(!new), V>(s: State<W, V>, t: Task<V>)
    requires Books(s) && One(t.r) <= Outside(s)
    ensures Live(t.r, s.cells)
  {
    if t.r.Counted? { assert t.r.id in One(t.r) && t.r.id in Outside(s); }
  }

  // Clients and workers only use what is held.
  lemma OuterSafe<W(!new), V>(c: Net<W, V>, mode: nat -> Mode, s: State<W, V>, a: Action<W, V>)
    requires Books(s) && Enabled(c, s, a) && !a.Proceed?
    ensures Safe(c, mode, s, a)
  {
    assert forall id :: id in s.client ==> id in Outside(s);
  }

  // The invariant keeps what is handed on in memory.
  lemma InvHeld<W(!new), V>(c: Net<W, V>, h: W -> nat, mode: nat -> Mode, s: State<W, V>)
    requires Inv(c, h, s) && s.stack != [] && HandedOn(c, mode, s).Some?
    ensures AllInRange(c, s) && IsHeld(s, HandedOn(c, mode, s).value)
  {
    InvInRange(c, h, s);
    assert FrameOk(c, h, s, |s.stack| - 1);
    if Inner(s).Notifying? {
      var r := Inner(s).r;
      if r.Counted? && r.id in s.client + StackRefs(Outer(s)) {
        PopOutside(s);
        assert r.id in Outside(s);
      }
    } else {
      assert HandleOk(c, h, s, Inner(s).gate, Inner(s).hs[Inner(s).j]);
    }
  }

  lemma InvInRange<W(!new), V>(c: Net<W, V>, h: W -> nat, s: State<W, V>)
    requires Calls(c, h, s)
    ensures AllInRange(c, s)
  {
    forall i | 0 <= i < |s.stack| ensures InRange(c, s.stack[i]) {
      assert FrameOk(c, h, s, i);
    }
  }

  /** So under the invariant every step is safe. */
  lemma InvSafe<W(!new), V>(c: Net<W, V>, h: W -> nat, mode: nat -> Mode, s: State<W, V>, a: Action<W, V>)
    requires Inv(c, h, s) && Enabled(c, s, a)
    ensures Safe(c, mode, s, a)
  {
    if a.Proceed? {
      InvInRange(c, h, s);
      ProceedSafeIff(c, mode, s);
      if HandedOn(c, mode, s).Some? { InvHeld(c, h, mode, s); }
    } else {
      OuterSafe(c, mode, s, a);
    }
  }

  // ----- the books

  // What a step does to the books: nothing, or one reference more, or one less, or an import.
  ghost predicate Moves<W(!new), V>(s: State<W, V>, s': State<W, V>) {
    s'.slot == s.slot && s'.cells == s.cells && s'.next == s.next && Outside(s') == Outside(s)
  }

  ghost predicate References<W(!new), V>(s: State<W, V>, s': State<W, V>, r: Ref<V>) {
    && Live(r, s.cells) && s'.slot == s.slot && s'.cells == Referenced(s.cells, r) && s'.next == s.next
    && Outside(s') == Outside(s) + One(r)
  }

  ghost predicate Drops<W(!new), V>(s: State<W, V>, s': State<W, V>, r: Ref<V>) {
    && Live(r, s.cells) && s'.slot == s.slot && s'.cells == Dropped(s.cells, r) && s'.next == s.next
    && Outside(s) == Outside(s') + One(r)
  }

  ghost predicate Imports<W(!new), V>(s: State<W, V>, s': State<W, V>, w: W, r: Ref<V>) {
    && Live(r, s.cells) && (w in s.slot ==> Live(s.slot[w], s.cells)) && s'.slot == s.slot[w := r]
    && s'.cells == Imported(s.slot, s.cells, w, r) && s'.next == s.next && Outside(s') == Outside(s)
  }

  lemma BooksMoved<W(!new), V>(s: State<W, V>, s': State<W, V>)
    requires Books(s) && Moves(s, s')
    ensures Books(s')
  {
  }

  lemma BooksReferenced<W(!new), V>(s: State<W, V>, s': State<W, V>, r: Ref<V>)
    requires Books(s) && References(s, s', r)
    ensures Books(s')
  {
    ReferencedBalanced(s.slot, s.cells, Outside(s), r);
  }

  lemma LessBalanced<W(!new), V>(
    slot: map<W, Ref<V>>, cells: map<nat, Cell<V>>, outside: multiset<nat>, rest: multiset<nat>, r: Ref<V>)
    requires Balanced(slot, cells, outside) && Live(r, cells) && outside == rest + One(r)
    ensures Balanced(slot, Dropped(cells, r), rest)
  {
    DroppedBalanced(slot, cells, outside, r);
    assert outside - One(r) == rest;
  }

  lemma DroppedKeys<V>(cells: map<nat, Cell<V>>, r: Ref<V>)
    requires Live(r, cells)
    ensures Dropped(cells, r).Keys <= cells.Keys
  {
  }

  lemma BooksDropped<W(!new), V>(s: State<W, V>, s': State<W, V>, r: Ref<V>)
    requires Books(s) && Drops(s, s', r)
    ensures Books(s')
  {
    LessBalanced(s.slot, s.cells, Outside(s), Outside(s'), r);
    DroppedKeys(s.cells, r);
  }

  lemma BooksImported<W(!new), V>(s: State<W, V>, s': State<W, V>, w: W, r: Ref<V>)
    requires Books(s) && Imports(s, s', w, r)
    ensures Books(s')
  {
    ImportedBalanced(s.slot, s.cells, Outside(s), w, r);
    ImportedValues(s.slot, s.cells, Outside(s), w, r);
  }

  // What a firing creates is owned by its call.
  lemma {:induction false} OwnedBorn<V>(os: seq<Output<V>>, refs: seq<Ref<V>>, next: nat, n: nat, j: nat, id: nat)
    requires j <= n
    ensures Owned(Handles(os, refs, next, n)[j..])[id] == if next + j <= id && Creates(os, n, next, id) then 1 else 0
    decreases n - j
  {
    var hs := Handles(os, refs, next, n);
    if j < n {
      OwnedBorn(os, refs, next, n, j + 1, id);
      OwnedHead(hs, j, multiset{});
      OwnedFor(os, refs, next, n, j, id);
    }
  }

  lemma OwnedFor<V>(os: seq<Output<V>>, refs: seq<Ref<V>>, next: nat, n: nat, j: nat, id: nat)
    requires j < n
    ensures Owned([HandleFor(os, refs, next, j)])[id] == if id == next + j && Creates(os, n, next, id) then 1 else 0
  {
    var hd := HandleFor(os, refs, next, j);
    assert [hd][1..] == [];
    assert hd.Made? <==> j < |os| && os[j].Fresh?;
  }

  lemma BornBalanced<W(!new), V>(
    slot: map<W, Ref<V>>, cells: map<nat, Cell<V>>, outside: multiset<nat>, own: multiset<nat>,
    os: seq<Output<V>>, next: nat, n: nat)
    requires Balanced(slot, cells, outside) && (forall id :: id in cells ==> id < next)
    requires forall id :: own[id] == if Creates(os, n, next, id) then 1 else 0
    ensures Balanced(slot, cells + Born(os, n, next), outside + own)
  {
    var cells', outside' := cells + Born(os, n, next), outside + own;
    forall id: nat ensures Counts(slot, cells', outside', id) && (id in outside' ==> id in cells') {
      BornCounts(slot, cells, outside, own, os, next, n, id);
    }
  }

  lemma BornCounts<W(!new), V>(
    slot: map<W, Ref<V>>, cells: map<nat, Cell<V>>, outside: multiset<nat>, own: multiset<nat>,
    os: seq<Output<V>>, next: nat, n: nat, id: nat)
    requires Balanced(slot, cells, outside) && (forall id :: id in cells ==> id < next)
    requires own[id] == if Creates(os, n, next, id) then 1 else 0
    ensures Counts(slot, cells + Born(os, n, next), outside + own, id)
    ensures id in outside + own ==> id in cells + Born(os, n, next)
  {
    assert Counts(slot, cells, outside, id);
    if id >= next {
      assert id !in outside && Holders(slot, id) == {};
    }
  }

  lemma BooksBorn<W(!new), V>(s: State<W, V>, s': State<W, V>, os: seq<Output<V>>, refs: seq<Ref<V>>, n: nat)
    requires Books(s) && s'.slot == s.slot && s'.cells == s.cells + Born(os, n, s.next) && s'.next == s.next + n
    requires Outside(s') == Outside(s) + Owned(Handles(os, refs, s.next, n))
    ensures Books(s')
  {
    var hs := Handles(os, refs, s.next, n);
    assert hs[0..] == hs;
    forall id: nat ensures Owned(hs)[id] == if Creates(os, n, s.next, id) then 1 else 0 {
      OwnedBorn(os, refs, s.next, n, 0, id);
    }
    BornBalanced(s.slot, s.cells, Outside(s), Owned(hs), os, s.next, n);
  }

  lemma FiredBooks<W(!new), V>(s: State<W, V>, g: nat, os: seq<Output<V>>, refs: seq<Ref<V>>, n: nat)
    requires Books(s)
    ensures Books(Fired(s, g, os, refs, n))
  {
    var hs := Handles(os, refs, s.next, n);
    PushOutside(s.(cells := s.cells + Born(os, n, s.next), next := s.next + n), Driving(g, hs, 0, false));
    assert hs[0..] == hs;
    BooksBorn(s, Fired(s, g, os, refs, n), os, refs, n);
  }

  lemma FireBooks<W(!new), V>(c: Net<W, V>, s: State<W, V>, g: nat)
    requires Books(s) && g < |c.gates|
    ensures Books(Fire(c, s, g)) && Books(Execute(c, s, g))
  {
    var gate, val := c.gates[g], Values(s.slot, s.cells);
    if Ready(gate, val) {
      FiredBooks(s, g, gate.f(Inputs(gate, val)), PointersOf(s.slot, Wired(gate.ins)), |gate.outs|);
    }
  }

  lemma NotifyReferences<W(!new), V>(c: Net<W, V>, mode: nat -> Mode, s: State<W, V>, g: nat, r: Ref<V>)
    requires g < |c.gates| && AllLive(s.slot, s.cells) && Live(r, s.cells) && mode(g) != AtOnce
    ensures References(s, Notify(c, mode, s, g, r), r)
  {
    if mode(g) == Posting {
      PostOutside(s.(cells := Referenced(s.cells, r)), Task(g, r));
    } else {
      BreakerReferences(c, mode, s, g, r);
    }
  }

  lemma BreakerReferences<W(!new), V>(c: Net<W, V>, mode: nat -> Mode, s: State<W, V>, g: nat, r: Ref<V>)
    requires g < |c.gates| && AllLive(s.slot, s.cells) && Live(r, s.cells) && mode(g) == Breaker
    ensures References(s, Notify(c, mode, s, g, r), r)
  {
    var s1 := s.(cells := Referenced(s.cells, r));
    if s.queue.None? {
      PushOutside(s1.(queue := Some([])), Draining(Task(g, r), false));
    } else {
      EnqueueOutside(s1, Task(g, r));
    }
  }

  lemma NotifyBooks<W(!new), V>(c: Net<W, V>, mode: nat -> Mode, s: State<W, V>, g: nat, r: Ref<V>)
    requires Books(s) && g < |c.gates| && Handable(mode, s, g, r)
    ensures Books(Notify(c, mode, s, g, r))
  {
    if mode(g) == AtOnce {
      FireBooks(c, s, g);
    } else {
      NotifyReferences(c, mode, s, g, r);
      BooksReferenced(s, Notify(c, mode, s, g, r), r);
    }
  }

  lemma DriveWireBooks<W(!new), V>(c: Net<W, V>, s: State<W, V>, w: W, r: Ref<V>)
    requires Books(s) && Live(r, s.cells)
    ensures Books(DriveWire(c, s, w, r))
  {
    PushOutside(s.(slot := s.slot[w := r], cells := Imported(s.slot, s.cells, w, r)), Notifying(w, r, Taps(c, w)));
    BooksImported(s, DriveWire(c, s, w, r), w, r);
  }

  lemma PopMoves<W(!new), V>(s: State<W, V>)
    requires s.stack != [] && FrameRefs(Inner(s)) == multiset{}
    ensures Moves(s, Pop(s))
  {
    PopOutside(s);
  }

  lemma ReplaceMoves<W(!new), V>(s: State<W, V>, f: Frame<W, V>)
    requires s.stack != [] && FrameRefs(Inner(s)) == FrameRefs(f)
    ensures Moves(s, Replace(s, f))
  {
    PopOutside(s);
    ReplaceOutside(s, f);
  }

  lemma Regroup(rest: multiset<nat>, x: multiset<nat>, y: multiset<nat>)
    ensures rest + (x + y) == rest + y + x
  {
  }

  lemma PortRefs<W, V>(f: Frame<W, V>)
    requires f.Driving? && f.j < |f.hs|
    ensures FrameRefs(f) == Owned([f.hs[f.j]]) + FrameRefs(f.(j := f.j + 1, driven := false))
  {
    OwnedHead(f.hs, f.j, multiset{});
  }

  lemma GivenStack<W, V>(s: State<W, V>)
    requires s.stack != [] && Inner(s).Driving? && Inner(s).j < |Inner(s).hs|
    requires Inner(s).hs[Inner(s).j].Made? ==> Inner(s).hs[Inner(s).j].id in s.cells
    ensures Outside(Given(s)) == Outside(Replace(s, Inner(s).(j := Inner(s).j + 1, driven := false)))
  {
  }

  // The gate gives back what it created for port j.
  lemma GivenOutside<W, V>(s: State<W, V>)
    requires s.stack != [] && Inner(s).Driving? && Inner(s).j < |Inner(s).hs|
    requires Inner(s).hs[Inner(s).j].Made? ==> Inner(s).hs[Inner(s).j].id in s.cells
    ensures Outside(s) == Outside(Given(s)) + Owned([Inner(s).hs[Inner(s).j]])
  {
    var f := Inner(s);
    var f' := f.(j := f.j + 1, driven := false);
    PopOutside(s);
    ReplaceOutside(s, f');
    PortRefs(f);
    GivenStack(s);
    Regroup(Outside(Pop(s)), Owned([f.hs[f.j]]), FrameRefs(f'));
  }

  lemma GivenMoves<W(!new), V>(s: State<W, V>)
    requires s.stack != [] && Inner(s).Driving? && Inner(s).j < |Inner(s).hs|
    requires Inner(s).hs[Inner(s).j].Made? ==> Inner(s).hs[Inner(s).j].id in s.cells
    ensures !Inner(s).hs[Inner(s).j].Made? ==> Moves(s, Given(s))
    ensures Inner(s).hs[Inner(s).j].Made? ==> Drops(s, Given(s), Counted(Inner(s).hs[Inner(s).j].id))
  {
    GivenOutside(s);
    assert [Inner(s).hs[Inner(s).j]][1..] == [];
    assert Outside(Given(s)) + multiset{} == Outside(Given(s));
  }

  lemma GivenBooks<W(!new), V>(s: State<W, V>)
    requires Books(s) && s.stack != [] && Inner(s).Driving? && Inner(s).j < |Inner(s).hs|
    requires Inner(s).hs[Inner(s).j].Made? ==> Inner(s).hs[Inner(s).j].id in s.cells
    ensures Books(Given(s))
  {
    GivenMoves(s);
    if Inner(s).hs[Inner(s).j].Made? {
      BooksDropped(s, Given(s), Counted(Inner(s).hs[Inner(s).j].id));
    } else {
      BooksMoved(s, Given(s));
    }
  }

  lemma DriveStepBooks<W(!new), V>(c: Net<W, V>, s: State<W, V>)
    requires Books(s) && SafeCall(c, s) && Inner(s).Driving?
    ensures Books(DriveStep(c, s))
  {
    var f := Inner(s);
    if f.j == |f.hs| {
      PopMoves(s);
      BooksMoved(s, Pop(s));
    } else if f.driven {
      GivenBooks(s);
    } else {
      var s1 := Replace(s, f.(driven := true));
      ReplaceMoves(s, f.(driven := true));
      BooksMoved(s, s1);
      if DriveStep(c, s) != s1 {
        DriveWireBooks(c, s1, c.gates[f.gate].outs[f.j].value, Pointer(f.hs[f.j]));
      }
    }
  }

  lemma TaskDoneOutside<W, V>(s: State<W, V>)
    requires s.stack != [] && (Inner(s).Draining? || Inner(s).Posted?) && Live(Inner(s).task.r, s.cells)
    ensures Outside(TaskDone(s)) == Outside(Pop(s))
  {
    var s1 := Pop(s);
    if Inner(s).Draining? && Queued(s) != [] {
      NextOutside(s1);
      assert Outside(TaskDone(s)) == Outside(Push(s1.(queue := Some(Queued(s)[1..])), Draining(Queued(s)[0], false)));
    } else {
      assert Outside(TaskDone(s)) == Outside(s1);
    }
  }

  lemma TaskDoneDrops<W(!new), V>(s: State<W, V>)
    requires s.stack != [] && (Inner(s).Draining? || Inner(s).Posted?) && Live(Inner(s).task.r, s.cells)
    ensures Drops(s, TaskDone(s), Inner(s).task.r)
  {
    PopOutside(s);
    TaskDoneOutside(s);
    TaskDoneFields(s);
    assert FrameRefs(Inner(s)) == One(Inner(s).task.r);
  }

  lemma TaskDoneFields<W(!new), V>(s: State<W, V>)
    requires s.stack != [] && (Inner(s).Draining? || Inner(s).Posted?) && Live(Inner(s).task.r, s.cells)
    ensures var s' := TaskDone(s);
      s'.slot == s.slot && s'.cells == Dropped(s.cells, Inner(s).task.r) && s'.next == s.next
  {
  }

  lemma NextOutside<W, V>(s: State<W, V>)
    requires Queued(s) != []
    ensures Outside(Push(s.(queue := Some(Queued(s)[1..])), Draining(Queued(s)[0], false))) == Outside(s)
  {
    DequeueOutside(s);
    PushOutside(s.(queue := Some(Queued(s)[1..])), Draining(Queued(s)[0], false));
  }

  lemma TaskDoneBooks<W(!new), V>(s: State<W, V>)
    requires Books(s) && s.stack != [] && (Inner(s).Draining? || Inner(s).Posted?) && Live(Inner(s).task.r, s.cells)
    ensures Books(TaskDone(s))
  {
    TaskDoneDrops(s);
    BooksDropped(s, TaskDone(s), Inner(s).task.r);
  }

  lemma BegunBooks<W(!new), V>(s: State<W, V>)
    requires Books(s) && s.stack != [] && (Inner(s).Draining? || Inner(s).Posted?)
    ensures Books(Begun(s))
  {
    ReplaceMoves(s, Inner(s).(ran := true));
    BooksMoved(s, Begun(s));
  }

  lemma RunBooks<W(!new), V>(c: Net<W, V>, s: State<W, V>)
    requires Books(s) && SafeCall(c, s) && (Inner(s).Draining? || Inner(s).Posted?)
    ensures Books(RunStep(c, s))
  {
    if Inner(s).ran {
      TaskDoneBooks(s);
    } else {
      BegunBooks(s);
      FireBooks(c, Begun(s), Inner(s).task.gate);
    }
  }

  lemma TurnBooks<W(!new), V>(c: Net<W, V>, mode: nat -> Mode, s: State<W, V>)
    requires Books(s) && SafeInner(c, mode, s) && Inner(s).Notifying?
    ensures Books(Advance(c, mode, s))
  {
    var f := Inner(s);
    if f.taps == [] {
      PopMoves(s);
      BooksMoved(s, Pop(s));
    } else {
      var s1 := Replace(s, Notifying(f.w, f.r, f.taps[1..]));
      ReplaceMoves(s, Notifying(f.w, f.r, f.taps[1..]));
      BooksMoved(s, s1);
      if c.gates[f.taps[0].gate].enabled { NotifyBooks(c, mode, s1, f.taps[0].gate, f.r); }
    }
  }

  lemma AdvanceBooks<W(!new), V>(c: Net<W, V>, mode: nat -> Mode, s: State<W, V>)
    requires Books(s) && SafeInner(c, mode, s)
    ensures Books(Advance(c, mode, s))
  {
    match Inner(s) {
      case Notifying(_, _, _) => TurnBooks(c, mode, s);
      case Driving(_, _, _, _) => DriveStepBooks(c, s);
      case _ => RunBooks(c, s);
    }
  }

  lemma StepBooks<W(!new), V>(c: Net<W, V>, mode: nat -> Mode, s: State<W, V>, a: Action<W, V>)
    requires Books(s) && Enabled(c, s, a) && Safe(c, mode, s, a)
    ensures Books(Step(c, mode, s, a))
  {
    match a {
      case New(v) => NewBooks(s, v);
      case Hold(w) => HoldBooks(s, s.slot[w]);
      case Give(id) => GiveBooks(s, id);
      case Drive(w, r) =>
        var s1 := s.(log := s.log + [(w, Value(r, s.cells))]);
        BooksMoved(s, s1);
        DriveWireBooks(c, s1, w, r);
      case Kick(g, r) => NotifyBooks(c, mode, s, g, r);
      case Take(i) => TakeBooks(s, i);
      case Proceed => AdvanceBooks(c, mode, s);
    }
  }

  lemma TakeBooks<W(!new), V>(s: State<W, V>, i: nat)
    requires Books(s) && i < |s.posted|
    ensures Books(Push(s.(posted := s.posted[..i] + s.posted[i + 1..]), Posted(s.posted[i], false)))
  {
    var s1 := s.(posted := s.posted[..i] + s.posted[i + 1..]);
    PushOutside(s1, Posted(s.posted[i], false));
    TakeOutside(s, i);
    BooksMoved(s, Push(s1, Posted(s.posted[i], false)));
  }

  lemma NewBooks<W(!new), V>(s: State<W, V>, v: V)
    requires Books(s)
    ensures Books(s.(cells := s.cells[s.next := Cell(v, 1)], next := s.next + 1, client := s.client + multiset{s.next}))
  {
    var s' := s.(cells := s.cells[s.next := Cell(v, 1)], next := s.next + 1, client := s.client + multiset{s.next});
    ClientOutside(s, multiset{s.next});
    NewBalanced(s.slot, s.cells, s.next, Outside(s), v);
    assert Outside(s') == Outside(s) + multiset{s.next};
  }

  lemma NewBalanced<W(!new), V>(slot: map<W, Ref<V>>, cells: map<nat, Cell<V>>, next: nat, outside: multiset<nat>, v: V)
    requires Balanced(slot, cells, outside) && next !in cells
    ensures Balanced(slot, cells[next := Cell(v, 1)], outside + multiset{next})
  {
    assert next !in outside && Holders(slot, next) == {};
    var cells', outside' := cells[next := Cell(v, 1)], outside + multiset{next};
    forall id: nat ensures Counts(slot, cells', outside', id) {
      assert Counts(slot, cells, outside, id);
    }
  }

  lemma HoldBooks<W(!new), V>(s: State<W, V>, r: Ref<V>)
    requires Books(s) && Live(r, s.cells)
    ensures Books(s.(cells := Referenced(s.cells, r), client := s.client + One(r)))
  {
    var s' := s.(cells := Referenced(s.cells, r), client := s.client + One(r));
    ClientOutside(s, One(r));
    BooksReferenced(s, s', r);
  }

  lemma GiveBooks<W(!new), V>(s: State<W, V>, id: nat)
    requires Books(s) && id in s.client && id in s.cells
    ensures Books(s.(cells := Dropped(s.cells, Counted(id)), client := s.client - multiset{id}))
  {
    var s' := s.(cells := Dropped(s.cells, Counted(id)), client := s.client - multiset{id});
    ClientOutside(s', multiset{id});
    assert s'.client + multiset{id} == s.client;
    BooksDropped(s, s', Counted(id));
  }
}
