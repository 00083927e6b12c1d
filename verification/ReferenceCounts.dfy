/** Reference-counted values and the wire slots that point at them. */
module ReferenceCounts {
  // A counted value, or a library constant, which has no reference count.
  datatype Ref<+V> = Counted(id: nat) | Static(v: V)

  datatype Cell<+V> = Cell(v: V, count: int)

  // ----- reference counts

  ghost function Holders<W, V>(slot: map<W, Ref<V>>, id: nat): set<W> {
    set w | w in slot && slot[w] == Counted(id)
  }

  predicate Live<V>(r: Ref<V>, cells: map<nat, Cell<V>>) {
    r.Counted? ==> r.id in cells
  }

  ghost predicate AllLive<W(!new), V>(slot: map<W, Ref<V>>, cells: map<nat, Cell<V>>) {
    forall w :: w in slot ==> Live(slot[w], cells)
  }

  ghost predicate Counts<W(!new), V>(slot: map<W, Ref<V>>, cells: map<nat, Cell<V>>, outside: multiset<nat>, id: nat) {
    id in cells ==> cells[id].count == |Holders(slot, id)| + outside[id] && cells[id].count > 0
  }

  // Every count is the number of slots and outside references that hold the value, values in memory
  // are exactly those that something holds, and no slot or holder points at a freed value.
  ghost predicate Balanced<W(!new), V>(slot: map<W, Ref<V>>, cells: map<nat, Cell<V>>, outside: multiset<nat>) {
    && AllLive(slot, cells)
    && (forall id :: id in outside ==> id in cells)
    && (forall id :: Counts(slot, cells, outside, id))
  }

  function Referenced<V>(cells: map<nat, Cell<V>>, r: Ref<V>): map<nat, Cell<V>>
    requires Live(r, cells)
  {
    if r.Static? then cells else cells[r.id := cells[r.id].(count := cells[r.id].count + 1)]
  }

  // One reference goes: the value is freed exactly when that was the last.
  function Dropped<V>(cells: map<nat, Cell<V>>, r: Ref<V>): map<nat, Cell<V>>
    requires Live(r, cells)
  {
    if r.Static? then cells
    else if cells[r.id].count <= 1 then cells - {r.id}
    else cells[r.id := cells[r.id].(count := cells[r.id].count - 1)]
  }

  function One<V>(r: Ref<V>): multiset<nat> {
    if r.Counted? then multiset{r.id} else multiset{}
  }

  lemma ReferencedBalanced<W(!new), V>(
    slot: map<W, Ref<V>>, cells: map<nat, Cell<V>>, outside: multiset<nat>, r: Ref<V>)
    requires Balanced(slot, cells, outside) && Live(r, cells)
    ensures Balanced(slot, Referenced(cells, r), outside + One(r))
  {
    var cells' := Referenced(cells, r);
    forall id: nat ensures Counts(slot, cells', outside + One(r), id) {
      assert Counts(slot, cells, outside, id);
    }
  }

  lemma DroppedBalanced<W(!new), V>(
    slot: map<W, Ref<V>>, cells: map<nat, Cell<V>>, outside: multiset<nat>, r: Ref<V>)
    requires Balanced(slot, cells, outside) && One(r) <= outside
    ensures Live(r, cells) && Balanced(slot, Dropped(cells, r), outside - One(r))
  {
    if r.Counted? {
      assert r.id in outside;
      var cells' := Dropped(cells, r);
      assert Counts(slot, cells, outside, r.id);
      forall w | w in slot ensures Live(slot[w], cells') {
        if slot[w] == r { assert w in Holders(slot, r.id); }
      }
      forall id: nat ensures Counts(slot, cells', outside - One(r), id) {
        assert Counts(slot, cells, outside, id);
      }
    } else {
      assert outside - One(r) == outside;
    }
  }

  // The slot of w takes over a reference to r, and gives up the one it had.
  lemma MovedBalanced<W(!new), V>(
    slot: map<W, Ref<V>>, cells: map<nat, Cell<V>>, outside: multiset<nat>, w: W, r: Ref<V>)
    requires Balanced(slot, cells, outside) && One(r) <= outside
    ensures var was := if w in slot then One(slot[w]) else multiset{};
            Balanced(slot[w := r], cells, outside - One(r) + was)
  {
    var was := if w in slot then One(slot[w]) else multiset{};
    if r.Counted? { assert r.id in outside; }
    var slot', outside' := slot[w := r], outside - One(r) + was;
    forall id: nat ensures Counts(slot', cells, outside', id) {
      MovedCounts(slot, cells, outside, w, r, id);
    }
  }

  lemma MovedCounts<W(!new), V>(
    slot: map<W, Ref<V>>, cells: map<nat, Cell<V>>, outside: multiset<nat>, w: W, r: Ref<V>, id: nat)
    requires Counts(slot, cells, outside, id) && One(r) <= outside
    ensures var was := if w in slot then One(slot[w]) else multiset{};
            Counts(slot[w := r], cells, outside - One(r) + was, id)
  {
    if r == Counted(id) {
      assert Holders(slot[w := r], id) == Holders(slot, id) + {w};
      assert id in outside;
    } else {
      assert Holders(slot[w := r], id) == Holders(slot, id) - {w};
    }
  }

  // The slot of w is emptied; its reference is still to be dropped.
  lemma ClearedBalanced<W(!new), V>(slot: map<W, Ref<V>>, cells: map<nat, Cell<V>>, outside: multiset<nat>, w: W)
    requires Balanced(slot, cells, outside) && w in slot
    ensures Balanced(slot - {w}, cells, outside + One(slot[w]))
  {
    var slot', outside' := slot - {w}, outside + One(slot[w]);
    forall id: nat ensures Counts(slot', cells, outside', id) {
      assert Counts(slot, cells, outside, id);
      assert Holders(slot', id) == Holders(slot, id) - {w};
    }
  }

  /** A value is in memory exactly as long as some slot or some outside reference holds it. */
  lemma InMemoryIffHeld<W(!new), V>(slot: map<W, Ref<V>>, cells: map<nat, Cell<V>>, outside: multiset<nat>, id: nat)
    requires Balanced(slot, cells, outside)
    ensures id in cells <==> (id in outside || exists w :: w in slot && slot[w] == Counted(id))
  {
    assert Counts(slot, cells, outside, id);
    if id in cells && id !in outside {
      var w :| w in Holders(slot, id);
      assert slot[w] == Counted(id);
    }
  }

  // lxc_import_new_value: the new value is referenced before the old one is dropped.
  function Imported<W(==), V(==)>(slot: map<W, Ref<V>>, cells: map<nat, Cell<V>>, w: W, r: Ref<V>): map<nat, Cell<V>>
    requires Live(r, cells) && (w in slot ==> Live(slot[w], cells))
  {
    if w !in slot then Referenced(cells, r)
    else if slot[w] == r then cells
    else Dropped(Referenced(cells, r), slot[w])
  }

  lemma ImportedBalanced<W(!new), V>(
    slot: map<W, Ref<V>>, cells: map<nat, Cell<V>>, outside: multiset<nat>, w: W, r: Ref<V>)
    requires Balanced(slot, cells, outside) && Live(r, cells)
    ensures Balanced(slot[w := r], Imported(slot, cells, w, r), outside)
  {
    if w in slot && slot[w] == r {
      assert slot[w := r] == slot;
    } else {
      ReferencedBalanced(slot, cells, outside, r);
      MovedBalanced(slot, Referenced(cells, r), outside + One(r), w, r);
      var was := if w in slot then One(slot[w]) else multiset{};
      assert outside + One(r) - One(r) + was == outside + was;
      ReplacedBalanced(slot[w := r], Referenced(cells, r), outside, if w in slot then slot[w] else r, was);
    }
  }

  lemma ReplacedBalanced<W(!new), V>(
    slot: map<W, Ref<V>>, cells: map<nat, Cell<V>>, outside: multiset<nat>, r: Ref<V>, was: multiset<nat>)
    requires Balanced(slot, cells, outside + was) && (was == One(r) || was == multiset{})
    ensures was == One(r) ==> Live(r, cells) && Balanced(slot, Dropped(cells, r), outside)
    ensures was == multiset{} ==> Balanced(slot, cells, outside)
  {
    if was == One(r) {
      DroppedBalanced(slot, cells, outside + was, r);
      assert outside + was - One(r) == outside;
    }
    if was == multiset{} {
      assert outside + was == outside;
    }
  }

  // ----- values

  function Value<V>(r: Ref<V>, cells: map<nat, Cell<V>>): V
    requires Live(r, cells)
  {
    if r.Static? then r.v else cells[r.id].v
  }

  ghost function Values<W(!new), V>(slot: map<W, Ref<V>>, cells: map<nat, Cell<V>>): map<W, V>
    requires AllLive(slot, cells)
  {
    map w | w in slot :: Value(slot[w], cells)
  }

  // Every value with an outside reference is still in memory and the same.
  ghost predicate Kept<V>(outside: multiset<nat>, a: map<nat, Cell<V>>, b: map<nat, Cell<V>>) {
    forall id :: id in outside ==> id in a && id in b && a[id].v == b[id].v
  }

  // No value appears, and none changes.
  ghost predicate NoneNew<V>(a: map<nat, Cell<V>>, b: map<nat, Cell<V>>) {
    forall id :: id in b ==> id in a && a[id].v == b[id].v
  }

  lemma ImportedValues<W(!new), V>(
    slot: map<W, Ref<V>>, cells: map<nat, Cell<V>>, outside: multiset<nat>, w: W, r: Ref<V>)
    requires Balanced(slot, cells, outside) && Live(r, cells)
    ensures forall id :: id in Imported(slot, cells, w, r) ==> id in cells && Imported(slot, cells, w, r)[id].v == cells[id].v
    ensures AllLive(slot[w := r], Imported(slot, cells, w, r))
    ensures Values(slot[w := r], Imported(slot, cells, w, r)) == Values(slot, cells)[w := Value(r, cells)]
  {
    ImportedBalanced(slot, cells, outside, w, r);
  }

  // ----- values in memory

  /** Counted values and the slots that point at them, keyed by wires or by gate ports. */
  class Memory<K(==,!new), V(==)> {
    var slot: map<K, Ref<V>>
    var cells: map<nat, Cell<V>>
    var next: nat
    // References held by anyone but the slots.
    ghost var outside: multiset<nat>

    ghost predicate Valid()
      reads this
    {
      Balanced(slot, cells, outside) && forall id :: id in cells ==> id < next
    }

    // The values the slots hold.
    ghost function Now(): map<K, V>
      requires Valid()
      reads this
    {
      Values(slot, cells)
    }

    constructor ()
      ensures Valid() && slot == map[] && outside == multiset{} && Now() == map[]
    {
      slot, cells, next, outside := map[], map[], 0, multiset{};
    }

    // A new value, with one reference, which its creator owns.
    method Create(v: V) returns (id: nat)
      requires Valid()
      modifies `cells, `next, `outside
      ensures Valid() && Now() == old(Now())
      ensures id == old(next) && next == id + 1
      ensures id !in old(cells) && cells == old(cells)[id := Cell(v, 1)]
      ensures outside == old(outside) + multiset{id}
    {
      id := next;
      next := next + 1;
      assert id !in outside && Holders(slot, id) == {};
      cells := cells[id := Cell(v, 1)];
      outside := outside + multiset{id};
      forall x: nat ensures Counts(slot, cells, outside, x) {
        assert Counts(slot, old(cells), old(outside), x);
      }
    }

    method Unreference(r: Ref<V>)
      requires Live(r, cells)
      modifies `cells
      ensures cells == Dropped(old(cells), r)
    {
      if r.Counted? {
        var count := cells[r.id].count - 1;
        if count <= 0 {
          cells := cells - {r.id};
        } else {
          cells := cells[r.id := cells[r.id].(count := count)];
        }
      }
    }

    method Reference(r: Ref<V>)
      requires Live(r, cells)
      modifies `cells
      ensures cells == Referenced(old(cells), r)
    {
      if r.Counted? {
        cells := cells[r.id := cells[r.id].(count := cells[r.id].count + 1)];
      }
    }

    // An owner gives its reference back.
    method GiveBack(id: nat)
      requires Valid() && id in outside
      modifies `cells, `outside
      ensures Valid() && Now() == old(Now())
      ensures outside == old(outside) - multiset{id} && Kept(outside, old(cells), cells)
    {
      DroppedBalanced(slot, cells, outside, Counted(id));
      Unreference(Counted(id));
      outside := outside - multiset{id};
    }

    // lxc_import_new_value
    method Import(k: K, r: Ref<V>)
      requires Valid() && Live(r, cells)
      modifies `slot, `cells
      ensures Valid() && slot == old(slot)[k := r]
      ensures Now() == old(Now())[k := old(Value(r, cells))]
      ensures Kept(outside, old(cells), cells) && Live(r, cells) && Value(r, cells) == old(Value(r, cells))
    {
      ImportedBalanced(slot, cells, outside, k, r);
      ImportedValues(slot, cells, outside, k, r);
      if k in slot && slot[k] == r {
        assert slot == slot[k := r];
        return;
      }
      Reference(r);
      if k in slot {
        Unreference(slot[k]);
      }
      slot := slot[k := r];
      assert slot[k] == r && Live(slot[k], cells);
    }

    // lxc_import_new_value without a new value.
    method Clear(k: K)
      requires Valid()
      modifies `slot, `cells
      ensures Valid() && slot == old(slot) - {k} && Now() == old(Now()) - {k}
      ensures Kept(outside, old(cells), cells) && NoneNew(old(cells), cells)
    {
      if k in slot {
        ClearedBalanced(slot, cells, outside, k);
        DroppedBalanced(slot - {k}, cells, outside + One(slot[k]), slot[k]);
        assert outside + One(slot[k]) - One(slot[k]) == outside;
        Unreference(slot[k]);
        slot := slot - {k};
      }
    }

    // The value in a slot.
    method Read(k: K) returns (v: V)
      requires Valid() && k in slot
      ensures v == Now()[k]
    {
      assert Live(slot[k], cells);
      v := Value(slot[k], cells);
    }
  }
}
