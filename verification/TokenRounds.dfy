/** Whole rounds on a token board whose values are lent: creators keep their references until the round has ended. */
module TokenRounds {
  import opened Circuit
  import opened ReferenceCounts
  import opened TokenBoard
  import T = TokenWires

  // ids[i] is value number i, and somebody besides the slots holds it.
  ghost predicate Holding<V>(ids: seq<nat>, vs: seq<V>, cells: map<nat, Cell<V>>, outside: multiset<nat>) {
    |ids| == |vs| && forall i :: 0 <= i < |ids| ==> ids[i] in outside && ids[i] in cells && cells[ids[i]].v == vs[i]
  }

  lemma HoldingStays<V>(
    ids: seq<nat>, vs: seq<V>, a: map<nat, Cell<V>>, b: map<nat, Cell<V>>, outside: multiset<nat>, more: multiset<nat>)
    requires Holding(ids, vs, a, outside) && Kept(outside, a, b) && outside <= more
    ensures Holding(ids, vs, b, more)
  {
  }

  lemma HoldingSnoc<V>(
    ids: seq<nat>, vs: seq<V>, id: nat, v: V, cells: map<nat, Cell<V>>, outside: multiset<nat>)
    requires Holding(ids, vs, cells, outside) && id in outside && id in cells && cells[id].v == v
    ensures Holding(ids + [id], vs + [v], cells, outside) && multiset(ids + [id]) == multiset(ids) + multiset{id}
  {
  }

  method CreateOne<K(==,!new), V(==)>(mem: Memory<K, V>, v: V) returns (id: nat)
    requires mem.Valid()
    modifies mem
    ensures mem.Valid() && mem.Now() == old(mem.Now()) && mem.slot == old(mem.slot)
    ensures id in mem.cells && mem.cells[id].v == v && mem.outside == old(mem.outside) + multiset{id}
    ensures Kept(old(mem.outside), old(mem.cells), mem.cells)
  {
    id := mem.Create(v);
  }

  method CreateAll<K(==,!new), V(==)>(mem: Memory<K, V>, vs: seq<V>) returns (ids: seq<nat>)
    requires mem.Valid()
    modifies mem
    ensures mem.Valid() && mem.Now() == old(mem.Now()) && mem.slot == old(mem.slot)
    ensures mem.outside == old(mem.outside) + multiset(ids) && Holding(ids, vs, mem.cells, mem.outside)
  {
    ids := [];
    for i := 0 to |vs|
      invariant mem.Valid() && mem.Now() == old(mem.Now()) && mem.slot == old(mem.slot)
      invariant mem.outside == old(mem.outside) + multiset(ids) && Holding(ids, vs[..i], mem.cells, mem.outside)
    {
      ghost var cells, outside := mem.cells, mem.outside;
      var id := CreateOne(mem, vs[i]);
      HoldingStays(ids, vs[..i], cells, mem.cells, outside, mem.outside);
      HoldingSnoc(ids, vs[..i], id, vs[i], mem.cells, mem.outside);
      assert vs[..i + 1] == vs[..i] + [vs[i]];
      ids := ids + [id];
    }
    assert vs[..|vs|] == vs;
  }

  method GiveBackAll<K(==,!new), V(==)>(mem: Memory<K, V>, ids: seq<nat>, ghost kept: multiset<nat>)
    requires mem.Valid() && mem.outside == kept + multiset(ids)
    modifies mem
    ensures mem.Valid() && mem.Now() == old(mem.Now()) && mem.slot == old(mem.slot) && mem.outside == kept
  {
    assert ids[0..] == ids;
    for i := 0 to |ids|
      invariant mem.Valid() && mem.Now() == old(mem.Now()) && mem.slot == old(mem.slot)
      invariant mem.outside == kept + multiset(ids[i..])
    {
      assert ids[i..] == [ids[i]] + ids[i + 1..];
      mem.GiveBack(ids[i]);
    }
  }

  function Second<W, V>(drives: seq<(W, V)>): (vs: seq<V>)
    ensures |vs| == |drives| && forall i :: 0 <= i < |vs| ==> vs[i] == drives[i].1
  {
    seq(|drives|, i requires 0 <= i < |drives| => drives[i].1)
  }

  // Drives every wire with the value its creator holds.
  method DriveHeld<W(==,!new), V(==,!new)>(b: Board<W, V>, drives: seq<(W, V)>, ids: seq<nat>)
    requires b.Valid() && Holding(ids, Second(drives), b.mem.cells, b.mem.outside)
    requires b.Now() == T.Tokens(map[], map[], multiset{})
    modifies b, b.mem
    ensures b.Valid() && b.Now() == T.Round(b.net, b.h, drives) && b.mem.outside == old(b.mem.outside)
  {
    for i := 0 to |drives|
      invariant b.Valid() && b.Now() == T.Round(b.net, b.h, drives[..i]) && b.mem.outside == old(b.mem.outside)
      invariant Holding(ids, Second(drives), b.mem.cells, b.mem.outside)
    {
      assert drives[..i + 1][..i] == drives[..i];
      ghost var cells := b.mem.cells;
      b.Drive(drives[i].0, Counted(ids[i]));
      HoldingStays(ids, Second(drives), cells, b.mem.cells, b.mem.outside, b.mem.outside);
    }
    assert drives[..|drives|] == drives;
  }

  method Lend<W(==,!new), V(==,!new)>(b: Board<W, V>, vs: seq<V>) returns (ids: seq<nat>)
    requires b.Valid()
    modifies b.mem
    ensures b.Valid() && b.Now() == old(b.Now())
    ensures b.mem.outside == old(b.mem.outside) + multiset(ids) && Holding(ids, vs, b.mem.cells, b.mem.outside)
  {
    ids := CreateAll(b.mem, vs);
  }

  // No token waits for the values any more.
  method Return<W(==,!new), V(==,!new)>(b: Board<W, V>, ids: seq<nat>, ghost kept: multiset<nat>)
    requires b.Valid() && b.Now().tok == map[] && b.mem.outside == kept + multiset(ids)
    modifies b.mem
    ensures b.Valid() && b.Now() == old(b.Now()) && b.mem.slot == map[] && b.mem.outside == kept
  {
    assert b.mem.slot == map[] by {
      forall t ensures t !in b.mem.slot { assert t !in b.Now().tok; }
    }
    GiveBackAll(b.mem, ids, kept);
  }

  /** Each source is driven once and its creator gives its reference back only when the round has ended: whether gates
      absorb before they read and hand on what they were given or not, the round computes its function, reads only
      values in memory, and leaves nothing behind. */
  method LentRound<W(==,!new), V(==,!new)>(b: Board<W, V>, drives: seq<(W, V)>)
    requires b.Valid() && b.lent && b.Now() == T.Tokens(map[], map[], multiset{})
    requires Total(b.net) && T.OncePerSource(b.net, drives) && T.FeedsAll(b.net, drives)
    modifies b, b.mem
    ensures b.Valid() && b.Now() == T.Round(b.net, b.h, drives)
    ensures b.mem.slot == map[] && b.mem.outside == old(b.mem.outside)
  {
    ghost var kept := b.mem.outside;
    var ids := Lend(b, Second(drives));
    DriveHeld(b, drives, ids);
    T.FullRound(b.net, b.h, drives);
    Return(b, ids, kept);
  }
}
