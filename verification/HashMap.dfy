/** The hash map behind the registries of a circuit: a slot array probed linearly, doubled and refilled
    when a chain or the table is full.  Refilling puts every entry again, and may itself have to double. */
module HashMap {
  import opened HashGrowth
  import opened ProbeTable
  import G = HashGrowth

  datatype Status = Ok | OutOfMemory | Missing | Stopped(status: int)

  const INITIAL_SIZE := 256

  class Map<K(==,!new), V> {
    // hashmap_hash_int without the remainder by the size of the table.
    const code: K -> nat
    // calloc yields a table of that many slots; never one larger than `limit`.
    const granted: nat -> bool
    ghost const limit: nat
    var data: array<Slot<K, V>>
    var size: nat
    // Puts of keys that were present, since the table was last refilled.
    ghost var overwrites: nat

    ghost predicate Valid()
      reads this, data
    {
      && TableOk(data[..], code) && Bounded(Setting())
      && size == |Contents(data[..])| + overwrites && (Contents(data[..]) == map[] ==> overwrites == 0)
    }

    ghost function Setting(): Setup<K> {
      Setup(code, granted, limit)
    }

    // The table as a value.
    ghost function Held(): Table<K, V>
      reads this, data
    {
      Table(data[..], size)
    }

    ghost function Now(): map<K, V>
      requires Valid()
      reads this, data
    {
      Contents(data[..])
    }

    constructor (code: K -> nat, granted: nat -> bool, ghost limit: nat)
      requires forall n: nat :: granted(n) ==> n <= limit
      ensures Valid() && Now() == map[] && overwrites == 0 && fresh(data) && Held() == Empty(INITIAL_SIZE)
      ensures this.code == code && this.granted == granted && this.limit == limit
    {
      this.code, this.granted, this.limit := code, granted, limit;
      data := new Slot<K, V>[INITIAL_SIZE](_ => Free);
      size, overwrites := 0, 0;
      new;
      EmptyTable(data[..]);
      assert data[..] == Empty<K, V>(INITIAL_SIZE).slots;
    }

    /** Finds the key's slot, or a place for it; full stands for MAP_FULL. */
    method Hash(k: K) returns (full: bool, index: nat)
      requires TableOk(data[..], code)
      ensures full <==> NoPlace(code, Held(), k)
      ensures !full ==> index == Place(code, Held(), k)
    {
      if size >= data.Length / 2 {
        return true, 0;
      }
      var h := Home(code, k, data.Length);
      index := h;
      for n := 0 to MAX_CHAIN_LENGTH
        invariant index == At(h, n, data.Length) && index < data.Length
        invariant Steps(code, data[..], k) == Stop(data[..], h, k, n)
      {
        if data[index].Free? || data[index].key == k {
          return false, index;
        }
        AtNext(h, n, data.Length);
        index := (index + 1) % data.Length;
      }
      return true, 0;
    }

    /** Looks for the key along its whole chain, also past free slots. */
    method Get(k: K) returns (status: Status, found: seq<V>)
      requires Valid()
      ensures status == (if k in Now() then Ok else Missing)
      ensures found == (if k in Now() then [Now()[k]] else [])
    {
      var missing, index := Search(k);
      if missing {
        InChain(data[..], code, k);
        return Missing, [];
      }
      HeldIn(data[..], index, k);
      return Ok, [data[index].value];
    }

    method Search(k: K) returns (missing: bool, index: nat)
      requires TableOk(data[..], code)
      ensures !missing ==> Holds(data[..], index, k)
      ensures missing ==>
        forall i :: 0 <= i < MAX_CHAIN_LENGTH ==> !Holds(data[..], At(Home(code, k, data.Length), i, data.Length), k)
    {
      var h := Home(code, k, data.Length);
      index := h;
      for n := 0 to MAX_CHAIN_LENGTH
        invariant index == At(h, n, data.Length) && index < data.Length
        invariant forall q :: 0 <= q < n ==> !Holds(data[..], At(h, q, data.Length), k)
      {
        if data[index].Used? && data[index].key == k {
          return false, index;
        }
        AtNext(h, n, data.Length);
        index := (index + 1) % data.Length;
      }
      return true, 0;
    }

    /** The stored count is the number of keys exactly when no key was put twice since the last refill. */
    method Length() returns (n: int)
      requires Valid()
      ensures n == |Now()| + overwrites
    {
      n := size;
    }

    /** Calls f on the value of each key once, in table order, until a call returns a status other than
        0; an empty map is reported as Missing. */
    method Iterate(f: V -> int) returns (status: Status, calls: seq<V>, ghost keys: seq<K>)
      requires Valid()
      ensures status == Missing <==> Now() == map[]
      ensures |calls| == |keys| && forall j :: 0 <= j < |keys| ==> keys[j] in Now() && Now()[keys[j]] == calls[j]
      ensures (forall i, j :: 0 <= i < j < |keys| ==> keys[i] != keys[j]) && InTableOrder(data[..], keys)
      ensures status.Stopped? || forall k :: k in Now() ==> k in keys
      ensures status == Ok ==> AllZero(f, calls)
      ensures status.Stopped? ==>
        calls != [] && AllZero(f, calls[..|calls| - 1]) && status.status == f(calls[|calls| - 1]) != 0
    {
      SizeZero(Now());
      if size <= 0 {
        return Missing, [], [];
      }
      ghost var p;
      status, calls, keys, p := Walk(f);
      VisitedKeys(data[..], p, calls, keys);
    }

    method Walk(f: V -> int) returns (status: Status, calls: seq<V>, ghost keys: seq<K>, ghost p: nat)
      requires Unique(data[..])
      ensures Visited(data[..], p, calls, keys) && (status == Ok || status.Stopped?)
      ensures status == Ok ==> p == data.Length && AllZero(f, calls)
      ensures status.Stopped? ==>
        calls != [] && AllZero(f, calls[..|calls| - 1]) && status.status == f(calls[|calls| - 1]) != 0
    {
      calls, keys := [], [];
      ghost var t := data[..];
      for i := 0 to data.Length
        invariant Visited(t, i, calls, keys) && AllZero(f, calls)
      {
        assert data[i] == t[i];
        if data[i].Used? {
          VisitedStep(t, i, calls, keys);
          ghost var was := calls;
          calls, keys := calls + [data[i].value], keys + [data[i].key];
          if f(data[i].value) != 0 {
            assert calls[..|calls| - 1] == was;
            return Stopped(f(data[i].value)), calls, keys, i + 1;
          }
        }
      }
      return Ok, calls, keys, data.Length;
    }

    lemma HasPlace(k: K)
      requires Valid() && size < 2 && forall x :: x in Now() ==> x == k
      ensures !NoPlace(code, Held(), k)
    {
      ghost var t := data[..];
      assert Contents(t) == Now();
      forall x | x in Contents(t) ensures x == k { assert x in Now(); }
      OnlyKey(t, code, k);
    }

    /** Doubles the table and puts every entry again. */
    method Rehash() returns (status: Status)
      requires Valid()
      modifies this
      ensures Valid() && (data == old(data) || fresh(data)) && status in {Ok, OutOfMemory}
      ensures Growth(status == Ok, Held()) == Doubled(Setting(), old(Held()))
      ensures status == Ok ==> Now() == old(Now()) && overwrites == 0 && fresh(data)
      ensures status == Ok ==> 2 * old(data.Length) <= data.Length <= limit
      ensures status == OutOfMemory ==> Lost(old(Now()), Now()) && !granted(2 * data.Length)
      ensures !granted(2 * old(data.Length)) ==> status == OutOfMemory && Held() == old(Held()) && data == old(data)
      ensures Loses(old(Now()), Now()) <==> status == OutOfMemory && granted(2 * old(data.Length))
      decreases Room(Setting(), Held()), 0, 0
    {
      ghost var c, was := Setting(), Held();
      if !granted(2 * data.Length) {
        status := OutOfMemory;
      } else {
        var curr := data;
        Clear(2 * curr.Length);
        status := RefillAll(curr);
      }
      DoubledOk(c, was);
    }

    // The loop over the slots of the old table.
    method RefillAll(curr: array<Slot<K, V>>) returns (status: Status)
      requires Valid() && data != curr && FromFirst(curr[..], 0, Now()) && overwrites == 0 && data.Length <= limit
      modifies this, data
      ensures Valid() && (data == old(data) || fresh(data)) && status in {Ok, OutOfMemory}
      ensures status == Ok ==> overwrites == 0
      ensures Growth(status == Ok, Held()) == Refilled(Setting(), old(curr[..]), 0, old(Held()))
      decreases Room(Setting(), Held()), 3
    {
      ghost var c, from, was := Setting(), curr[..], Held();
      for i := 0 to curr.Length
        invariant Valid() && (data == old(data) || fresh(data)) && old(data.Length) <= data.Length <= limit
        invariant data != curr && curr[..] == from && FromFirst(from, i, Now()) && overwrites == 0
        invariant Refilled(c, from, 0, was) == Refilled(c, from, i, Held())
      {
        status := Refill(curr, i);
        if status != Ok {
          return;
        }
      }
      return Ok;
    }

    // Puts the entry of one slot of the old table.
    method Refill(curr: array<Slot<K, V>>, i: nat) returns (status: Status)
      requires Valid() && data != curr && i < curr.Length && FromFirst(curr[..], i, Now()) && overwrites == 0
      requires data.Length <= limit
      modifies this, data
      ensures Valid() && (data == old(data) || fresh(data)) && status in {Ok, OutOfMemory}
      ensures old(data.Length) <= data.Length && (status == Ok ==> data.Length <= limit)
      ensures status == Ok ==> FromFirst(curr[..], i + 1, Now()) && overwrites == 0
      ensures status == Ok ==>
        Refilled(Setting(), curr[..], i, old(Held())) == Refilled(Setting(), curr[..], i + 1, Held())
      ensures status == OutOfMemory ==> Refilled(Setting(), curr[..], i, old(Held())) == Growth(false, Held())
      decreases Room(Setting(), Held()), 2
    {
      FirstNext(curr[..], i, Now());
      status := Ok;
      if curr[i].Used? {
        status := Put(curr[i].key, curr[i].value);
      }
    }

    method Clear(n: nat)
      requires Valid() && granted(n) && n >= MAX_CHAIN_LENGTH
      modifies this
      ensures Valid() && Now() == map[] && overwrites == 0 && fresh(data) && Held() == Empty(n)
    {
      data := new Slot<K, V>[n](_ => Free);
      size, overwrites := 0, 0;
      EmptyTable(data[..]);
      assert data[..] == Empty<K, V>(n).slots;
    }

    /** The table becomes what the specification says.  When the put succeeds the map has k at v and is otherwise as
        before, however often the table had to be doubled and refilled on the way; it loses an entry exactly when a
        doubling made for k is granted but memory runs out in its refill. */
    method Put(k: K, v: V) returns (status: Status)
      requires Valid()
      modifies this, data
      ensures Valid() && (data == old(data) || fresh(data)) && status in {Ok, OutOfMemory}
      ensures Growth(status == Ok, Held()) == G.Put(Setting(), old(Held()), k, v)
      ensures status == Ok ==> Now() == old(Now())[k := v]
      ensures status == Ok ==>
        overwrites == (if data == old(data) then old(overwrites) else 0) + (if k in old(Now()) then 1 else 0)
      ensures status == OutOfMemory ==> Lost(old(Now()), Now()) && !granted(2 * data.Length)
      ensures status == OutOfMemory && !granted(2 * old(data.Length)) ==> Held() == old(Held()) && data == old(data)
      ensures Loses(old(Now()), Now()) <==> CutShort(Setting(), old(Held()), k)
      ensures !old(NoPlace(code, Held(), k)) ==> status == Ok && data == old(data)
      decreases Room(Setting(), Held()), 1
    {
      ghost var c, was := Setting(), Held();
      var index;
      status, index := MakePlace(k);
      if status == Ok {
        Store(k, v, index);
      }
      PutOk(c, was, k, v);
    }

    // Doubles the table until there is a place for k.
    method MakePlace(k: K) returns (status: Status, index: nat)
      requires Valid()
      modifies this
      ensures Valid() && (data == old(data) || fresh(data)) && status in {Ok, OutOfMemory}
      ensures Growth(status == Ok, Held()) == WithPlace(Setting(), old(Held()), k)
      ensures status == Ok ==> index == Place(code, Held(), k) && Now() == old(Now())
      ensures status == OutOfMemory && !granted(2 * old(data.Length)) ==> Held() == old(Held()) && data == old(data)
      ensures status == Ok ==> overwrites == if data == old(data) then old(overwrites) else 0
      ensures !old(NoPlace(code, Held(), k)) ==> status == Ok && data == old(data)
      decreases Room(Setting(), Held()), 0, 1
    {
      var full;
      full, index := Hash(k);
      while full
        invariant Valid() && Now() == old(Now()) && (data == old(data) || fresh(data))
        invariant WithPlace(Setting(), Held(), k) == WithPlace(Setting(), old(Held()), k)
        invariant overwrites == if data == old(data) then old(overwrites) else 0
        invariant full <==> NoPlace(code, Held(), k)
        invariant !full ==> index == Place(code, Held(), k)
        invariant data != old(data) ==> granted(2 * old(data.Length)) && Room(Setting(), Held()) < old(Room(Setting(), Held()))
        invariant !old(NoPlace(code, Held(), k)) ==> !full && data == old(data)
        decreases Room(Setting(), Held())
      {
        status := Rehash();
        if status == OutOfMemory {
          return;
        }
        full, index := Hash(k);
      }
      status := Ok;
    }

    method Store(k: K, v: V, index: nat)
      requires Valid() && !NoPlace(code, Held(), k) && index == Place(code, Held(), k)
      modifies `size, `overwrites, data
      ensures Valid() && Now() == old(Now())[k := v] && Held() == Stored(code, old(Held()), k, v)
      ensures overwrites == old(overwrites) + (if k in old(Now()) then 1 else 0)
    {
      ghost var t := Held();
      StoredSize(Setting(), t, k, v, overwrites);
      overwrites := overwrites + (if k in Now() then 1 else 0);
      data[index] := Used(k, v);
      size := size + 1;
      assert data[..] == Stored(code, t, k, v).slots;
    }
  }

  lemma StoredSize<K(!new), V>(c: Setup<K>, t: Table<K, V>, k: K, v: V, overwrites: nat)
    requires TableOk(t.slots, c.code) && t.size == |Contents(t.slots)| + overwrites && !NoPlace(c.code, t, k)
    ensures var t', now := Stored(c.code, t, k, v), Contents(t.slots)[k := v];
      && TableOk(t'.slots, c.code) && Contents(t'.slots) == now && now != map[]
      && t'.size == |now| + overwrites + (if k in Contents(t.slots) then 1 else 0)
  {
    StoredOk(c, t, k, v);
    assert k in Contents(t.slots)[k := v];
  }

  // A table whose only key is k has a place for k, if it is not half counted.
  lemma OnlyKey<K(!new), V>(t: seq<Slot<K, V>>, code: K -> nat, k: K)
    requires TableOk(t, code) && forall x :: x in Contents(t) ==> x == k
    ensures !Passed(t, Home(code, k, |t|), k, MAX_CHAIN_LENGTH)
  {
    var p := At(Home(code, k, |t|), 0, |t|);
    if t[p].Used? { HeldIn(t, p, t[p].key); }
  }

  /** One key put twice into a new map: the stored size is 2. */
  method PutTwice<K(==,!new), V>(
    code: K -> nat, granted: nat -> bool, ghost limit: nat, k: K, v: V, w: V) returns (n: int, found: seq<V>)
    requires forall n: nat :: granted(n) ==> n <= limit
    ensures n == 2 && found == [w]
  {
    var m := new Map<K, V>(code, granted, limit);
    m.HasPlace(k);
    var first := m.Put(k, v);
    assert m.Now() == map[k := v] && |m.Now()| == 1;
    m.HasPlace(k);
    var second := m.Put(k, w);
    assert m.Now() == map[k := w] && |m.Now()| == 1;
    n := m.Length();
    var status;
    status, found := m.Get(k);
  }

  predicate AllZero<V>(f: V -> int, calls: seq<V>) {
    forall j :: 0 <= j < |calls| ==> f(calls[j]) == 0
  }

  ghost predicate HeldBefore<K, V>(t: seq<Slot<K, V>>, p: nat, k: K, v: V) {
    exists q: nat :: q < p && Holds(t, q, k) && t[q].value == v
  }

  // A key that comes later is held by a later slot.
  ghost predicate InTableOrder<K, V>(t: seq<Slot<K, V>>, keys: seq<K>) {
    forall i, j, p: nat, q: nat :: 0 <= i < j < |keys| && Holds(t, p, keys[i]) && Holds(t, q, keys[j]) ==> p < q
  }

  // The keys and values of the used slots before p.
  ghost predicate Visited<K, V>(t: seq<Slot<K, V>>, p: nat, calls: seq<V>, keys: seq<K>) {
    && p <= |t| && |calls| == |keys|
    && (forall j :: 0 <= j < |keys| ==> HeldBefore(t, p, keys[j], calls[j]))
    && (forall i, j :: 0 <= i < j < |keys| ==> keys[i] != keys[j]) && InTableOrder(t, keys)
    && (forall q :: 0 <= q < p && t[q].Used? ==> t[q].key in keys)
  }

  lemma VisitedStep<K, V>(t: seq<Slot<K, V>>, p: nat, calls: seq<V>, keys: seq<K>)
    requires Unique(t) && Visited(t, p, calls, keys) && p < |t| && t[p].Used?
    ensures Visited(t, p + 1, calls + [t[p].value], keys + [t[p].key])
  {
    var calls', keys' := calls + [t[p].value], keys + [t[p].key];
    forall j | 0 <= j < |keys'| ensures HeldBefore(t, p + 1, keys'[j], calls'[j]) {
      if j < |keys| {
        assert HeldBefore(t, p, keys[j], calls[j]);
      } else {
        assert Holds(t, p, keys'[j]);
      }
    }
    forall j, x: nat | 0 <= j < |keys| && Holds(t, x, keys[j]) ensures keys[j] != t[p].key && x < p {
      assert HeldBefore(t, p, keys[j], calls[j]);
      var q: nat :| q < p && Holds(t, q, keys[j]) && t[q].value == calls[j];
    }
    forall j | 0 <= j < |keys| ensures keys[j] != t[p].key {
      assert HeldBefore(t, p, keys[j], calls[j]);
    }
    forall i, j, x: nat, y: nat | 0 <= i < j < |keys'| && Holds(t, x, keys'[i]) && Holds(t, y, keys'[j]) ensures x < y {
      if j == |keys| { assert keys'[j] == t[p].key && y == p && keys'[i] == keys[i]; }
    }
    forall q | 0 <= q < p + 1 && t[q].Used? ensures t[q].key in keys' {
      if q == p { assert keys'[|keys|] == t[p].key; }
    }
  }

  lemma VisitedKeys<K(!new), V>(t: seq<Slot<K, V>>, p: nat, calls: seq<V>, keys: seq<K>)
    requires Unique(t) && Visited(t, p, calls, keys)
    ensures forall j :: 0 <= j < |keys| ==> keys[j] in Contents(t) && Contents(t)[keys[j]] == calls[j]
    ensures p == |t| ==> forall k :: k in Contents(t) ==> k in keys
  {
    forall j | 0 <= j < |keys| ensures keys[j] in Contents(t) && Contents(t)[keys[j]] == calls[j] {
      assert HeldBefore(t, p, keys[j], calls[j]);
      var q: nat :| q < p && Holds(t, q, keys[j]) && t[q].value == calls[j];
      HeldIn(t, q, keys[j]);
    }
  }

  lemma SizeZero<K, V>(m: map<K, V>)
    ensures |m| == 0 <==> m == map[]
  {
  }
}
