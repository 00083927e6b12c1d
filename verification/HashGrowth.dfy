/** How the hash map's table grows, as functions of the table: a put makes a place by doubling, a doubling puts every
    entry again in slot order, and those puts may double again.  What is left when memory runs out on the way. */
module HashGrowth {
  import opened Options
  import opened ProbeTable

  // The slots and the count of puts since the table was made.
  datatype Table<+K, +V> = Table(slots: seq<Slot<K, V>>, size: nat)

  // calloc yields a table of `granted` many slots; never one larger than `limit`.
  datatype Setup<!K> = Setup(code: K -> nat, granted: nat -> bool, limit: nat)

  // What became of the table, and whether memory sufficed.
  datatype Growth<+K, +V> = Growth(done: bool, table: Table<K, V>)

  ghost predicate Bounded<K>(c: Setup<K>) {
    forall n: nat :: c.granted(n) ==> n <= c.limit
  }

  predicate Sized<K, V>(t: Table<K, V>) {
    |t.slots| >= MAX_CHAIN_LENGTH
  }

  // How far the table can still grow.
  function Room<K, V>(c: Setup<K>, t: Table<K, V>): nat {
    if |t.slots| <= c.limit then c.limit - |t.slots| else 0
  }

  function Empty<K, V>(n: nat): (t: Table<K, V>)
    ensures |t.slots| == n && forall p :: 0 <= p < n ==> t.slots[p].Free?
  {
    Table(seq(n, _ => Free), 0)
  }

  // ----- one probe

  // The number of steps after which the probe for k, now at step i, stops.
  function Stop<K(==), V>(s: seq<Slot<K, V>>, h: nat, k: K, i: nat): (n: nat)
    requires h < |s| && i <= MAX_CHAIN_LENGTH <= |s|
    ensures i <= n <= MAX_CHAIN_LENGTH
    ensures forall q :: i <= q < n ==> s[At(h, q, |s|)].Used? && s[At(h, q, |s|)].key != k
    ensures n < MAX_CHAIN_LENGTH ==> s[At(h, n, |s|)].Free? || s[At(h, n, |s|)].key == k
    decreases MAX_CHAIN_LENGTH - i
  {
    if i == MAX_CHAIN_LENGTH || s[At(h, i, |s|)].Free? || s[At(h, i, |s|)].key == k then i
    else Stop(s, h, k, i + 1)
  }

  function Steps<K(==), V>(code: K -> nat, s: seq<Slot<K, V>>, k: K): (n: nat)
    requires |s| >= MAX_CHAIN_LENGTH
    ensures n <= MAX_CHAIN_LENGTH && Passed(s, Home(code, k, |s|), k, n)
    ensures n < MAX_CHAIN_LENGTH ==>
      var p := At(Home(code, k, |s|), n, |s|); s[p].Free? || s[p].key == k
  {
    Stop(s, Home(code, k, |s|), k, 0)
  }

  // Half of the table is counted, or the whole chain of k is taken by other keys.
  predicate NoPlace<K(==), V>(code: K -> nat, t: Table<K, V>, k: K)
    requires Sized(t)
  {
    t.size >= |t.slots| / 2 || Steps(code, t.slots, k) == MAX_CHAIN_LENGTH
  }

  function Place<K(==), V>(code: K -> nat, t: Table<K, V>, k: K): (p: nat)
    requires Sized(t) && !NoPlace(code, t, k)
    ensures p < |t.slots|
  {
    At(Home(code, k, |t.slots|), Steps(code, t.slots, k), |t.slots|)
  }

  /** There is no place exactly when half of the table is counted or all eight slots of the chain hold other keys; else
      the place is the first slot of the chain that is free or holds the key. */
  lemma PlaceIsFirst<K(!new), V>(code: K -> nat, t: Table<K, V>, k: K)
    requires Sized(t)
    ensures var h := Home(code, k, |t.slots|);
      NoPlace(code, t, k) <==> t.size >= |t.slots| / 2 || Passed(t.slots, h, k, MAX_CHAIN_LENGTH)
    ensures !NoPlace(code, t, k) ==>
      var h, p := Home(code, k, |t.slots|), Place(code, t, k);
      && (t.slots[p].Free? || t.slots[p].key == k)
      && exists n :: 0 <= n < MAX_CHAIN_LENGTH && p == At(h, n, |t.slots|) && Passed(t.slots, h, k, n)
  {
  }

  function Stored<K(==), V>(code: K -> nat, t: Table<K, V>, k: K, v: V): Table<K, V>
    requires Sized(t) && !NoPlace(code, t, k)
  {
    Table(t.slots[Place(code, t, k) := Used(k, v)], t.size + 1)
  }

  // ----- growing

  // hashmap_rehash.
  ghost function Doubled<K(!new), V>(c: Setup<K>, t: Table<K, V>): (g: Growth<K, V>)
    requires Bounded(c) && Sized(t)
    ensures Sized(g.table) && |g.table.slots| >= |t.slots| && (g.done ==> 2 * |t.slots| <= |g.table.slots| <= c.limit)
    decreases Room(c, t), 0, 0
  {
    if !c.granted(2 * |t.slots|) then Growth(false, t)
    else Refilled(c, t.slots, 0, Empty(2 * |t.slots|))
  }

  // Its loop: the entries from slot i of the old table on are put again.
  ghost function Refilled<K(!new), V>(c: Setup<K>, from: seq<Slot<K, V>>, i: nat, t: Table<K, V>): (g: Growth<K, V>)
    requires Bounded(c) && Sized(t) && |t.slots| <= c.limit
    ensures Sized(g.table) && |t.slots| <= |g.table.slots| && (g.done ==> |g.table.slots| <= c.limit)
    decreases Room(c, t), 2, |from| - i
  {
    if i >= |from| then Growth(true, t)
    else if from[i].Free? then Refilled(c, from, i + 1, t)
    else
      var g := Put(c, t, from[i].key, from[i].value);
      if g.done then Refilled(c, from, i + 1, g.table) else g
  }

  // The loop of hashmap_put: doubles until there is a place for k.
  ghost function WithPlace<K(!new), V>(c: Setup<K>, t: Table<K, V>, k: K): (g: Growth<K, V>)
    requires Bounded(c) && Sized(t)
    ensures Sized(g.table) && |g.table.slots| >= |t.slots|
    ensures g.done ==> !NoPlace(c.code, g.table, k) && (g.table == t || |g.table.slots| <= c.limit)
    decreases Room(c, t), 1, 0
  {
    if !NoPlace(c.code, t, k) then Growth(true, t)
    else
      var g := Doubled(c, t);
      if g.done then WithPlace(c, g.table, k) else g
  }

  // hashmap_put.
  ghost function Put<K(!new), V>(c: Setup<K>, t: Table<K, V>, k: K, v: V): (g: Growth<K, V>)
    requires Bounded(c) && Sized(t)
    ensures Sized(g.table) && |g.table.slots| >= |t.slots|
    ensures g.done && |t.slots| <= c.limit ==> |g.table.slots| <= c.limit
    decreases Room(c, t), 1, 1
  {
    var g := WithPlace(c, t, k);
    if g.done then Growth(true, Stored(c.code, g.table, k, v)) else g
  }

  // ----- what a prefix of the slots holds

  // b is what is left of a.
  ghost predicate Lost<K(!new), V>(a: map<K, V>, b: map<K, V>) {
    forall k :: k in b ==> k in a && a[k] == b[k]
  }

  lemma EmptyTable<K(!new), V>(t: seq<Slot<K, V>>)
    requires forall p :: 0 <= p < |t| ==> t[p].Free?
    ensures Unique(t) && Contents(t) == map[]
  {
  }

  lemma InPrefix<K(!new), V>(t: seq<Slot<K, V>>, k: K)
    requires Unique(t)
    ensures k in Contents(t) <==> exists p :: 0 <= p < |t| && t[p].Used? && t[p].key == k
  {
  }

  // Its first i slots hold part of what a table holds.
  lemma PrefixLost<K(!new), V>(t: seq<Slot<K, V>>, i: nat)
    requires Unique(t) && i <= |t|
    ensures Unique(t[..i]) && Lost(Contents(t), Contents(t[..i]))
  {
    forall p: nat | p < i && t[p].Used? ensures t[p].key in Contents(t) && Contents(t)[t[p].key] == t[p].value {}
  }

  lemma PrefixKey<K(!new), V>(t: seq<Slot<K, V>>, i: nat, k: K)
    requires Unique(t) && i < |t| && Unique(t[..i]) && Unique(t[..i + 1])
    ensures k in Contents(t[..i + 1]) <==> k in Contents(t[..i]) || (t[i].Used? && t[i].key == k)
  {
    var a, b := t[..i], t[..i + 1];
    InPrefix(a, k);
    InPrefix(b, k);
    if k in Contents(a) {
      var p: nat :| p < i && t[p].Used? && t[p].key == k;
      assert b[p] == t[p];
    }
  }

  lemma PrefixValue<K(!new), V>(t: seq<Slot<K, V>>, i: nat, k: K)
    requires Unique(t) && i < |t| && Unique(t[..i]) && Unique(t[..i + 1]) && k in Contents(t[..i])
    ensures k in Contents(t[..i + 1]) && Contents(t[..i + 1])[k] == Contents(t[..i])[k]
    ensures t[i].Used? ==> t[i].key != k
  {
    var a, b := t[..i], t[..i + 1];
    PrefixKey(t, i, k);
    var p: nat :| p < i && a[p].Used? && a[p].key == k;
    assert a[p] == t[p] == b[p];
  }

  lemma PrefixStep<K(!new), V>(t: seq<Slot<K, V>>, i: nat)
    requires Unique(t) && i < |t| && Unique(t[..i]) && Unique(t[..i + 1])
    ensures t[i].Free? ==> Contents(t[..i + 1]) == Contents(t[..i])
    ensures t[i].Used? ==> t[i].key !in Contents(t[..i]) && Contents(t[..i + 1]) == Contents(t[..i])[t[i].key := t[i].value]
  {
    var a, b := Contents(t[..i]), Contents(t[..i + 1]);
    forall k ensures k in b <==> k in a || (t[i].Used? && t[i].key == k) {
      PrefixKey(t, i, k);
    }
    forall k | k in a ensures b[k] == a[k] && (t[i].Used? ==> t[i].key != k) {
      PrefixValue(t, i, k);
    }
  }

  // now is what the first i slots hold.
  ghost predicate FromFirst<K(!new), V>(t: seq<Slot<K, V>>, i: nat, now: map<K, V>) {
    Unique(t) && i <= |t| && Unique(t[..i]) && now == Contents(t[..i])
  }

  lemma FirstNext<K(!new), V>(t: seq<Slot<K, V>>, i: nat, now: map<K, V>)
    requires FromFirst(t, i, now) && i < |t|
    ensures t[i].Free? ==> FromFirst(t, i + 1, now)
    ensures t[i].Used? ==> t[i].key !in now && FromFirst(t, i + 1, now[t[i].key := t[i].value])
  {
    PrefixLost(t, i + 1);
    PrefixStep(t, i);
  }

  lemma FirstAll<K(!new), V>(t: seq<Slot<K, V>>, now: map<K, V>)
    requires FromFirst(t, |t|, now)
    ensures now == Contents(t)
  {
    assert t[..|t|] == t;
  }

  lemma StopLoses<K(!new), V>(t: seq<Slot<K, V>>, i: nat, now: map<K, V>)
    requires Unique(t) && i < |t| && t[i].Used? && Unique(t[..i]) && Lost(Contents(t[..i]), now)
    ensures Lost(Contents(t), now) && t[i].key in Contents(t) && t[i].key !in now
  {
    PrefixLost(t, i);
    StoppedKey(t, i);
  }

  lemma StoppedKey<K(!new), V>(t: seq<Slot<K, V>>, i: nat)
    requires Unique(t) && i < |t| && t[i].Used? && Unique(t[..i])
    ensures t[i].key in Contents(t) && t[i].key !in Contents(t[..i])
  {
    InPrefix(t[..i], t[i].key);
    assert Holds(t, i, t[i].key);
    HeldIn(t, i, t[i].key);
  }

  // ----- growing keeps the map

  ghost predicate Ok<K(!new), V>(c: Setup<K>, t: Table<K, V>) {
    TableOk(t.slots, c.code) && t.size >= |Contents(t.slots)|
  }

  // No key was put twice since the table was made.
  ghost predicate Exact<K(!new), V>(c: Setup<K>, t: Table<K, V>) {
    Ok(c, t) && t.size == |Contents(t.slots)|
  }

  lemma EmptyExact<K(!new), V>(c: Setup<K>, n: nat)
    requires n >= MAX_CHAIN_LENGTH
    ensures Exact<K, V>(c, Empty(n)) && Contents(Empty<K, V>(n).slots) == map[]
  {
    EmptyTable(Empty<K, V>(n).slots);
  }

  lemma StoredOk<K(!new), V>(c: Setup<K>, t: Table<K, V>, k: K, v: V)
    requires Ok(c, t) && !NoPlace(c.code, t, k)
    ensures var t' := Stored(c.code, t, k, v);
      && Ok(c, t') && Contents(t'.slots) == Contents(t.slots)[k := v] && t'.size == t.size + 1
      && (Exact(c, t) && k !in Contents(t.slots) ==> Exact(c, t'))
  {
    StoreOk(t.slots, c.code, k, v, Steps(c.code, t.slots, k));
  }

  // Some entry is gone.
  ghost predicate Loses<K(!new), V>(a: map<K, V>, b: map<K, V>) {
    exists k :: k in a && k !in b
  }

  // A doubling that a put of k makes is granted, but memory runs out while the entries are put again.
  ghost predicate CutShort<K(!new), V>(c: Setup<K>, t: Table<K, V>, k: K)
    requires Bounded(c) && Sized(t)
    decreases Room(c, t)
  {
    && NoPlace(c.code, t, k) && c.granted(2 * |t.slots|)
    && (Doubled(c, t).done ==> CutShort(c, Doubled(c, t).table, k))
  }

  // What is left of a map that held `was`.
  ghost predicate Left<K(!new), V>(c: Setup<K>, was: map<K, V>, g: Growth<K, V>) {
    Ok(c, g.table) && Lost(was, Contents(g.table.slots))
  }

  lemma {:induction false} DoubledOk<K(!new), V>(c: Setup<K>, t: Table<K, V>)
    requires Bounded(c) && Ok(c, t)
    ensures var g := Doubled(c, t);
      && Left(c, Contents(t.slots), g)
      && (g.done ==> Exact(c, g.table) && Contents(g.table.slots) == Contents(t.slots))
      && (!g.done ==> !c.granted(2 * |g.table.slots|))
      && (Loses(Contents(t.slots), Contents(g.table.slots)) <==> !g.done && c.granted(2 * |t.slots|))
    decreases Room(c, t), 0, 0
  {
    if c.granted(2 * |t.slots|) {
      EmptyExact<K, V>(c, 2 * |t.slots|);
      assert t.slots[..0] == [];
      RefilledOk(c, t.slots, 0, Empty(2 * |t.slots|));
    }
  }

  lemma {:induction false} RefilledOk<K(!new), V>(c: Setup<K>, from: seq<Slot<K, V>>, i: nat, t: Table<K, V>)
    requires Bounded(c) && Exact(c, t) && |t.slots| <= c.limit && FromFirst(from, i, Contents(t.slots))
    ensures var g := Refilled(c, from, i, t);
      && Left(c, Contents(from), g)
      && (g.done ==> Exact(c, g.table) && Contents(g.table.slots) == Contents(from))
      && (!g.done ==> Loses(Contents(from), Contents(g.table.slots)) && !c.granted(2 * |g.table.slots|))
    decreases Room(c, t), 2, |from| - i
  {
    if i == |from| {
      FirstAll(from, Contents(t.slots));
    } else {
      FirstNext(from, i, Contents(t.slots));
      if from[i].Free? {
        RefilledOk(c, from, i + 1, t);
      } else {
        PutOk(c, t, from[i].key, from[i].value);
        var g := Put(c, t, from[i].key, from[i].value);
        if g.done {
          RefilledOk(c, from, i + 1, g.table);
        } else {
          StopLoses(from, i, Contents(g.table.slots));
        }
      }
    }
  }

  lemma {:induction false} WithPlaceOk<K(!new), V>(c: Setup<K>, t: Table<K, V>, k: K)
    requires Bounded(c) && Ok(c, t)
    ensures var g := WithPlace(c, t, k);
      && Left(c, Contents(t.slots), g)
      && (g.done ==> Contents(g.table.slots) == Contents(t.slots) && (g.table == t || Exact(c, g.table)))
      && (!g.done ==> !c.granted(2 * |g.table.slots|))
      && (Loses(Contents(t.slots), Contents(g.table.slots)) <==> CutShort(c, t, k))
    decreases Room(c, t), 1, 0
  {
    if NoPlace(c.code, t, k) {
      DoubledOk(c, t);
      if Doubled(c, t).done { WithPlaceOk(c, Doubled(c, t).table, k); }
    }
  }

  lemma {:induction false} PutOk<K(!new), V>(c: Setup<K>, t: Table<K, V>, k: K, v: V)
    requires Bounded(c) && Ok(c, t)
    ensures var g := Put(c, t, k, v);
      && Ok(c, g.table)
      && (g.done ==> Contents(g.table.slots) == Contents(t.slots)[k := v])
      && (g.done && Exact(c, t) && k !in Contents(t.slots) ==> Exact(c, g.table))
      && (!g.done ==> Lost(Contents(t.slots), Contents(g.table.slots)) && !c.granted(2 * |g.table.slots|))
      && (Loses(Contents(t.slots), Contents(g.table.slots)) <==> CutShort(c, t, k))
    decreases Room(c, t), 1, 1
  {
    WithPlaceOk(c, t, k);
    var g := WithPlace(c, t, k);
    if g.done { StoredOk(c, g.table, k, v); }
  }

  /** A put loses an entry exactly when a doubling that it makes for its key is granted but memory runs out while the
      entries are put again; it never invents or changes one other than its own. */
  lemma {:induction false} PutLosesIff<K(!new), V>(c: Setup<K>, t: Table<K, V>, k: K, v: V)
    requires Bounded(c) && Ok(c, t)
    ensures var g := Put(c, t, k, v);
      && Ok(c, g.table)
      && (Loses(Contents(t.slots), Contents(g.table.slots)) <==> CutShort(c, t, k))
      && Lost(Contents(t.slots)[k := v], Contents(g.table.slots) - {k})
  {
    PutOk(c, t, k, v);
  }

  // ----- what is kept

  lemma {:induction false} RefillStops<K(!new), V>(c: Setup<K>, from: seq<Slot<K, V>>, j: nat, t: Table<K, V>)
    returns (i: nat)
    requires Bounded(c) && Sized(t) && |t.slots| <= c.limit && !Refilled(c, from, j, t).done
    ensures j <= i < |from| && from[i].Used? && Refilled(c, from[..i], j, t).done
    ensures Refilled(c, from, j, t) == WithPlace(c, Refilled(c, from[..i], j, t).table, from[i].key)
    decreases |from| - j
  {
    if from[j].Free? {
      i := RefillStops(c, from, j + 1, t);
    } else {
      var g := Put(c, t, from[j].key, from[j].value);
      if g.done { i := RefillStops(c, from, j + 1, g.table); } else { i := j; }
    }
  }

  /** What a failed doubling leaves: the entries before the first, in slot order, that found no place in the new table,
      when the doubling of that was refused; else what the doubling of that leaves. */
  lemma {:induction false} Kept<K(!new), V>(c: Setup<K>, t: Table<K, V>) returns (i: nat)
    requires Bounded(c) && Ok(c, t) && c.granted(2 * |t.slots|) && !Doubled(c, t).done
    ensures i < |t.slots| && t.slots[i].Used?
    ensures var u := Refilled(c, t.slots[..i], 0, Empty(2 * |t.slots|));
      && u.done && Exact(c, u.table) && Unique(t.slots[..i]) && Contents(u.table.slots) == Contents(t.slots[..i])
      && NoPlace(c.code, u.table, t.slots[i].key)
      && (!c.granted(2 * |u.table.slots|) ==> Doubled(c, t) == Growth(false, u.table))
      && (c.granted(2 * |u.table.slots|) ==> Doubled(c, t) == WithPlace(c, u.table, t.slots[i].key))
  {
    i := RefillStops(c, t.slots, 0, Empty(2 * |t.slots|));
    EmptyExact<K, V>(c, 2 * |t.slots|);
    assert t.slots[..i][..0] == [];
    RefilledOk(c, t.slots[..i], 0, Empty(2 * |t.slots|));
  }

  // ----- when only one doubling is granted

  // The entries from slot i on are put into t one after the other, if each has a place there.
  ghost function Filled<K(!new), V>(code: K -> nat, from: seq<Slot<K, V>>, i: nat, t: Table<K, V>): Option<Table<K, V>>
    requires Sized(t)
    decreases |from| - i
  {
    if i >= |from| then Some(t)
    else if from[i].Free? then Filled(code, from, i + 1, t)
    else if NoPlace(code, t, from[i].key) then None
    else Filled(code, from, i + 1, Stored(code, t, from[i].key, from[i].value))
  }

  lemma {:induction false} PutOnce<K(!new), V>(c: Setup<K>, t: Table<K, V>, k: K, v: V)
    requires Bounded(c) && Sized(t) && !c.granted(2 * |t.slots|)
    ensures Put(c, t, k, v) == if NoPlace(c.code, t, k) then Growth(false, t) else Growth(true, Stored(c.code, t, k, v))
  {
    assert Doubled(c, t) == Growth(false, t);
    assert WithPlace(c, t, k) == Growth(!NoPlace(c.code, t, k), t);
  }

  lemma {:induction false} RefilledIsFilled<K(!new), V>(c: Setup<K>, from: seq<Slot<K, V>>, i: nat, t: Table<K, V>)
    requires Bounded(c) && Sized(t) && |t.slots| <= c.limit && !c.granted(2 * |t.slots|)
    ensures var g := Refilled(c, from, i, t);
      |g.table.slots| == |t.slots| && Filled(c.code, from, i, t) == if g.done then Some(g.table) else None
    decreases |from| - i
  {
    if i < |from| {
      if from[i].Free? {
        RefilledIsFilled(c, from, i + 1, t);
      } else {
        PutOnce(c, t, from[i].key, from[i].value);
        if !NoPlace(c.code, t, from[i].key) {
          RefilledIsFilled(c, from, i + 1, Stored(c.code, t, from[i].key, from[i].value));
        }
      }
    }
  }

  lemma {:induction false} OneDoubling<K(!new), V>(c: Setup<K>, t: Table<K, V>, k: K)
    requires Bounded(c) && Sized(t) && NoPlace(c.code, t, k)
    requires c.granted(2 * |t.slots|) && !c.granted(4 * |t.slots|)
    ensures CutShort(c, t, k) <==> Filled(c.code, t.slots, 0, Empty(2 * |t.slots|)).None?
  {
    var u: Table<K, V> := Empty(2 * |t.slots|);
    RefilledIsFilled(c, t.slots, 0, u);
    assert Doubled(c, t) == Refilled(c, t.slots, 0, u);
    if Doubled(c, t).done { assert !CutShort(c, Doubled(c, t).table, k); }
  }

  /** When memory suffices for one doubling only, a put that finds no place loses an entry exactly when the entries do
      not all fit, put in slot order, into the doubled table. */
  lemma {:induction false} OneDoublingLosesIff<K(!new), V>(c: Setup<K>, t: Table<K, V>, k: K, v: V)
    requires Bounded(c) && Ok(c, t) && NoPlace(c.code, t, k)
    requires c.granted(2 * |t.slots|) && !c.granted(4 * |t.slots|)
    ensures var g := Put(c, t, k, v);
      && Ok(c, g.table)
      && (Loses(Contents(t.slots), Contents(g.table.slots)) <==>
            Filled(c.code, t.slots, 0, Empty(2 * |t.slots|)).None?)
  {
    PutLosesIff(c, t, k, v);
    OneDoubling(c, t, k);
  }
}
