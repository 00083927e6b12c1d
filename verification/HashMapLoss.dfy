/** An input on which a put that runs out of memory loses entries: sixteen keys, of which nine have one code and seven
    the codes after it, so that they wrap around the end of the first table. */
module HashMapLoss {
  import opened HashGrowth
  import opened HashMap
  import opened ProbeTable
  import G = HashGrowth

  // Keys 0 to 7 and 15 have code 248, keys 8 to 14 codes 249 to 255.
  function Code(k: nat): nat {
    if 8 <= k < 15 then 241 + k else 248
  }

  // The first doubling is granted, the second is not.
  function UpTo512(n: nat): bool {
    n <= 512
  }

  ghost function Two(): Setup<nat> {
    Setup(Code, UpTo512, 512)
  }

  function Entry(k: nat): Slot<nat, nat> {
    Used(k, k)
  }

  // The table of 256 slots after the puts of keys 0 to j - 1: 0 to 7 fill the last eight slots, 8 to 14 the first seven.
  function First(j: nat): (t: Table<nat, nat>)
    ensures |t.slots| == 256
  {
    Table(seq(256, p requires 0 <= p < 256 =>
                if 248 <= p < 248 + j then Entry(p - 248) else if p < 7 && p + 8 < j then Entry(p + 8) else Free), j)
  }

  // The table of 512 slots after the first j entries of it were put again: keys 8 to 14, then key 0.
  function Second(j: nat): (t: Table<nat, nat>)
    ensures |t.slots| == 512
  {
    Table(seq(512, p requires 0 <= p < 512 =>
                if 249 <= p < 249 + j && p < 256 then Entry(p - 241) else if p == 248 && j == 8 then Entry(0) else Free), j)
  }

  lemma {:induction false} StopIs(s: seq<Slot<nat, nat>>, h: nat, k: nat, i: nat, n: nat)
    requires h < |s| && i <= n <= MAX_CHAIN_LENGTH <= |s|
    requires forall q :: i <= q < n ==> s[At(h, q, |s|)].Used? && s[At(h, q, |s|)].key != k
    requires n < MAX_CHAIN_LENGTH ==> s[At(h, n, |s|)].Free?
    ensures Stop(s, h, k, i) == n
    decreases n - i
  {
    if i < n { StopIs(s, h, k, i + 1, n); }
  }

  // ----- the first fifteen puts

  lemma LowPlace(k: nat)
    requires k < 8
    ensures Steps(Code, First(k).slots, k) == k
  {
    var s := First(k).slots;
    assert Home(Code, k, 256) == 248;
    forall q | 0 <= q < k ensures s[At(248, q, |s|)].Used? && s[At(248, q, |s|)].key != k {
      assert At(248, q, 256) == 248 + q;
    }
    assert At(248, k, 256) == 248 + k;
    StopIs(s, 248, k, 0, k);
  }

  // The probe passes the rest of the last eight slots, and the keys put after them.
  lemma HighPlace(k: nat)
    requires 8 <= k < 15
    ensures Steps(Code, First(k).slots, k) == 7
  {
    var s, h := First(k).slots, Code(k);
    assert Home(Code, k, 256) == h == 241 + k;
    forall q | 0 <= q < 7 ensures s[At(h, q, |s|)].Used? && s[At(h, q, |s|)].key != k {
      assert At(h, q, 256) == if h + q < 256 then h + q else k + q - 15;
    }
    assert At(h, 7, 256) == k - 8;
    StopIs(s, h, k, 0, 7);
  }

  lemma FirstPlace(k: nat)
    requires k < 15
    ensures !NoPlace(Code, First(k), k) && Place(Code, First(k), k) == if k < 8 then 248 + k else k - 8
  {
    if k < 8 {
      LowPlace(k);
      assert At(248, k, 256) == 248 + k;
    } else {
      HighPlace(k);
      assert At(Code(k), 7, 256) == k - 8;
    }
  }

  lemma FirstPut(k: nat)
    requires k < 15
    ensures G.Put(Two(), First(k), k, k) == Growth(true, First(k + 1))
  {
    FirstPlace(k);
    assert Stored(Code, First(k), k, k).slots == First(k + 1).slots;
  }

  lemma FirstFull()
    ensures NoPlace(Code, First(15), 15)
  {
    StopIs(First(15).slots, 248, 15, 0, 8);
  }

  // ----- the refill

  // The key of the used slot number j of the first table.
  function Again(j: nat): nat {
    if j < 7 then j + 8 else j - 7
  }

  lemma SecondPut(j: nat)
    requires j < 8
    ensures G.Put(Two(), Second(j), Again(j), Again(j)) == Growth(true, Second(j + 1))
  {
    var k := Again(j);
    assert Home(Code, k, 512) == Code(k) == if j < 7 then 249 + j else 248;
    StopIs(Second(j).slots, Code(k), k, 0, 0);
    assert Place(Code, Second(j), k) == Code(k);
    assert Stored(Code, Second(j), k, k).slots == Second(j + 1).slots;
  }

  lemma SecondFull()
    ensures G.Put(Two(), Second(8), 1, 1) == Growth(false, Second(8))
  {
    StopIs(Second(8).slots, 248, 1, 0, 8);
    PutOnce(Two(), Second(8), 1, 1);
  }

  // The seven entries at the front.
  lemma {:induction false} FrontAgain(j: nat)
    requires j <= 7
    ensures Refilled(Two(), First(15).slots, j, Second(j)) == Refilled(Two(), First(15).slots, 7, Second(7))
    decreases 7 - j
  {
    if j < 7 {
      SecondPut(j);
      assert First(15).slots[j] == Entry(Again(j));
      FrontAgain(j + 1);
    }
  }

  lemma {:induction false} FreeSkipped<K(!new), V>(c: Setup<K>, from: seq<Slot<K, V>>, i: nat, j: nat, t: Table<K, V>)
    requires Bounded(c) && Sized(t) && |t.slots| <= c.limit
    requires i <= j <= |from| && forall p :: i <= p < j ==> from[p].Free?
    ensures Refilled(c, from, i, t) == Refilled(c, from, j, t)
    decreases j - i
  {
    if i < j { FreeSkipped(c, from, i + 1, j, t); }
  }

  // Key 0 takes the first slot of its chain, the other seven of which are taken: key 1 has no place.
  lemma BackStops()
    ensures Refilled(Two(), First(15).slots, 248, Second(7)) == Growth(false, Second(8))
  {
    var s := First(15).slots;
    SecondPut(7);
    assert s[248] == Entry(0) && s[249] == Entry(1);
    assert Refilled(Two(), s, 248, Second(7)) == Refilled(Two(), s, 249, Second(8));
    SecondFull();
  }

  lemma RefillStopsHere()
    ensures Doubled(Two(), First(15)) == Growth(false, Second(8))
  {
    assert Second(0).slots == Empty<nat, nat>(512).slots;
    FrontAgain(0);
    FreeSkipped(Two(), First(15).slots, 7, 248, Second(7));
    BackStops();
  }

  // ----- all sixteen puts

  lemma LastPut()
    ensures G.Put(Two(), First(15), 15, 15) == Growth(false, Second(8))
  {
    FirstFull();
    RefillStopsHere();
    assert WithPlace(Two(), First(15), 15) == Growth(false, Second(8));
  }

  const KEYS: set<nat> := set k: nat | 0 <= k < 15

  const KEPT: set<nat> := KEYS - {1, 2, 3, 4, 5, 6, 7}

  lemma FirstKeys()
    ensures Unique(First(15).slots) && Contents(First(15).slots).Keys == KEYS
  {
    var s := First(15).slots;
    forall k: nat | k < 15 ensures k in Contents(s) {
      assert s[if k < 8 then 248 + k else k - 8] == Entry(k);
    }
  }

  lemma SecondKeys()
    ensures Unique(Second(8).slots) && Contents(Second(8).slots).Keys == KEPT
  {
    var s := Second(8).slots;
    assert s[248] == Entry(0);
    forall k: nat | 8 <= k < 15 ensures k in Contents(s) { assert s[k + 241] == Entry(k); }
  }

  // A map whose table is First(n).
  ghost predicate Holding(m: Map<nat, nat>, n: nat)
    reads m, m.data
  {
    m.Valid() && m.Setting() == Two() && m.Held() == First(n)
  }

  method New() returns (m: Map<nat, nat>)
    ensures Holding(m, 0) && fresh(m) && fresh(m.data)
  {
    m := new Map(Code, UpTo512, 512);
    assert First(0).slots == Empty<nat, nat>(INITIAL_SIZE).slots;
  }

  method PutNext(m: Map<nat, nat>, k: nat) returns (ok: bool)
    requires Holding(m, k) && k < 15
    modifies m, m.data
    ensures ok && Holding(m, k + 1) && (m.data == old(m.data) || fresh(m.data))
  {
    FirstPut(k);
    var status := m.Put(k, k);
    ok := status == Ok;
  }

  method Fill(m: Map<nat, nat>) returns (ok: bool)
    requires Holding(m, 0)
    modifies m, m.data
    ensures ok && Holding(m, 15) && m.Now().Keys == KEYS && (m.data == old(m.data) || fresh(m.data))
  {
    ok := true;
    for k: nat := 0 to 15
      invariant ok && Holding(m, k) && (m.data == old(m.data) || fresh(m.data))
    {
      var done := PutNext(m, k);
      ok := ok && done;
    }
    FirstKeys();
  }

  /** Fifteen puts succeed, the sixteenth fails, and of the fifteen keys in the map seven are gone. */
  method LosesEntries() returns (ok: bool, last: Status, m: Map<nat, nat>)
    ensures ok && last == OutOfMemory
    ensures m.Valid() && m.Now().Keys == KEPT
  {
    m := New();
    ok := Fill(m);
    LastPut();
    last := m.Put(15, 15);
    SecondKeys();
  }
}
