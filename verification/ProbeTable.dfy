/** Open addressing with a bounded linear probe, on the slots of one table. */
module ProbeTable {
  datatype Slot<+K, +V> = Free | Used(key: K, value: V)

  const MAX_CHAIN_LENGTH := 8

  // The slot at which the probe for k starts: the remainder of the key's code.
  function Home<K>(code: K -> nat, k: K, size: nat): (h: nat)
    requires size > 0
    ensures h < size
  {
    code(k) % size
  }

  // The slot i steps after h.
  function At(h: nat, i: nat, size: nat): nat
    requires h < size && i <= size
  {
    if h + i < size then h + i else h + i - size
  }

  lemma AtNext(h: nat, i: nat, size: nat)
    requires h < size && i < size
    ensures At(h, i, size) < size && At(h, i + 1, size) == (At(h, i, size) + 1) % size
  {
  }

  // No two slots hold the same key.
  ghost predicate Unique<K, V>(t: seq<Slot<K, V>>) {
    forall p, q :: 0 <= p < q < |t| && t[p].Used? && t[q].Used? ==> t[p].key != t[q].key
  }

  ghost function Contents<K, V>(t: seq<Slot<K, V>>): map<K, V>
    requires Unique(t)
  {
    map p | 0 <= p < |t| && t[p].Used? :: t[p].key := t[p].value
  }

  ghost predicate UsedUpTo<K, V>(t: seq<Slot<K, V>>, h: nat, i: nat)
    requires h < |t| && i <= |t|
  {
    forall q :: 0 <= q < i ==> t[At(h, q, |t|)].Used?
  }

  // Slot p lies within the chain of its key's code, with no hole before it.
  ghost predicate Placed<K(!new), V>(t: seq<Slot<K, V>>, code: K -> nat, p: nat)
    requires p < |t| && t[p].Used? && |t| >= MAX_CHAIN_LENGTH
  {
    exists i :: 0 <= i < MAX_CHAIN_LENGTH && At(Home(code, t[p].key, |t|), i, |t|) == p && UsedUpTo(t, Home(code, t[p].key, |t|), i)
  }

  ghost predicate TableOk<K(!new), V>(t: seq<Slot<K, V>>, code: K -> nat) {
    && |t| >= MAX_CHAIN_LENGTH && Unique(t)
    && forall p: nat :: p < |t| && t[p].Used? ==> Placed(t, code, p)
  }

  // No slot of the first i of k's chain is free or holds k.
  ghost predicate Passed<K, V>(t: seq<Slot<K, V>>, h: nat, k: K, i: nat)
    requires h < |t| && i <= |t|
  {
    forall q :: 0 <= q < i ==> t[At(h, q, |t|)].Used? && t[At(h, q, |t|)].key != k
  }

  ghost predicate Holds<K, V>(t: seq<Slot<K, V>>, p: nat, k: K) {
    p < |t| && t[p].Used? && t[p].key == k
  }

  lemma HeldIn<K, V>(t: seq<Slot<K, V>>, p: nat, k: K)
    requires Unique(t) && Holds(t, p, k)
    ensures k in Contents(t) && Contents(t)[k] == t[p].value
  {
  }

  /** A key that no slot of its chain holds is nowhere in the table. */
  lemma InChain<K(!new), V>(t: seq<Slot<K, V>>, code: K -> nat, k: K)
    requires TableOk(t, code)
    requires forall i :: 0 <= i < MAX_CHAIN_LENGTH ==> !Holds(t, At(Home(code, k, |t|), i, |t|), k)
    ensures k !in Contents(t)
  {
    forall p: nat | p < |t| && t[p].Used? ensures t[p].key != k {
      assert Placed(t, code, p);
    }
  }

  /** Where the probe stops at a free slot, the key is nowhere in the table. */
  lemma FreeMeansAbsent<K(!new), V>(t: seq<Slot<K, V>>, code: K -> nat, k: K, i: nat)
    requires TableOk(t, code) && i < MAX_CHAIN_LENGTH && Passed(t, Home(code, k, |t|), k, i)
    requires t[At(Home(code, k, |t|), i, |t|)].Free?
    ensures k !in Contents(t)
  {
    forall p: nat | p < |t| && t[p].Used? ensures t[p].key != k {
      assert Placed(t, code, p);
    }
  }

  // Storing at the slot where the probe stopped.
  lemma StoreOk<K(!new), V>(t: seq<Slot<K, V>>, code: K -> nat, k: K, v: V, i: nat)
    requires TableOk(t, code) && i < MAX_CHAIN_LENGTH && Passed(t, Home(code, k, |t|), k, i)
    requires var p := At(Home(code, k, |t|), i, |t|); t[p].Used? ==> t[p].key == k
    ensures var p := At(Home(code, k, |t|), i, |t|);
      TableOk(t[p := Used(k, v)], code) && Contents(t[p := Used(k, v)]) == Contents(t)[k := v]
  {
    var h := Home(code, k, |t|);
    var p := At(h, i, |t|);
    var t' := t[p := Used(k, v)];
    StoreUnique(t, code, k, v, i);
    forall q: nat | q < |t'| && t'[q].Used? ensures Placed(t', code, q) {
      if q == p {
        assert UsedUpTo(t', h, i);
      } else {
        assert Placed(t, code, q);
        var j :| 0 <= j < MAX_CHAIN_LENGTH && At(Home(code, t[q].key, |t|), j, |t|) == q && UsedUpTo(t, Home(code, t[q].key, |t|), j);
        assert UsedUpTo(t', Home(code, t[q].key, |t|), j);
      }
    }
    StoreContents(t, p, k, v);
  }

  lemma StoreUnique<K(!new), V>(t: seq<Slot<K, V>>, code: K -> nat, k: K, v: V, i: nat)
    requires TableOk(t, code) && i < MAX_CHAIN_LENGTH && Passed(t, Home(code, k, |t|), k, i)
    requires var p := At(Home(code, k, |t|), i, |t|); t[p].Used? ==> t[p].key == k
    ensures Unique(t[At(Home(code, k, |t|), i, |t|) := Used(k, v)])
  {
    var p := At(Home(code, k, |t|), i, |t|);
    if t[p].Free? {
      FreeMeansAbsent(t, code, k, i);
      forall q: nat | q < |t| && t[q].Used? ensures t[q].key != k { assert t[q].key in Contents(t); }
    } else {
      forall q: nat | q < |t| && q != p && t[q].Used? ensures t[q].key != k {}
    }
  }

  lemma StoreContents<K, V>(t: seq<Slot<K, V>>, p: nat, k: K, v: V)
    requires p < |t| && Unique(t) && Unique(t[p := Used(k, v)]) && (t[p].Used? ==> t[p].key == k)
    ensures Contents(t[p := Used(k, v)]) == Contents(t)[k := v]
  {
    var t' := t[p := Used(k, v)];
    var a, b := Contents(t'), Contents(t)[k := v];
    forall x ensures x in a <==> x in b {
      if x in a {
        var q: nat :| q < |t'| && t'[q].Used? && t'[q].key == x;
        if q != p { assert t[q].key in Contents(t); }
      }
      if x in b && x != k {
        var q: nat :| q < |t| && t[q].Used? && t[q].key == x;
        assert t'[q].key in a;
      }
      if x == k { assert t'[p].key in a; }
    }
  }
}
