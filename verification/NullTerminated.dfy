/** Arrays that are filled from the front and padded with NULL, as wires keep their ports in. */
module NullTerminated {
  import opened Options

  // No element after a NULL.
  predicate GapFree<T>(s: seq<Option<T>>) {
    forall i, j :: 0 <= i < j < |s| && s[i].None? ==> s[j].None?
  }

  // The elements before the first NULL.
  function Members<T>(s: seq<Option<T>>): seq<T> {
    if s == [] || s[0].None? then [] else [s[0].value] + Members(s[1..])
  }

  // What appending does: the first NULL slot is taken, or the array grows by one.
  function Appended<T>(s: seq<Option<T>>, x: T): seq<Option<T>> {
    var n := |Members(s)|;
    MembersAt(s);
    if n == |s| then s + [Some(x)]
    else
      var t := s[n := Some(x)];
      if n + 1 < |s| then t[n + 1 := None] else t
  }

  // What popping does: the elements behind move down, and the last slot becomes NULL.
  function Dropped<T>(s: seq<Option<T>>, i: nat): seq<Option<T>>
    requires i < |s|
  {
    s[..i] + s[i + 1..] + [None]
  }

  lemma {:induction false} MembersAt<T>(s: seq<Option<T>>)
    ensures |Members(s)| <= |s|
    ensures forall i :: 0 <= i < |Members(s)| ==> s[i] == Some(Members(s)[i])
    ensures |Members(s)| < |s| ==> s[|Members(s)|] == None
    decreases |s|
  {
    if s != [] && s[0].Some? { MembersAt(s[1..]); }
  }

  lemma {:induction false} MembersUnique<T>(s: seq<Option<T>>, m: seq<T>)
    requires |m| <= |s| && (forall i :: 0 <= i < |m| ==> s[i] == Some(m[i])) && (|m| < |s| ==> s[|m|] == None)
    ensures Members(s) == m
    decreases |s|
  {
    if m != [] { MembersUnique(s[1..], m[1..]); }
  }

  lemma {:induction false} AppendedMembers<T>(s: seq<Option<T>>, x: T)
    requires GapFree(s)
    ensures GapFree(Appended(s, x)) && Members(Appended(s, x)) == Members(s) + [x]
  {
    MembersAt(s);
    MembersUnique(Appended(s, x), Members(s) + [x]);
  }

  /** Appending to any array, one with gaps too: the first NULL slot, or a new last one, is taken, the slot behind it
      becomes NULL, and every other slot stays. */
  lemma {:induction false} AppendedSlots<T>(s: seq<Option<T>>, x: T, n: nat)
    requires n <= |s| && (forall i :: 0 <= i < n ==> s[i].Some?) && (n < |s| ==> s[n].None?)
    ensures var t := Appended(s, x);
      && |t| == (if n < |s| then |s| else n + 1) && t[n] == Some(x) && (n + 1 < |t| ==> t[n + 1] == None)
      && forall i :: 0 <= i < |s| && i != n && i != n + 1 ==> t[i] == s[i]
  {
    MembersUnique(s, seq(n, i requires 0 <= i < n => s[i].value));
  }

  lemma {:induction false} DroppedMembers<T>(s: seq<Option<T>>, i: nat)
    requires GapFree(s) && i < |Members(s)|
    ensures i < |s| && GapFree(Dropped(s, i)) && Members(Dropped(s, i)) == Members(s)[..i] + Members(s)[i + 1..]
  {
    MembersAt(s);
    var m := Members(s)[..i] + Members(s)[i + 1..];
    forall k | 0 <= k < |m| ensures Dropped(s, i)[k] == Some(m[k]) {}
    MembersUnique(Dropped(s, i), m);
  }

  /** Appends at the first NULL, or moves to an array that is one longer. */
  method Append<T(0)>(a: array<Option<T>>, x: T) returns (b: array<Option<T>>)
    modifies a
    ensures (b == a || fresh(b)) && b[..] == Appended(old(a[..]), x)
  {
    var n := 0;
    MembersAt(a[..]);
    while n < a.Length && a[n].Some?
      invariant 0 <= n <= |Members(a[..])| && a[..] == old(a[..])
    {
      MembersAt(a[..]);
      n := n + 1;
    }
    MembersAt(a[..]);
    ghost var s := a[..];
    assert n == |Members(s)|;
    if n == a.Length {
      b := new Option<T>[n + 1](i requires 0 <= i <= a.Length reads a => if i < a.Length then a[i] else Some(x));
      assert b[..n] == s && b[n] == Some(x);
      assert b[..] == s + [Some(x)] == Appended(s, x);
    } else {
      b := a;
      b[n] := Some(x);
      if n + 1 < b.Length {
        b[n + 1] := None;
      }
      assert b[..] == Appended(s, x);
    }
  }

  /** Shifts the elements behind index down by one. */
  method Pop<T>(a: array<Option<T>>, index: nat)
    requires index < a.Length
    modifies a
    ensures a[..] == Dropped(old(a[..]), index)
  {
    var i := index;
    while i < a.Length - 1
      invariant index <= i < a.Length
      invariant forall k :: 0 <= k < a.Length ==> a[k] == if index <= k < i then old(a[k + 1]) else old(a[k])
    {
      a[i] := a[i + 1];
      i := i + 1;
    }
    a[a.Length - 1] := None;
  }
}
