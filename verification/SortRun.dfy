/** The sorting network on direct wires: whatever the order of the drives, it ends up sorted. */
module SortRun {
  import opened Circuit
  import opened Options
  import opened SortNetwork
  import DirectWires

  // The first i inputs hold a[0], ..., a[i - 1].
  predicate InputsHold(val: map<Name, int>, a: seq<int>, i: nat) {
    i <= |a| && forall k :: 0 <= k < i ==> I(k) in val && val[I(k)] == a[k]
  }

  function AboveRow(a: seq<int>, i: nat): seq<int>
    requires i < |a|
  {
    if i == 0 then [] else Rows(a, i - 1)
  }

  lemma {:induction false} RowsLength(a: seq<int>, i: nat)
    requires i < |a|
    ensures |Rows(a, i)| == i + 1 && |AboveRow(a, i)| == i
  {
    RowsSort(a, i);
    if i > 0 { RowsSort(a, i - 1); }
  }

  // In a settled circuit port j of an enabled gate that reads xs shows its function of xs.
  lemma PortShows(c: Net<Name, int>, val: map<Name, int>, g: nat, j: nat, xs: seq<int>)
    requires DirectWires.Settled(c, val) && g < |c.gates| && c.gates[g].enabled && Wired(c.gates[g].ins) != []
    requires Ready(c.gates[g], val) && Inputs(c.gates[g], val) == xs
    requires j < |c.gates[g].outs| && c.gates[g].outs[j].Some? && Out(c.gates[g], xs, j).Some?
    ensures var w := c.gates[g].outs[j].value; w in val && val[w] == Out(c.gates[g], xs, j).value
  {
    assert DirectWires.PortOk(c, val, g, j);
  }

  lemma BoxAt(n: nat, i: nat, j: nat)
    requires j <= i < n
    ensures 0 <= Nth(i, j) < |Network(n, true).gates| && Network(n, true).gates[Nth(i, j)] == Box(n, i, j, true)
  {
    AtNth(i, j);
    RowsBelow(n, i, j);
  }

  lemma OneInput(c: Net<Name, int>, val: map<Name, int>, g: nat, l: Name, d: Name)
    requires DirectWires.Settled(c, val) && g < |c.gates| && l in val
    requires c.gates[g] == Gate([None, Some(l)], [Some(d), None], true, false, SortBox, None)
    ensures d in val && val[d] == val[l]
  {
    WiredTwo(None, l);
    assert Inputs(c.gates[g], val) == [val[l]];
    PortShows(c, val, g, 0, [val[l]]);
  }

  lemma TwoInputs(c: Net<Name, int>, val: map<Name, int>, g: nat, u: Name, l: Name, d: Name, r: Name)
    requires DirectWires.Settled(c, val) && g < |c.gates| && u in val && l in val
    requires c.gates[g] == Gate([Some(u), Some(l)], [Some(d), Some(r)], true, false, SortBox, None)
    ensures d in val && val[d] == Min(val[u], val[l])
    ensures r in val && val[r] == Max(val[u], val[l])
  {
    var x, y := val[u], val[l];
    WiredTwo(Some(u), l);
    assert Inputs(c.gates[g], val) == [x, y];
    assert SortBox([x, y]) == if x < y then [Pass(0), Pass(1)] else [Pass(1), Pass(0)];
    PortShows(c, val, g, 0, [x, y]);
    PortShows(c, val, g, 1, [x, y]);
  }

  lemma WiredTwo(u: Option<Name>, l: Name)
    ensures Wired([u, Some(l)]) == if u.Some? then [u.value, l] else [l]
  {
    var ins := [u, Some(l)];
    assert ins[1..] == [Some(l)] && [Some(l)][1..] == [];
    assert Wired([Some(l)]) == [l];
  }

  // Wire w holds v.
  predicate Holds(val: map<Name, int>, w: Name, v: int) {
    w in val && val[w] == v
  }

  // What box (i, j) shows when its inputs are carry, from the left, and the value above it.
  lemma BoxStep(n: nat, val: map<Name, int>, i: nat, j: nat, above: seq<int>, carry: int)
    requires DirectWires.Settled(Network(n, true), val) && j <= i < n && |above| == i
    requires Holds(val, Left(i, j), Carry(above, carry, j))
    requires i != j ==> Holds(val, Upper(i, j).value, above[j])
    ensures i != j ==> Holds(val, Down(n, i, j), Min(above[j], Carry(above, carry, j)))
    ensures i == j ==> Holds(val, Down(n, i, j), Carry(above, carry, j))
    ensures i != j ==> Holds(val, Right(i, j).value, Carry(above, carry, j + 1))
  {
    BoxAt(n, i, j);
    if i == j {
      OneInput(Network(n, true), val, Nth(i, j), Left(i, j), Down(n, i, j));
    } else {
      TwoInputs(Network(n, true), val, Nth(i, j), Upper(i, j).value, Left(i, j), Down(n, i, j), Right(i, j).value);
    }
  }

  lemma {:induction false} BoxValues(n: nat, val: map<Name, int>, a: seq<int>, i: nat, j: nat)
    requires DirectWires.Settled(Network(n, true), val) && j <= i < n && InputsHold(val, a, i + 1)
    ensures |Rows(a, i)| == i + 1 && |AboveRow(a, i)| == i
    ensures Holds(val, Down(n, i, j), Rows(a, i)[j])
    ensures i != j ==> Holds(val, Right(i, j).value, Carry(AboveRow(a, i), a[i], j + 1))
    decreases i, j
  {
    RowsLength(a, i);
    if j > 0 {
      BoxValues(n, val, a, i, j - 1);
      LeftIsRight(i, j);
    }
    if i != j {
      BoxValues(n, val, a, i - 1, j);
      UpperIsDown(n, i, j);
    }
    BoxStep(n, val, i, j, AboveRow(a, i), a[i]);
    InsertAt(AboveRow(a, i), a[i], j);
  }

  lemma UpperIsDown(n: nat, i: nat, j: nat)
    requires j < i < n
    ensures Upper(i, j) == Some(Down(n, i - 1, j))
  {
    AtNth(i - 1, j);
  }

  lemma LeftIsRight(i: nat, j: nat)
    requires 0 < j <= i
    ensures Right(i, j - 1) == Some(Left(i, j))
  {
    AtNth(i - 1, j - 1);
  }

  // The values on the output wires.
  function Outputs(n: nat, val: map<Name, int>): seq<int>
    requires forall j :: 0 <= j < n ==> O(j) in val
  {
    seq(n, j requires 0 <= j < n && O(j) in val => val[O(j)])
  }

  // The outputs are the last row.
  lemma {:induction false} OutputsAreRow(n: nat, val: map<Name, int>, a: seq<int>)
    requires DirectWires.Settled(Network(n, true), val) && |a| == n > 0 && InputsHold(val, a, n)
    ensures forall j :: 0 <= j < n ==> O(j) in val
    ensures Outputs(n, val) == Rows(a, n - 1)
  {
    RowsSort(a, n - 1);
    forall j: nat | j < n ensures O(j) in val && val[O(j)] == Rows(a, n - 1)[j] {
      BoxValues(n, val, a, n - 1, j);
      assert Down(n, n - 1, j) == O(j);
    }
  }

  lemma OutputsSorted(n: nat, val: map<Name, int>, a: seq<int>)
    requires DirectWires.Settled(Network(n, true), val) && |a| == n && InputsHold(val, a, n)
    ensures forall j :: 0 <= j < n ==> O(j) in val
    ensures Sorted(Outputs(n, val)) && multiset(Outputs(n, val)) == multiset(a)
  {
    if n > 0 {
      OutputsAreRow(n, val, a);
      RowsSort(a, n - 1);
      assert a[..n] == a;
    } else {
      assert Outputs(n, val) == a;
    }
  }

  /** For every n and every sequence of drives of the inputs, in any order and with repeats: once each
      input was driven, the outputs hold the sorted permutation of the values last driven. */
  lemma {:induction false} SortsAnyDrives(n: nat, drives: seq<(Name, int)>, a: seq<int>)
    requires forall i :: 0 <= i < |drives| ==> drives[i].0.I? && drives[i].0.k < n
    requires |a| == n && InputsHold(DirectWires.Last(drives), a, n)
    ensures WellFormed(Network(n, true), w => Height(n, w))
    ensures var val := DirectWires.DriveAll(Network(n, true), w => Height(n, w), DirectWires.Signals(map[], []), drives).val;
      && (forall j :: 0 <= j < n ==> O(j) in val)
      && Sorted(Outputs(n, val)) && multiset(Outputs(n, val)) == multiset(a)
  {
    NetworkWellFormed(n, true);
    forall w: Name | w.I? && w.k < n ensures Source(Network(n, true), w) {
      OneDriverOneReader(n, true, w);
    }
    DirectWires.DriveAllSettles(Network(n, true), w => Height(n, w), drives);
    var val := DirectWires.DriveAll(Network(n, true), w => Height(n, w), DirectWires.Signals(map[], []), drives).val;
    forall k: nat | k < n ensures I(k) in val && val[I(k)] == a[k] {
      assert Source(Network(n, true), I(k));
    }
    OutputsSorted(n, val, a);
  }
}
