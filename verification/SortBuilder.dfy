/** Builds the sorting network box by box, creating wires by name as they are first mentioned. */
module SortBuilder {
  import opened Circuit
  import opened Options
  import opened SortNetwork
  import opened SortRun
  import DirectWires
  import DirectBoard

  // Some port of the first k boxes is on w.
  ghost predicate Known(n: nat, w: Name, k: nat)
    requires IsWire(n, w)
  {
    (!w.I? && Driver(n, w).gate < k) || (!w.O? && Reader(w).gate < k)
  }

  // The drivens after the first k boxes.
  ghost function DrivensUpTo(n: nat, k: nat): map<Name, seq<Tap>> {
    map w | w in Wires(n) && IsWire(n, w) && Known(n, w, k) :: if !w.O? && Reader(w).gate < k then [Reader(w)] else []
  }

  function Created(d: map<Name, seq<Tap>>, w: Name): map<Name, seq<Tap>> {
    if w in d then d else d[w := []]
  }

  function Appended(d: map<Name, seq<Tap>>, w: Name, t: Tap): map<Name, seq<Tap>> {
    Created(d, w)[w := Created(d, w)[w] + [t]]
  }

  // The drivens after box (i, j) was wired too.
  function CellWired(d: map<Name, seq<Tap>>, n: nat, i: nat, j: nat): map<Name, seq<Tap>>
    requires j <= i
  {
    var d1 := if i != j then Appended(d, Upper(i, j).value, Tap(Nth(i, j), 0)) else d;
    var d2 := Appended(d1, Left(i, j), Tap(Nth(i, j), 1));
    var d3 := Created(d2, Down(n, i, j));
    if i != j then Created(d3, Right(i, j).value) else d3
  }

  lemma CellStep(n: nat, i: nat, j: nat)
    requires j <= i < n
    ensures CellWired(DrivensUpTo(n, Nth(i, j)), n, i, j) == DrivensUpTo(n, Nth(i, j) + 1)
  {
    var k := Nth(i, j);
    var e, f := CellWired(DrivensUpTo(n, k), n, i, j), DrivensUpTo(n, k + 1);
    forall w ensures (w in e <==> w in f) && (w in e ==> e[w] == f[w]) {
      CellStepAt(n, i, j, w);
    }
    SameMap(e, f);
  }

  lemma SameMap<K, V>(e: map<K, V>, f: map<K, V>)
    requires forall w :: (w in e <==> w in f) && (w in e ==> e[w] == f[w])
    ensures e == f
  {
  }

  lemma CellStepAt(n: nat, i: nat, j: nat, w: Name)
    requires j <= i < n
    ensures var e, f := CellWired(DrivensUpTo(n, Nth(i, j)), n, i, j), DrivensUpTo(n, Nth(i, j) + 1);
      (w in e <==> w in f) && (w in e ==> e[w] == f[w])
  {
    InWires(n, w);
    ReadsIffReader(n, w, i, j, 0);
    ReadsIffReader(n, w, i, j, 1);
    DrivesIffDriver(n, w, i, j, 0);
    DrivesIffDriver(n, w, i, j, 1);
    PortsBelow(n, w);
    CellWiredAt(DrivensUpTo(n, Nth(i, j)), n, i, j, w);
  }

  lemma PortsBelow(n: nat, w: Name)
    ensures IsWire(n, w) && !w.O? ==> Reader(w).port < 2
    ensures IsWire(n, w) && !w.I? ==> Driver(n, w).port < 2
  {
  }

  lemma CellWiredAt(d: map<Name, seq<Tap>>, n: nat, i: nat, j: nat, w: Name)
    requires j <= i
    ensures var e, was, g := CellWired(d, n, i, j), if w in d then d[w] else [], Nth(i, j);
      && (w in e <==> w in d || Upper(i, j) == Some(w) || Left(i, j) == w || Down(n, i, j) == w || Right(i, j) == Some(w))
      && (w in e && Upper(i, j) == Some(w) ==> e[w] == was + [Tap(g, 0)])
      && (w in e && Left(i, j) == w ==> e[w] == was + [Tap(g, 1)])
      && (w in e && Upper(i, j) != Some(w) && Left(i, j) != w ==> e[w] == was)
  {
  }

  // The first k boxes are there and wired.
  ghost predicate BuiltUpTo(gates: seq<Gate<Name, int>>, drivens: map<Name, seq<Tap>>, n: nat, k: nat) {
    |gates| == k && drivens == DrivensUpTo(n, k) &&
    forall i :: 0 <= i < k ==> gates[i] == Box(n, At(i).0, At(i).1, false)
  }

  lemma BuiltStep(
    gs: seq<Gate<Name, int>>, d: map<Name, seq<Tap>>, gs': seq<Gate<Name, int>>, d': map<Name, seq<Tap>>,
    n: nat, i: nat, j: nat)
    requires j <= i < n && BuiltUpTo(gs, d, n, Nth(i, j))
    requires gs' == gs + [Box(n, i, j, false)] && d' == CellWired(d, n, i, j)
    ensures BuiltUpTo(gs', d', n, Nth(i, j) + 1)
  {
    var k := Nth(i, j);
    assert d' == DrivensUpTo(n, k + 1) by { CellStep(n, i, j); }
    AtNth(i, j);
    forall x | 0 <= x < k + 1 ensures gs'[x] == Box(n, At(x).0, At(x).1, false) {
      if x < k { assert gs'[x] == gs[x]; }
    }
  }

  class Builder {
    var gates: seq<Gate<Name, int>>
    var drivens: map<Name, seq<Tap>>

    constructor ()
      ensures gates == [] && drivens == map[]
    {
      gates, drivens := [], map[];
    }

    method GetOrCreateWire(w: Name)
      modifies `drivens
      ensures drivens == Created(old(drivens), w)
    {
      if w !in drivens {
        drivens := drivens[w := []];
      }
    }

    method WireInput(w: Name, g: nat, port: nat)
      requires g < |gates| && port < |gates[g].ins| && w in drivens
      modifies this
      ensures gates == old(gates)[g := old(gates)[g].(ins := old(gates)[g].ins[port := Some(w)])]
      ensures drivens == old(drivens)[w := old(drivens)[w] + [Tap(g, port)]]
    {
      gates := gates[g := gates[g].(ins := gates[g].ins[port := Some(w)])];
      drivens := drivens[w := drivens[w] + [Tap(g, port)]];
    }

    method WireOutput(w: Name, g: nat, port: nat)
      requires g < |gates| && port < |gates[g].outs|
      modifies `gates
      ensures gates == old(gates)[g := old(gates)[g].(outs := old(gates)[g].outs[port := Some(w)])]
    {
      gates := gates[g := gates[g].(outs := gates[g].outs[port := Some(w)])];
    }

    // One box: created with empty ports, then wired up, left, down and right.
    method AddBox(n: nat, i: nat, j: nat)
      requires j <= i < n && |gates| == Nth(i, j)
      modifies this
      ensures gates == old(gates) + [Box(n, i, j, false)]
      ensures drivens == CellWired(old(drivens), n, i, j)
    {
      var g := |gates|;
      gates := gates + [Gate([None, None], [None, None], false, false, SortBox, None)];
      AddInputs(i, j, g);
      AddOutputs(n, i, j, g);
    }

    method AddInputs(i: nat, j: nat, g: nat)
      requires j <= i && g == Nth(i, j) < |gates| && |gates[g].ins| == 2 && gates[g].ins[0] == None
      modifies this
      ensures gates == old(gates)[g := old(gates)[g].(ins := [Upper(i, j), Some(Left(i, j))])]
      ensures var d1 := if i != j then Appended(old(drivens), Upper(i, j).value, Tap(g, 0)) else old(drivens);
              drivens == Appended(d1, Left(i, j), Tap(g, 1))
    {
      if i != j {
        TriangleNthIs(i - 1, j - 1);
        AtNth(i - 1, j);
        var upper := Y(TriangleNth(i - 1, j - 1) + 1);
        GetOrCreateWire(upper);
        WireInput(upper, g, 0);
      }
      AddLeft(i, j, g);
      assert gates[g].ins == [Upper(i, j), Some(Left(i, j))];
    }

    method AddLeft(i: nat, j: nat, g: nat)
      requires j <= i && g < |gates| && |gates[g].ins| == 2
      modifies this
      ensures gates == old(gates)[g := old(gates)[g].(ins := old(gates)[g].ins[1 := Some(Left(i, j))])]
      ensures drivens == Appended(old(drivens), Left(i, j), Tap(g, 1))
    {
      var left := I(i);
      if j > 0 {
        TriangleNthIs(i - 1, j - 1);
        AtNth(i - 1, j - 1);
        left := X(TriangleNth(i - 1, j - 1));
      }
      GetOrCreateWire(left);
      WireInput(left, g, 1);
    }

    method AddOutputs(n: nat, i: nat, j: nat, g: nat)
      requires j <= i < n && g < |gates| && |gates[g].outs| == 2 && gates[g].outs[1] == None
      modifies this
      ensures gates == old(gates)[g := old(gates)[g].(outs := [Some(Down(n, i, j)), Right(i, j)])]
      ensures var d3 := Created(old(drivens), Down(n, i, j));
              drivens == if i != j then Created(d3, Right(i, j).value) else d3
    {
      var down := O(j);
      if i != n - 1 {
        TriangleNthIs(i, j);
        down := Y(TriangleNth(i, j));
      }
      GetOrCreateWire(down);
      WireOutput(down, g, 0);
      if i != j {
        TriangleNthIs(i - 1, j);
        var right := X(TriangleNth(i - 1, j));
        GetOrCreateWire(right);
        WireOutput(right, g, 1);
      }
      assert gates[g].outs == [Some(Down(n, i, j)), Right(i, j)];
    }

    method Create(n: nat)
      requires gates == [] && drivens == map[]
      modifies this
      ensures Net(gates, drivens) == Network(n, false)
    {
      DrivensAtStart(n);
      for i := 0 to n
        invariant Built(n, Tri(i))
      {
        AddRow(n, i);
      }
      DrivensAtEnd(n);
      assert gates == Boxes(n, false);
    }

    method AddRow(n: nat, i: nat)
      requires i < n && Built(n, Tri(i))
      modifies this
      ensures Built(n, Tri(i + 1))
    {
      for j := 0 to i + 1
        invariant Built(n, Nth(i, j))
      {
        AddCell(n, i, j);
      }
    }

    method AddCell(n: nat, i: nat, j: nat)
      requires j <= i < n && Built(n, Nth(i, j))
      modifies this
      ensures Built(n, Nth(i, j) + 1)
    {
      AddBox(n, i, j);
      BuiltStep(old(gates), old(drivens), gates, drivens, n, i, j);
    }

    ghost predicate Built(n: nat, k: nat)
      reads this
    {
      BuiltUpTo(gates, drivens, n, k)
    }

    method EnableAll()
      modifies `gates
      ensures |gates| == |old(gates)|
      ensures forall k :: 0 <= k < |gates| ==> gates[k] == old(gates)[k].(enabled := true)
    {
      for k := 0 to |gates|
        invariant |gates| == |old(gates)|
        invariant forall i :: 0 <= i < |gates| ==> gates[i] == if i < k then old(gates)[i].(enabled := true) else old(gates)[i]
      {
        gates := gates[k := gates[k].(enabled := true)];
      }
    }
  }

  lemma DrivensAtStart(n: nat)
    ensures DrivensUpTo(n, 0) == map[]
  {
  }

  lemma {:induction false} DrivensAtEnd(n: nat)
    ensures DrivensUpTo(n, Tri(n)) == Network(n, false).drivens
  {
    forall w ensures w in Wires(n) <==> IsWire(n, w) { InWires(n, w); }
    forall w | IsWire(n, w) && !w.O? ensures Reader(w).gate < Tri(n) { ReaderBelow(n, w); }
    forall w | IsWire(n, w) ensures Known(n, w, Tri(n)) {
      if !w.I? { DriverBelow(n, w); }
    }
  }

  method Build(n: nat) returns (net: Net<Name, int>)
    ensures net == Network(n, true)
  {
    var builder := new Builder();
    builder.Create(n);
    builder.EnableAll();
    assert builder.gates == Boxes(n, true);
    net := Net(builder.gates, builder.drivens);
  }

  method DriveInputs(board: DirectBoard.Board<Name, int>, a: seq<int>)
    requires board.Valid() && board.net == Network(|a|, true) && board.mem.slot == map[]
    modifies board, board.mem
    ensures board.Valid() && board.mem.outside == old(board.mem.outside)
    ensures DirectWires.Settled(board.net, board.Now().val) && InputsHold(board.Now().val, a, |a|)
  {
    DirectWires.EmptySettled(board.net);
    for i := 0 to |a|
      invariant board.Valid() && board.mem.outside == old(board.mem.outside)
      invariant DirectWires.Settled(board.net, board.Now().val) && InputsHold(board.Now().val, a, i)
    {
      DriveInput(board, a, i);
    }
  }

  method DriveInput(board: DirectBoard.Board<Name, int>, a: seq<int>, i: nat)
    requires board.Valid() && board.net == Network(|a|, true) && i < |a|
    requires DirectWires.Settled(board.net, board.Now().val) && InputsHold(board.Now().val, a, i)
    modifies board, board.mem
    ensures board.Valid() && board.mem.outside == old(board.mem.outside)
    ensures DirectWires.Settled(board.net, board.Now().val) && InputsHold(board.Now().val, a, i + 1)
  {
    OneDriverOneReader(|a|, true, I(i));
    board.DriveNew(I(i), a[i]);
    InputsStep(|a|, old(board.Now()).val, board.Now().val, a, i);
  }

  lemma InputsStep(n: nat, val: map<Name, int>, val': map<Name, int>, a: seq<int>, i: nat)
    requires InputsHold(val, a, i) && i < |a| == n && I(i) in val' && val'[I(i)] == a[i]
    requires forall x :: Source(Network(n, true), x) && x != I(i) ==> DirectWires.Same(val, val', x)
    ensures InputsHold(val', a, i + 1)
  {
    forall k: nat | k < i ensures I(k) in val' && val'[I(k)] == a[k] {
      OneDriverOneReader(n, true, I(k));
      assert DirectWires.Same(val, val', I(k));
    }
  }

  method ReadOutputs(board: DirectBoard.Board<Name, int>, n: nat) returns (out: seq<int>)
    requires board.Valid() && forall j :: 0 <= j < n ==> O(j) in board.Now().val
    ensures out == Outputs(n, board.Now().val)
  {
    out := [];
    for j := 0 to n
      invariant |out| == j && forall i :: 0 <= i < j ==> out[i] == board.Now().val[O(i)]
    {
      var v := board.mem.Read(O(j));
      out := out + [v];
    }
  }

  /** Builds the network for the values, drives each input with a value of its own and reads the outputs:
      they are the values in order, and the created values are held by nothing but the wires. */
  method ComputerphileSort(a: seq<int>) returns (out: seq<int>)
    ensures Sorted(out) && multiset(out) == multiset(a)
  {
    var net := Build(|a|);
    NetworkWellFormed(|a|, true);
    var board := new DirectBoard.Board(net, w => Height(|a|, w));
    DriveInputs(board, a);
    OutputsSorted(|a|, board.Now().val, a);
    out := ReadOutputs(board, |a|);
    assert board.mem.outside == multiset{};
  }
}
