/** The triangular sorting network: one box per cell (i, j) of a triangle with n rows, wires named after
    the cells, and the proof that it is a well-formed circuit for every n. */
module SortNetwork {
  import opened Circuit
  import opened Options

  datatype Name = I(k: nat) | O(k: nat) | X(k: nat) | Y(k: nat)

  // ----- numbering the cells

  function TriangleNth(i: int, j: int): int {
    i * (i + 1) / 2 + j
  }

  // Cells before row i.
  function Tri(i: nat): nat {
    if i == 0 then 0 else Tri(i - 1) + i
  }

  function Nth(i: nat, j: int): int {
    Tri(i) + j
  }

  lemma {:induction false} TriangleNthIs(i: nat, j: int)
    ensures TriangleNth(i, j) == Nth(i, j)
  {
    if i > 0 {
      TriangleNthIs(i - 1, j);
      assert i * (i + 1) == (i - 1) * i + 2 * i;
    }
  }

  lemma {:induction false} NthGrows(i: nat, r: nat)
    requires i <= r
    ensures Tri(i) <= Tri(r) && (i < r ==> Tri(i) + i < Tri(r))
    decreases r - i
  {
    if i < r { NthGrows(i, r - 1); }
  }

  /** Within the triangle, different cells have different numbers. */
  lemma NthInjective(i: nat, j: nat, r: nat, c: nat)
    requires j <= i && c <= r && Nth(i, j) == Nth(r, c)
    ensures i == r && j == c
  {
    if i < r {
      NthGrows(i, r);
    } else if r < i {
      NthGrows(r, i);
    }
  }

  // The cell with number k.
  function At(k: nat): (cell: (nat, nat))
    ensures cell.1 <= cell.0 && Nth(cell.0, cell.1) == k
  {
    if k == 0 then (0, 0)
    else
      var (i, j) := At(k - 1);
      if j < i then (i, j + 1) else (i + 1, 0)
  }

  lemma AtNth(i: nat, j: nat)
    requires j <= i
    ensures At(Nth(i, j)) == (i, j)
  {
    var (r, c) := At(Nth(i, j));
    NthInjective(i, j, r, c);
  }

  // Cells of the first n rows are those with numbers below Nth(n, 0).
  lemma RowsBelow(n: nat, i: nat, j: nat)
    requires j <= i
    ensures (Nth(i, j) < Nth(n, 0) <==> i < n)
  {
    AtNth(i, j);
    if i < n {
      NthGrows(i, n);
    } else {
      NthGrows(n, i);
    }
  }

  // ----- the boxes

  // The smaller of two values goes down, the larger right; a single value goes down.
  function SortBox(xs: seq<int>): seq<Output<int>> {
    if |xs| == 2 then (if xs[0] < xs[1] then [Pass(0), Pass(1)] else [Pass(1), Pass(0)])
    else if |xs| == 1 then [Pass(0), Nothing]
    else [Nothing, Nothing]
  }

  function Upper(i: nat, j: nat): Option<Name>
    requires j <= i
  {
    if i != j then AtNth(i - 1, j); assert Nth(i - 1, j - 1) + 1 == Nth(i - 1, j); Some(Y(Nth(i - 1, j - 1) + 1)) else None
  }

  function Left(i: nat, j: nat): Name
    requires j <= i
  {
    if j == 0 then I(i) else AtNth(i - 1, j - 1); X(Nth(i - 1, j - 1))
  }

  function Down(n: nat, i: nat, j: nat): Name
    requires j <= i
  {
    if i == n - 1 then O(j) else AtNth(i, j); Y(Nth(i, j))
  }

  function Right(i: nat, j: nat): Option<Name>
    requires j <= i
  {
    if i != j then AtNth(i - 1, j); Some(X(Nth(i - 1, j))) else None
  }

  function Box(n: nat, i: nat, j: nat, enabled: bool): Gate<Name, int>
    requires j <= i
  {
    Gate([Upper(i, j), Some(Left(i, j))], [Some(Down(n, i, j)), Right(i, j)], enabled, false, SortBox, None)
  }

  // ----- where each wire starts and ends

  // The wire belongs to the network with n rows.
  predicate IsWire(n: nat, w: Name) {
    match w
    case I(i) => i < n
    case O(j) => j < n
    case X(k) => At(k).0 + 1 < n
    case Y(k) => At(k).0 + 1 < n
  }

  // The cell of the one box that reads w, and its port; output wires are read by none.
  function ReaderCell(w: Name): (cell: (nat, nat, nat))
    requires !w.O?
    ensures cell.1 <= cell.0
  {
    match w
    case I(i) => (i, 0, 1)
    case X(k) => (At(k).0 + 1, At(k).1 + 1, 1)
    case Y(k) => (At(k).0 + 1, At(k).1, 0)
  }

  function Reader(w: Name): Tap
    requires !w.O?
  {
    var (i, j, p) := ReaderCell(w);
    Tap(Nth(i, j), p)
  }

  // The cell of the one box that drives w, and its port; input wires are driven by none.
  function DriverCell(n: nat, w: Name): (cell: (nat, nat, nat))
    requires !w.I? && IsWire(n, w)
    ensures cell.1 <= cell.0
  {
    match w
    case O(j) => (n - 1, j, 0)
    case X(k) => (At(k).0 + 1, At(k).1, 1)
    case Y(k) => (At(k).0, At(k).1, 0)
  }

  function Driver(n: nat, w: Name): Tap
    requires !w.I? && IsWire(n, w)
  {
    var (i, j, p) := DriverCell(n, w);
    Tap(Nth(i, j), p)
  }

  /** A box reads w at port p exactly when that port is w's one reader. */
  lemma ReadsIffReader(n: nat, w: Name, i: nat, j: nat, p: nat)
    requires j <= i < n && p < 2
    ensures [Upper(i, j), Some(Left(i, j))][p] == Some(w) <==> IsWire(n, w) && !w.O? && Reader(w) == Tap(Nth(i, j), p)
  {
    ReadsIffCell(n, w, i, j, p);
    if !w.O? && Reader(w) == Tap(Nth(i, j), p) {
      NthInjective(ReaderCell(w).0, ReaderCell(w).1, i, j);
    }
  }

  lemma ReadsIffCell(n: nat, w: Name, i: nat, j: nat, p: nat)
    requires j <= i < n && p < 2
    ensures [Upper(i, j), Some(Left(i, j))][p] == Some(w) <==> IsWire(n, w) && !w.O? && ReaderCell(w) == (i, j, p)
  {
    if p == 0 { UpperIff(n, w, i, j); } else { LeftIff(n, w, i, j); }
  }

  lemma UpperIff(n: nat, w: Name, i: nat, j: nat)
    requires j <= i < n
    ensures Upper(i, j) == Some(w) <==> IsWire(n, w) && !w.O? && ReaderCell(w) == (i, j, 0)
  {
    if i != j {
      AtNth(i - 1, j);
      assert Upper(i, j) == Some(Y(Nth(i - 1, j)));
    }
    if w.Y? {
      var cell := At(w.k);
      assert w.k == Nth(cell.0, cell.1);
    }
  }

  lemma LeftIff(n: nat, w: Name, i: nat, j: nat)
    requires j <= i < n
    ensures Left(i, j) == w <==> IsWire(n, w) && !w.O? && ReaderCell(w) == (i, j, 1)
  {
    if j > 0 { AtNth(i - 1, j - 1); }
  }

  lemma DrivesIffDriver(n: nat, w: Name, i: nat, j: nat, p: nat)
    requires j <= i < n && p < 2
    ensures [Some(Down(n, i, j)), Right(i, j)][p] == Some(w) <==> IsWire(n, w) && !w.I? && Driver(n, w) == Tap(Nth(i, j), p)
  {
    DrivesIffCell(n, w, i, j, p);
    if IsWire(n, w) && !w.I? && Driver(n, w) == Tap(Nth(i, j), p) {
      NthInjective(DriverCell(n, w).0, DriverCell(n, w).1, i, j);
    }
  }

  lemma DrivesIffCell(n: nat, w: Name, i: nat, j: nat, p: nat)
    requires j <= i < n && p < 2
    ensures [Some(Down(n, i, j)), Right(i, j)][p] == Some(w) <==> IsWire(n, w) && !w.I? && DriverCell(n, w) == (i, j, p)
  {
    AtNth(i, j);
    if i != j { AtNth(i - 1, j); }
  }

  // ----- the network

  ghost function IWires(m: nat): set<Name> { set k: nat | k < m :: I(k) }
  ghost function OWires(m: nat): set<Name> { set k: nat | k < m :: O(k) }
  ghost function XWires(m: nat): set<Name> { set k: nat | k < m :: X(k) }
  ghost function YWires(m: nat): set<Name> { set k: nat | k < m :: Y(k) }

  // The cells of all rows but the last.
  function Inner(n: nat): nat {
    if n == 0 then 0 else Tri(n - 1)
  }

  ghost function Wires(n: nat): set<Name> {
    IWires(n) + OWires(n) + XWires(Inner(n)) + YWires(Inner(n))
  }

  lemma InWires(n: nat, w: Name)
    ensures w in Wires(n) <==> IsWire(n, w)
  {
    if (w.X? || w.Y?) && n > 0 {
      RowsBelow(n - 1, At(w.k).0, At(w.k).1);
    }
    assert w in IWires(n) <==> w.I? && w.k < n;
    assert w in OWires(n) <==> w.O? && w.k < n;
    assert w in XWires(Inner(n)) <==> w.X? && w.k < Inner(n);
    assert w in YWires(Inner(n)) <==> w.Y? && w.k < Inner(n);
  }

  ghost function Boxes(n: nat, enabled: bool): seq<Gate<Name, int>> {
    seq(Tri(n), k requires 0 <= k => Box(n, At(k).0, At(k).1, enabled))
  }

  // Row by row, each box wired to its four neighbours.
  ghost function Network(n: nat, enabled: bool): Net<Name, int> {
    Net(Boxes(n, enabled), map w | w in Wires(n) :: if w.O? then [] else [Reader(w)])
  }

  // How many boxes may still follow.
  function Height(n: nat, w: Name): nat {
    var h := match w
      case I(i) => 2 * n - i + 1
      case O(j) => 0
      case X(k) => 2 * n - At(k).0 - 1 - At(k).1
      case Y(k) => 2 * n - At(k).0 - At(k).1;
    if h < 0 then 0 else h
  }

  lemma {:induction false} CellOf(n: nat, k: nat)
    requires k < Tri(n)
    ensures At(k).1 <= At(k).0 < n && Nth(At(k).0, At(k).1) == k
  {
    RowsBelow(n, At(k).0, At(k).1);
  }

  lemma TapIff(n: nat, enabled: bool, w: Name, t: Tap)
    ensures IsTap(Network(n, enabled), w, t) <==> IsWire(n, w) && !w.O? && Reader(w) == t
  {
    if t.gate < Tri(n) && t.port < 2 {
      CellOf(n, t.gate);
      ReadsIffReader(n, w, At(t.gate).0, At(t.gate).1, t.port);
    } else if IsWire(n, w) && !w.O? {
      ReaderBelow(n, w);
    }
  }

  lemma {:induction false} ReaderBelow(n: nat, w: Name)
    requires IsWire(n, w) && !w.O?
    ensures Reader(w).gate < Tri(n) && Reader(w).port < 2
  {
    RowsBelow(n, ReaderCell(w).0, ReaderCell(w).1);
  }

  lemma DriverIff(n: nat, enabled: bool, w: Name, g: nat, j: nat)
    ensures Drives(Network(n, enabled), g, j, w) <==> IsWire(n, w) && !w.I? && Driver(n, w) == Tap(g, j)
  {
    if g < Tri(n) && j < 2 {
      CellOf(n, g);
      DrivesIffDriver(n, w, At(g).0, At(g).1, j);
    } else if IsWire(n, w) && !w.I? {
      DriverBelow(n, w);
    }
  }

  lemma {:induction false} DriverBelow(n: nat, w: Name)
    requires IsWire(n, w) && !w.I?
    ensures Driver(n, w).gate < Tri(n) && Driver(n, w).port < 2
  {
    RowsBelow(n, DriverCell(n, w).0, DriverCell(n, w).1);
  }

  /** For every n: both sides of every connection agree, every wire has at most one driver, and the
      height falls along every box. */
  lemma NetworkWellFormed(n: nat, enabled: bool)
    ensures WellFormed(Network(n, enabled), w => Height(n, w))
  {
    var c := Network(n, enabled);
    forall w, i | w in c.drivens && 0 <= i < |c.drivens[w]| ensures IsTap(c, w, c.drivens[w][i]) {
      InWires(n, w);
      TapIff(n, enabled, w, c.drivens[w][i]);
    }
    forall w, t | IsTap(c, w, t) ensures t in Taps(c, w) {
      InWires(n, w);
      TapIff(n, enabled, w, t);
    }
    forall w, g: nat, j: nat, g': nat, j': nat | Drives(c, g, j, w) && Drives(c, g', j', w) ensures g == g' && j == j' {
      DriverIff(n, enabled, w, g, j);
      DriverIff(n, enabled, w, g', j');
    }
    forall g: nat, j: nat, w, o | Reads(c, g, w) && Drives(c, g, j, o) ensures Height(n, o) < Height(n, w) {
      CellOf(n, g);
      BoxFalls(n, At(g).0, At(g).1, w, o);
    }
  }

  lemma BoxFalls(n: nat, i: nat, j: nat, w: Name, o: Name)
    requires j <= i < n
    requires Some(w) in [Upper(i, j), Some(Left(i, j))] && Some(o) in [Some(Down(n, i, j)), Right(i, j)]
    ensures Height(n, o) < Height(n, w)
  {
    HeightIn(n, i, j, w);
    HeightOut(n, i, j, o);
  }

  lemma HeightIn(n: nat, i: nat, j: nat, w: Name)
    requires j <= i < n && Some(w) in [Upper(i, j), Some(Left(i, j))]
    ensures Height(n, w) == 2 * n - i - j + 1
  {
    if i != j { AtNth(i - 1, j); }
    if j > 0 { AtNth(i - 1, j - 1); }
  }

  lemma HeightOut(n: nat, i: nat, j: nat, o: Name)
    requires j <= i < n && Some(o) in [Some(Down(n, i, j)), Right(i, j)]
    ensures Height(n, o) <= 2 * n - i - j
  {
    AtNth(i, j);
    if i != j { AtNth(i - 1, j); }
  }

  /** Every wire but the inputs has exactly one driver, every wire but the outputs exactly one reader. */
  lemma OneDriverOneReader(n: nat, enabled: bool, w: Name)
    requires IsWire(n, w)
    ensures w.I? <==> Source(Network(n, enabled), w)
    ensures !w.I? ==> Drives(Network(n, enabled), Driver(n, w).gate, Driver(n, w).port, w)
    ensures w.O? ==> forall t :: !IsTap(Network(n, enabled), w, t)
    ensures !w.O? ==> forall t :: IsTap(Network(n, enabled), w, t) <==> t == Reader(w)
  {
    forall g: nat, j: nat ensures w.I? ==> !Drives(Network(n, enabled), g, j, w) {
      DriverIff(n, enabled, w, g, j);
    }
    if !w.I? { DriverIff(n, enabled, w, Driver(n, w).gate, Driver(n, w).port); }
    forall t ensures IsTap(Network(n, enabled), w, t) <==> !w.O? && Reader(w) == t {
      TapIff(n, enabled, w, t);
    }
  }

  lemma {:induction false} ICount(m: nat)
    ensures |IWires(m)| == m
  {
    if m == 0 {
      assert IWires(0) == {};
    } else {
      ICount(m - 1);
      assert IWires(m) == IWires(m - 1) + {I(m - 1)};
    }
  }

  lemma {:induction false} OCount(m: nat)
    ensures |OWires(m)| == m
  {
    if m == 0 {
      assert OWires(0) == {};
    } else {
      OCount(m - 1);
      assert OWires(m) == OWires(m - 1) + {O(m - 1)};
    }
  }

  lemma {:induction false} XCount(m: nat)
    ensures |XWires(m)| == m
  {
    if m == 0 {
      assert XWires(0) == {};
    } else {
      XCount(m - 1);
      assert XWires(m) == XWires(m - 1) + {X(m - 1)};
    }
  }

  lemma {:induction false} YCount(m: nat)
    ensures |YWires(m)| == m
  {
    if m == 0 {
      assert YWires(0) == {};
    } else {
      YCount(m - 1);
      assert YWires(m) == YWires(m - 1) + {Y(m - 1)};
    }
  }

  /** n rows take n(n+1)/2 boxes and n(n+1) wires. */
  lemma Size(n: nat, enabled: bool)
    ensures |Network(n, enabled).gates| == n * (n + 1) / 2 && |Network(n, enabled).drivens| == n * (n + 1)
  {
    TriangleNthIs(n, 0);
    ICount(n);
    OCount(n);
    XCount(Inner(n));
    YCount(Inner(n));
    assert IWires(n) !! OWires(n) && IWires(n) + OWires(n) !! XWires(Inner(n));
    assert IWires(n) + OWires(n) + XWires(Inner(n)) !! YWires(Inner(n));
    assert Network(n, enabled).drivens.Keys == Wires(n);
    assert 2 * Tri(n) == 2 * n + 2 * Inner(n);
    EvenProduct(n);
  }

  lemma {:induction false} EvenProduct(n: nat)
    ensures 2 * Tri(n) == n * (n + 1)
  {
    if n > 0 { EvenProduct(n - 1); }
  }

  // ----- what the rows compute

  predicate Sorted(s: seq<int>) {
    forall i, j :: 0 <= i < j < |s| ==> s[i] <= s[j]
  }

  function Min(a: int, b: int): int { if a < b then a else b }
  function Max(a: int, b: int): int { if a < b then b else a }

  // One row: a value moves right along the boxes, each keeping the smaller of it and the value above.
  function Insert(above: seq<int>, carry: int): seq<int> {
    if above == [] then [carry] else [Min(above[0], carry)] + Insert(above[1..], Max(above[0], carry))
  }

  // What moves right after j boxes of a row.
  function Carry(above: seq<int>, carry: int, j: nat): int
    requires j <= |above|
  {
    if j == 0 then carry else Max(above[j - 1], Carry(above, carry, j - 1))
  }

  // What leaves row i downwards when the inputs are a.
  function Rows(a: seq<int>, i: nat): seq<int>
    requires i < |a|
  {
    Insert(if i == 0 then [] else Rows(a, i - 1), a[i])
  }

  lemma {:induction false} InsertPermutes(above: seq<int>, carry: int)
    ensures |Insert(above, carry)| == |above| + 1
    ensures multiset(Insert(above, carry)) == multiset(above) + multiset{carry}
    decreases |above|
  {
    if above != [] {
      InsertPermutes(above[1..], Max(above[0], carry));
      assert above == [above[0]] + above[1..];
    }
  }

  lemma {:induction false} InsertBounded(above: seq<int>, carry: int, m: int)
    requires m <= carry && forall i :: 0 <= i < |above| ==> m <= above[i]
    ensures forall i :: 0 <= i < |Insert(above, carry)| ==> m <= Insert(above, carry)[i]
    decreases |above|
  {
    if above != [] { InsertBounded(above[1..], Max(above[0], carry), m); }
  }

  lemma {:induction false} InsertSorts(above: seq<int>, carry: int)
    requires Sorted(above)
    ensures Sorted(Insert(above, carry))
    decreases |above|
  {
    if above != [] {
      InsertSorts(above[1..], Max(above[0], carry));
      InsertBounded(above[1..], Max(above[0], carry), Min(above[0], carry));
    }
  }

  /** After row i the values going down are the sorted permutation of inputs 0..i. */
  lemma {:induction false} RowsSort(a: seq<int>, i: nat)
    requires i < |a|
    ensures |Rows(a, i)| == i + 1 && Sorted(Rows(a, i)) && multiset(Rows(a, i)) == multiset(a[..i + 1])
  {
    assert a[..i + 1] == a[..i] + [a[i]];
    if i > 0 { RowsSort(a, i - 1); }
    var above := if i == 0 then [] else Rows(a, i - 1);
    InsertSorts(above, a[i]);
    InsertPermutes(above, a[i]);
  }

  lemma {:induction false} InsertAt(above: seq<int>, carry: int, j: nat)
    requires j <= |above|
    ensures |Insert(above, carry)| == |above| + 1
    ensures Insert(above, carry)[j] ==
            if j < |above| then Min(above[j], Carry(above, carry, j)) else Carry(above, carry, j)
    decreases |above|
  {
    if above != [] {
      var next := Max(above[0], carry);
      InsertAt(above[1..], next, if j == 0 then 0 else j - 1);
      if j > 0 { CarryTail(above, carry, j); }
    }
  }

  lemma {:induction false} CarryTail(above: seq<int>, carry: int, j: nat)
    requires 0 < j <= |above|
    ensures Carry(above, carry, j) == Carry(above[1..], Max(above[0], carry), j - 1)
  {
    if j > 1 { CarryTail(above, carry, j - 1); }
  }
}
