/** The multistage network: input through two inverters to one side of an exclusive or, and through one
    inverter to the other side.  Direct wires make its output waggle, token wires do not.  The sniffer at
    the output only records the values it is notified of; it never absorbs a token. */
module Multistage {
  import opened Circuit
  import opened Options
  import opened BoolGates
  import D = DirectWires
  import T = TokenWires

  datatype Name = Input | AC | CD | BD | Output

  // Gates 0 to 3 are A, B, C and D; gate 4 is the sniffer, whose handler neither reads tokens nor drives.
  function Inverter(i: Name, o: Name): Gate<Name, bool> {
    Gate([Some(i)], [Some(o)], true, false, xs => Outs(Not(xs)), None)
  }

  function Network(): Net<Name, bool> {
    Net([Inverter(Input, AC), Inverter(Input, BD), Inverter(AC, CD),
         Gate([Some(CD), Some(BD)], [Some(Output)], true, false, xs => Outs(Xor(xs)), None),
         Gate([Some(Output)], [], false, false, xs => [], None)],
        map[Input := [Tap(0, 0), Tap(1, 0)], AC := [Tap(2, 0)], CD := [Tap(3, 0)], BD := [Tap(3, 1)], Output := [Tap(4, 0)]])
  }

  function Height(w: Name): nat {
    match w
    case Input => 3
    case AC => 2
    case CD => 1
    case BD => 1
    case Output => 0
  }

  lemma Taps4(w: Name, t: Tap)
    ensures IsTap(Network(), w, t) <==>
      (w, t) in {(Input, Tap(0, 0)), (Input, Tap(1, 0)), (AC, Tap(2, 0)), (CD, Tap(3, 0)), (BD, Tap(3, 1)), (Output, Tap(4, 0))}
  {
    if t.gate < 5 {
      assert Network().gates[t.gate].ins ==
        if t.gate < 2 then [Some(Input)] else if t.gate == 2 then [Some(AC)]
        else if t.gate == 3 then [Some(CD), Some(BD)] else [Some(Output)];
    }
  }

  lemma Drives4(g: nat, j: nat, w: Name)
    ensures Drives(Network(), g, j, w) <==>
      (g, j, w) in {(0, 0, AC), (1, 0, BD), (2, 0, CD), (3, 0, Output)}
  {
  }

  lemma NetworkAgrees()
    ensures Agrees(Network())
  {
    var c := Network();
    forall w, i | w in c.drivens && 0 <= i < |c.drivens[w]| ensures IsTap(c, w, c.drivens[w][i]) {
      Taps4(w, c.drivens[w][i]);
    }
    forall w, t | IsTap(c, w, t) ensures t in Taps(c, w) {
      Taps4(w, t);
      assert t in if w == Input then [Tap(0, 0), Tap(1, 0)] else [t];
    }
  }

  lemma NetworkOneDriver()
    ensures OneDriver(Network())
    ensures forall w :: Source(Network(), w) <==> w == Input
  {
    var c := Network();
    forall w, g: nat, j: nat, g': nat, j': nat | Drives(c, g, j, w) && Drives(c, g', j', w) ensures g == g' && j == j' {
      Drives4(g, j, w);
      Drives4(g', j', w);
    }
    forall g: nat, j: nat ensures !Drives(c, g, j, Input) { Drives4(g, j, Input); }
    assert Drives(c, 0, 0, AC) && Drives(c, 1, 0, BD) && Drives(c, 2, 0, CD) && Drives(c, 3, 0, Output);
  }

  lemma NetworkAcyclic()
    ensures Acyclic(Network(), Height)
  {
    var c := Network();
    forall g: nat, j: nat, w, o | Reads(c, g, w) && Drives(c, g, j, o) ensures Height(o) < Height(w) {
      var p: nat :| p < |c.gates[g].ins| && c.gates[g].ins[p] == Some(w);
      Taps4(w, Tap(g, p));
      Drives4(g, j, o);
    }
  }

  lemma NetworkWellFormed()
    ensures WellFormed(Network(), Height)
    ensures forall w :: Source(Network(), w) <==> w == Input
  {
    NetworkAgrees();
    NetworkOneDriver();
    NetworkAcyclic();
  }

  lemma WiredOne(c: Net<Name, bool>, g: nat)
    requires c == Network() && g < 4
    ensures g == 0 || g == 1 ==> Wired(c.gates[g].ins) == [Input]
    ensures g == 2 ==> Wired(c.gates[g].ins) == [AC]
    ensures g == 3 ==> Wired(c.gates[g].ins) == [CD, BD]
  {
    var ins := c.gates[g].ins;
    if g == 3 {
      assert ins[1..] == [Some(BD)] && ins[1..][1..] == [];
    } else {
      assert ins[1..] == [];
    }
  }

  // ----- direct wires

  // Gate g with one output drives it with what it makes of its inputs.
  lemma {:induction false} Fires(st: D.Signals<Name, bool>, g: nat, bound: nat, o: Name, v: bool)
    requires WellFormed(Network(), Height) && g < 4 && (forall j, x :: Drives(Network(), g, j, x) ==> Height(x) < bound)
    requires Network().gates[g].outs == [Some(o)] && Ready(Network().gates[g], st.val)
    requires Out(Network().gates[g], Inputs(Network().gates[g], st.val), 0) == Some(v)
    ensures D.Execute(Network(), Height, st, g, bound) == D.Drive(Network(), Height, st, o, v)
  {
    var c, xs := Network(), Inputs(Network().gates[g], st.val);
    var st1 := D.Put(c, Height, st, g, bound, xs, 0);
    assert D.Emit(c, Height, st, g, bound, xs, 0) == D.Emit(c, Height, st1, g, bound, xs, 1) == st1;
  }

  function Pushed(st: D.Signals<Name, bool>, w: Name, v: bool): D.Signals<Name, bool> {
    D.Signals(st.val[w := v], st.log + [(w, v)])
  }

  lemma {:induction false} OneTap(st: D.Signals<Name, bool>, w: Name, v: bool, t: Tap)
    requires WellFormed(Network(), Height) && Taps(Network(), w) == [t] && IsTap(Network(), w, t)
    ensures forall j, x :: Drives(Network(), t.gate, j, x) ==> Height(x) < Height(w)
    ensures D.Drive(Network(), Height, st, w, v) == D.Execute(Network(), Height, Pushed(st, w, v), t.gate, Height(w))
  {
    var c, st1 := Network(), Pushed(st, w, v);
    assert Reads(c, t.gate, w);
    var st2 := D.Execute(c, Height, st1, t.gate, Height(w));
    assert D.Notify(c, Height, st1, w, [t]) == D.Notify(c, Height, st2, w, [t][1..]) == st2;
  }

  // What driving one side of the exclusive or does.
  function AtD(st: D.Signals<Name, bool>): D.Signals<Name, bool> {
    if CD in st.val && BD in st.val then Pushed(st, Output, st.val[CD] != st.val[BD]) else st
  }

  // The sniffer is notified, and drives nothing.
  lemma {:induction false} DriveOutput(st: D.Signals<Name, bool>, v: bool)
    requires WellFormed(Network(), Height)
    ensures D.Drive(Network(), Height, st, Output, v) == Pushed(st, Output, v)
  {
    Taps4(Output, Tap(4, 0));
    OneTap(st, Output, v, Tap(4, 0));
  }

  lemma {:induction false} DriveSide(st: D.Signals<Name, bool>, w: Name, v: bool)
    requires WellFormed(Network(), Height) && (w == CD || w == BD)
    ensures D.Drive(Network(), Height, st, w, v) == AtD(Pushed(st, w, v))
  {
    var c, st1 := Network(), Pushed(st, w, v);
    var t := if w == CD then Tap(3, 0) else Tap(3, 1);
    Taps4(w, t);
    OneTap(st, w, v, t);
    WiredOne(c, 3);
    if CD in st1.val && BD in st1.val {
      var x, y := st1.val[CD], st1.val[BD];
      assert Inputs(c.gates[3], st1.val) == [x, y];
      assert Xor([x, y]) == Some(x != y) by { assert [x, y][1] != [x, y][0] <==> x != y; }
      Fires(st1, 3, Height(w), Output, x != y);
      DriveOutput(st1, x != y);
    } else {
      assert CD in [CD, BD] && BD in [CD, BD];
    }
  }

  lemma {:induction false} DriveAC(st: D.Signals<Name, bool>, v: bool)
    requires WellFormed(Network(), Height)
    ensures D.Drive(Network(), Height, st, AC, v) == AtD(Pushed(Pushed(st, AC, v), CD, !v))
  {
    var c, st1 := Network(), Pushed(st, AC, v);
    Taps4(AC, Tap(2, 0));
    OneTap(st, AC, v, Tap(2, 0));
    WiredOne(c, 2);
    assert Inputs(c.gates[2], st1.val) == [v];
    Fires(st1, 2, Height(AC), CD, !v);
    DriveSide(st1, CD, !v);
  }

  // Through the two inverters.
  function Upper(st: D.Signals<Name, bool>, v: bool): D.Signals<Name, bool> {
    Pushed(Pushed(Pushed(st, Input, v), AC, !v), CD, v)
  }

  function AfterInput(st: D.Signals<Name, bool>, v: bool): D.Signals<Name, bool> {
    AtD(Pushed(AtD(Upper(st, v)), BD, !v))
  }

  lemma {:induction false} NotifyA(st: D.Signals<Name, bool>, v: bool)
    requires WellFormed(Network(), Height) && Input in st.val && st.val[Input] == v
    ensures forall j, x :: Drives(Network(), 0, j, x) ==> Height(x) < 3
    ensures D.Execute(Network(), Height, st, 0, 3) == AtD(Pushed(Pushed(st, AC, !v), CD, v))
  {
    WiredOne(Network(), 0);
    assert Inputs(Network().gates[0], st.val) == [v];
    Fires(st, 0, 3, AC, !v);
    DriveAC(st, !v);
  }

  lemma {:induction false} NotifyB(st: D.Signals<Name, bool>, v: bool)
    requires WellFormed(Network(), Height) && Input in st.val && st.val[Input] == v
    ensures forall j, x :: Drives(Network(), 1, j, x) ==> Height(x) < 3
    ensures D.Execute(Network(), Height, st, 1, 3) == AtD(Pushed(st, BD, !v))
  {
    WiredOne(Network(), 1);
    assert Inputs(Network().gates[1], st.val) == [v];
    Fires(st, 1, 3, BD, !v);
    DriveSide(st, BD, !v);
  }

  // A drive of the input, one inverter after the other.
  lemma {:induction false} DriveInput(st: D.Signals<Name, bool>, v: bool)
    requires WellFormed(Network(), Height)
    ensures D.Drive(Network(), Height, st, Input, v) == AfterInput(st, v)
  {
    var c, taps := Network(), [Tap(0, 0), Tap(1, 0)];
    var st1, st2 := Pushed(st, Input, v), AtD(Upper(st, v));
    Taps4(Input, taps[0]);
    Taps4(Input, taps[1]);
    NotifyA(st1, v);
    NotifyB(st2, v);
    assert taps[1..] == [Tap(1, 0)] && taps[1..][1..] == [];
    assert D.Notify(c, Height, st1, Input, taps) == D.Notify(c, Height, st2, Input, taps[1..]);
    assert D.Notify(c, Height, st2, Input, taps[1..]) == D.Notify(c, Height, AfterInput(st, v), Input, []);
  }

  // What w was driven with, in order.
  function On(log: seq<(Name, bool)>, w: Name): seq<bool>
    decreases |log|
  {
    if log == [] then []
    else
      var last := |log| - 1;
      On(log[..last], w) + (if log[last].0 == w then [log[last].1] else [])
  }

  lemma {:induction false} OnPushed(st: D.Signals<Name, bool>, w: Name, v: bool, x: Name)
    ensures On(Pushed(st, w, v).log, x) == On(st.log, x) + (if w == x then [v] else [])
  {
    assert Pushed(st, w, v).log[..|st.log|] == st.log;
  }

  // The sides of the exclusive or, when the input was last v.
  predicate SidesShow(val: map<Name, bool>, v: bool) {
    CD in val && BD in val && val[CD] == v && val[BD] == !v
  }

  lemma InputWaggles(st: D.Signals<Name, bool>, v: bool)
    ensures var st' := AfterInput(st, v);
      && SidesShow(st'.val, v)
      && (CD !in st.val && BD !in st.val ==> On(st'.log, Output) == On(st.log, Output) + [true])
      && (forall u :: SidesShow(st.val, u) ==> On(st'.log, Output) == On(st.log, Output) + [v == u, true])
  {
    UpperShows(st, v);
    OnAtD(Upper(st, v));
    LowerShows(AtD(Upper(st, v)), v);
  }

  lemma UpperShows(st: D.Signals<Name, bool>, v: bool)
    ensures var st1 := Upper(st, v);
      On(st1.log, Output) == On(st.log, Output) && CD in st1.val && st1.val[CD] == v && D.Same(st.val, st1.val, BD)
  {
    OnPushed(st, Input, v, Output);
    OnPushed(Pushed(st, Input, v), AC, !v, Output);
    OnPushed(Pushed(Pushed(st, Input, v), AC, !v), CD, v, Output);
  }

  lemma LowerShows(st: D.Signals<Name, bool>, v: bool)
    requires CD in st.val && st.val[CD] == v
    ensures var st' := AtD(Pushed(st, BD, !v));
      SidesShow(st'.val, v) && On(st'.log, Output) == On(st.log, Output) + [true]
  {
    OnPushed(st, BD, !v, Output);
    OnAtD(Pushed(st, BD, !v));
  }

  lemma OnAtD(st: D.Signals<Name, bool>)
    ensures On(AtD(st).log, Output) == On(st.log, Output) +
            (if CD in st.val && BD in st.val then [st.val[CD] != st.val[BD]] else [])
    ensures forall w :: w != Output ==> D.Same(st.val, AtD(st).val, w)
  {
    if CD in st.val && BD in st.val { OnPushed(st, Output, st.val[CD] != st.val[BD], Output); }
  }

  function OfInput(vs: seq<bool>): seq<(Name, bool)> {
    seq(|vs|, i requires 0 <= i < |vs| => (Input, vs[i]))
  }

  // The output of the first drive, and of each later one.
  function Waggle(vs: seq<bool>): seq<bool>
    decreases |vs|
  {
    if vs == [] then []
    else
      var last := |vs| - 1;
      Waggle(vs[..last]) + (if last == 0 then [true] else [vs[last] == vs[last - 1], true])
  }

  // The state after the input was driven with vs.
  predicate Shows(st: D.Signals<Name, bool>, vs: seq<bool>) {
    && On(st.log, Output) == Waggle(vs)
    && (if vs == [] then st.val == map[] else SidesShow(st.val, vs[|vs| - 1]))
  }

  lemma ShowsStep(st: D.Signals<Name, bool>, vs: seq<bool>, v: bool)
    requires Shows(st, vs)
    ensures Shows(AfterInput(st, v), vs + [v])
  {
    InputWaggles(st, v);
    assert (vs + [v])[..|vs|] == vs;
  }

  ghost function Steps(vs: seq<bool>): D.Signals<Name, bool>
    decreases |vs|
  {
    if vs == [] then D.Signals(map[], []) else AfterInput(Steps(vs[..|vs| - 1]), vs[|vs| - 1])
  }

  lemma {:induction false} StepsShow(vs: seq<bool>)
    ensures Shows(Steps(vs), vs)
    decreases |vs|
  {
    if vs != [] {
      var last := |vs| - 1;
      StepsShow(vs[..last]);
      ShowsStep(Steps(vs[..last]), vs[..last], vs[last]);
      assert vs == vs[..last] + [vs[last]];
    }
  }

  lemma {:induction false} DirectSteps(vs: seq<bool>)
    requires WellFormed(Network(), Height)
    ensures D.DriveAll(Network(), Height, D.Signals(map[], []), OfInput(vs)) == Steps(vs)
    decreases |vs|
  {
    if vs != [] {
      var last := |vs| - 1;
      DirectSteps(vs[..last]);
      assert OfInput(vs)[..last] == OfInput(vs[..last]);
      DriveInput(Steps(vs[..last]), vs[last]);
    }
  }

  /** Direct wires: for every sequence of drives the output is [true] for the first and then, for each
      later drive, whether the input stayed the same, followed by true. */
  lemma {:induction false} DirectWaggles(vs: seq<bool>)
    ensures WellFormed(Network(), Height)
    ensures On(D.DriveAll(Network(), Height, D.Signals(map[], []), OfInput(vs)).log, Output) == Waggle(vs)
  {
    NetworkWellFormed();
    DirectSteps(vs);
    StepsShow(vs);
  }

  // ----- token wires

  // Gate g with one output absorbs its tokens and drives the output with what it makes of them.
  lemma {:induction false} FiresOnce(s: T.Tokens<Name, bool>, g: nat, bound: nat, o: Name, v: bool)
    requires WellFormed(Network(), Height) && g < 4 && (forall j, x :: Drives(Network(), g, j, x) ==> Height(x) < bound)
    requires Network().gates[g].outs == [Some(o)] && T.Full(Network(), g, s.tok)
    requires Out(Network().gates[g], T.Held(Network().gates[g].ins, g, 0, s.tok), 0) == Some(v)
    ensures T.Execute(Network(), Height, s, g, bound) == T.Drive(Network(), Height, T.Fire(s, g), o, v)
  {
    var c, xs := Network(), T.Held(Network().gates[g].ins, g, 0, s.tok);
    var s1 := T.Put(c, Height, T.Fire(s, g), g, bound, xs, 0);
    assert T.Emit(c, Height, T.Fire(s, g), g, bound, xs, 0) == T.Emit(c, Height, s1, g, bound, xs, 1) == s1;
  }

  lemma {:induction false} OnePort(s: T.Tokens<Name, bool>, w: Name, v: bool, t: Tap)
    requires WellFormed(Network(), Height) && Taps(Network(), w) == [t] && IsTap(Network(), w, t)
    ensures forall j, x :: Drives(Network(), t.gate, j, x) ==> Height(x) < Height(w)
    ensures T.Drive(Network(), Height, s, w, v) ==
            T.Execute(Network(), Height, T.Deliver(T.Push(s, w, v), t, v), t.gate, Height(w))
  {
    var c, s1 := Network(), T.Deliver(T.Push(s, w, v), t, v);
    assert Reads(c, t.gate, w);
    var s2 := T.Execute(c, Height, s1, t.gate, Height(w));
    assert T.Notify(c, Height, T.Push(s, w, v), w, v, [t]) == T.Notify(c, Height, s2, w, v, [t][1..]) == s2;
  }

  // The tokens between two drives: at most the one at the sniffer's port, which nothing absorbs.
  predicate Resting(tok: map<Tap, bool>) {
    forall t :: t in tok ==> t == Tap(4, 0)
  }

  // The token waits at the sniffer's port.
  lemma {:induction false} TokenOutput(s: T.Tokens<Name, bool>, v: bool)
    requires WellFormed(Network(), Height)
    ensures T.Drive(Network(), Height, s, Output, v) == T.Deliver(T.Push(s, Output, v), Tap(4, 0), v)
  {
    Taps4(Output, Tap(4, 0));
    OnePort(s, Output, v, Tap(4, 0));
  }

  // A gate with one input fires at once.
  lemma {:induction false} TokenInverter(s: T.Tokens<Name, bool>, g: nat, bound: nat, o: Name, v: bool)
    requires WellFormed(Network(), Height) && g < 3 && (forall j, x :: Drives(Network(), g, j, x) ==> Height(x) < bound)
    requires Network().gates[g].outs == [Some(o)] && Tap(g, 0) in s.tok && s.tok[Tap(g, 0)] == v
    ensures T.Execute(Network(), Height, s, g, bound) == T.Drive(Network(), Height, T.Fire(s, g), o, !v)
  {
    WiredOne(Network(), g);
    var ins := Network().gates[g].ins;
    assert ins[1..] == [] && T.Held(ins, g, 0, s.tok) == [v];
    FiresOnce(s, g, bound, o, !v);
  }

  // An inverter's token comes and goes.
  lemma InverterToken(s: T.Tokens<Name, bool>, g: nat, v: bool)
    requires g < 3 && forall t :: t in s.tok ==> t.gate >= 3
    ensures T.Fire(T.Deliver(s, Tap(g, 0), v), g).tok == s.tok
    ensures T.Fire(T.Deliver(s, Tap(g, 0), v), g).sent == s.sent
  {
  }

  // One side of the exclusive or alone keeps waiting.
  lemma {:induction false} TokenCD(s: T.Tokens<Name, bool>, v: bool)
    requires WellFormed(Network(), Height) && Tap(3, 1) !in s.tok
    ensures T.Drive(Network(), Height, s, CD, v) == T.Deliver(T.Push(s, CD, v), Tap(3, 0), v)
  {
    Taps4(CD, Tap(3, 0));
    OnePort(s, CD, v, Tap(3, 0));
    assert Network().gates[3].ins[1] == Some(BD);
  }

  // The second inverter, to the first side of the exclusive or.
  lemma {:induction false} TokenC(s: T.Tokens<Name, bool>, v: bool)
    requires WellFormed(Network(), Height) && Resting(s.tok)
    ensures forall j, x :: Drives(Network(), 2, j, x) ==> Height(x) < 2
    ensures var s' := T.Execute(Network(), Height, T.Deliver(s, Tap(2, 0), !v), 2, 2);
      s'.tok == s.tok[Tap(3, 0) := v] && T.Sent(s', Output) == T.Sent(s, Output)
  {
    TokenInverter(T.Deliver(s, Tap(2, 0), !v), 2, 2, CD, !v);
    InverterToken(s, 2, !v);
    TokenCD(T.Fire(T.Deliver(s, Tap(2, 0), !v), 2), v);
  }

  lemma {:induction false} TokenAC(s: T.Tokens<Name, bool>, v: bool)
    requires WellFormed(Network(), Height) && Resting(s.tok)
    ensures var s' := T.Drive(Network(), Height, s, AC, !v);
      s'.tok == s.tok[Tap(3, 0) := v] && T.Sent(s', Output) == T.Sent(s, Output)
  {
    Taps4(AC, Tap(2, 0));
    OnePort(s, AC, !v, Tap(2, 0));
    TokenC(T.Push(s, AC, !v), v);
  }

  lemma {:induction false} TokenUpper(s: T.Tokens<Name, bool>, v: bool)
    requires WellFormed(Network(), Height) && Resting(s.tok)
    ensures forall j, x :: Drives(Network(), 0, j, x) ==> Height(x) < 3
    ensures var s' := T.Execute(Network(), Height, T.Deliver(s, Tap(0, 0), v), 0, 3);
      s'.tok == s.tok[Tap(3, 0) := v] && T.Sent(s', Output) == T.Sent(s, Output)
  {
    TokenInverter(T.Deliver(s, Tap(0, 0), v), 0, 3, AC, v);
    InverterToken(s, 0, v);
    TokenAC(T.Fire(T.Deliver(s, Tap(0, 0), v), 0), v);
  }

  // The other side arrives: the exclusive or fires.
  lemma {:induction false} TokenBD(s: T.Tokens<Name, bool>, v: bool)
    requires WellFormed(Network(), Height) && Tap(3, 0) in s.tok && s.tok[Tap(3, 0)] == v
    requires forall t :: t in s.tok ==> t in {Tap(3, 0), Tap(4, 0)}
    ensures var s' := T.Drive(Network(), Height, s, BD, !v);
      s'.tok == map[Tap(4, 0) := true] && T.Sent(s', Output) == T.Sent(s, Output) + [true]
  {
    var s2 := T.Deliver(T.Push(s, BD, !v), Tap(3, 1), !v);
    Taps4(BD, Tap(3, 1));
    OnePort(s, BD, !v, Tap(3, 1));
    TokenXor(s2, v);
    TokenOutput(T.Fire(s2, 3), true);
    SidesGone(s2);
  }

  lemma SidesGone(s: T.Tokens<Name, bool>)
    requires forall t :: t in s.tok ==> t in {Tap(3, 0), Tap(3, 1), Tap(4, 0)}
    ensures T.Deliver(T.Push(T.Fire(s, 3), Output, true), Tap(4, 0), true).tok == map[Tap(4, 0) := true]
    ensures T.Fire(s, 3).sent == s.sent
  {
  }

  lemma {:induction false} TokenLower(s: T.Tokens<Name, bool>, v: bool)
    requires WellFormed(Network(), Height) && Tap(3, 0) in s.tok && s.tok[Tap(3, 0)] == v
    requires forall t :: t in s.tok ==> t in {Tap(3, 0), Tap(4, 0)}
    ensures forall j, x :: Drives(Network(), 1, j, x) ==> Height(x) < 3
    ensures var s' := T.Execute(Network(), Height, T.Deliver(s, Tap(1, 0), v), 1, 3);
      s'.tok == map[Tap(4, 0) := true] && T.Sent(s', Output) == T.Sent(s, Output) + [true]
  {
    TokenInverter(T.Deliver(s, Tap(1, 0), v), 1, 3, BD, v);
    InverterToken(s, 1, v);
    TokenBD(T.Fire(T.Deliver(s, Tap(1, 0), v), 1), v);
  }

  lemma {:induction false} TokenXor(s: T.Tokens<Name, bool>, v: bool)
    requires WellFormed(Network(), Height)
    requires Tap(3, 0) in s.tok && Tap(3, 1) in s.tok && s.tok[Tap(3, 0)] == v && s.tok[Tap(3, 1)] == !v
    ensures forall j, x :: Drives(Network(), 3, j, x) ==> Height(x) < 1
    ensures T.Execute(Network(), Height, s, 3, 1) == T.Drive(Network(), Height, T.Fire(s, 3), Output, true)
  {
    WiredOne(Network(), 3);
    var ins := Network().gates[3].ins;
    assert ins[1..] == [Some(BD)] && [Some(BD)][1..] == [];
    assert T.Held([Some(BD)], 3, 1, s.tok) == [!v] by {
      assert T.Held([Some(BD)][1..], 3, 2, s.tok) == [];
      assert s.tok[Tap(3, 1 + 0)] == !v;
    }
    assert T.Held(ins, 3, 0, s.tok) == [v] + [!v];
    assert [v] + [!v] == [v, !v];
    assert Xor([v, !v]) == Some(true) by { assert [v, !v][1] != [v, !v][0]; }
    FiresOnce(s, 3, 1, Output, true);
  }

  // Each drive is a round; the tokens it leaves are there in the next.
  ghost function TokenRounds(vs: seq<bool>): (map<Tap, bool>, seq<seq<bool>>)
    requires WellFormed(Network(), Height)
    decreases |vs|
  {
    if vs == [] then (map[], [])
    else
      var (tok, outs) := TokenRounds(vs[..|vs| - 1]);
      var s := T.Drive(Network(), Height, T.Tokens(tok, map[], multiset{}), Input, vs[|vs| - 1]);
      (s.tok, outs + [T.Sent(s, Output)])
  }

  lemma {:induction false} OneRound(tok: map<Tap, bool>, v: bool)
    requires WellFormed(Network(), Height) && Resting(tok)
    ensures var s := T.Drive(Network(), Height, T.Tokens(tok, map[], multiset{}), Input, v);
      s.tok == map[Tap(4, 0) := true] && T.Sent(s, Output) == [true]
  {
    var c, taps := Network(), [Tap(0, 0), Tap(1, 0)];
    var s0 := T.Push(T.Tokens(tok, map[], multiset{}), Input, v);
    Taps4(Input, taps[0]);
    Taps4(Input, taps[1]);
    TokenUpper(s0, v);
    var s1 := T.Execute(c, Height, T.Deliver(s0, taps[0], v), 0, 3);
    TokenLower(s1, v);
    var s2 := T.Execute(c, Height, T.Deliver(s1, taps[1], v), 1, 3);
    assert taps[1..] == [Tap(1, 0)] && taps[1..][1..] == [];
    assert T.Notify(c, Height, s0, Input, v, taps) == T.Notify(c, Height, s1, Input, v, taps[1..]);
    assert T.Notify(c, Height, s1, Input, v, taps[1..]) == T.Notify(c, Height, s2, Input, v, []);
  }

  function Trues(n: nat): seq<seq<bool>> {
    if n == 0 then [] else Trues(n - 1) + [[true]]
  }

  /** Token wires: every drive of every sequence makes the output exactly [true], which is what the sniffer
      records; the last one stays at the sniffer's port, and every other port is empty. */
  lemma {:induction false} TokensDoNot(vs: seq<bool>)
    ensures WellFormed(Network(), Height)
    ensures TokenRounds(vs) == (if vs == [] then map[] else map[Tap(4, 0) := true], Trues(|vs|))
    decreases |vs|
  {
    NetworkWellFormed();
    if vs != [] {
      TokensDoNot(vs[..|vs| - 1]);
      OneRound(TokenRounds(vs[..|vs| - 1]).0, vs[|vs| - 1]);
    }
  }
}
