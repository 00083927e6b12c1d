/** Why gates that hand on the values of their inputs need a circuit without feedback: a sorter box, notified
    through the loop breaker, whose smaller output leads back to one of its inputs. */
module QueuedFeedback {
  import opened Circuit
  import opened Options
  import opened ReferenceCounts
  import opened DirectBoard
  import opened QueuedBoard
  import QueuedSafety
  import SortNetwork

  datatype Name = Left | Right | Low | High

  // Gate 0 is the box; gate 1 answers the box's smaller value with a value of its own, on the box's input.
  function Loop(): Net<Name, int> {
    Net([Gate([Some(Left), Some(Right)], [Some(Low), Some(High)], true, false, SortNetwork.SortBox, None),
         Gate([Some(Low)], [Some(Right)], true, false, xs => [Fresh(7)], None)],
        map[Left := [Tap(0, 0)], Right := [Tap(0, 1)], Low := [Tap(1, 0)]])
  }

  lemma LoopAgrees()
    ensures Agrees(Loop())
  {
    var c := Loop();
    forall w, t ensures IsTap(c, w, t) <==> (w, t) in {(Left, Tap(0, 0)), (Right, Tap(0, 1)), (Low, Tap(1, 0))} {
      if t.gate < 2 { assert c.gates[t.gate].ins == if t.gate == 0 then [Some(Left), Some(Right)] else [Some(Low)]; }
    }
    assert forall w :: w in c.drivens ==> c.drivens[w] == [if w == Left then Tap(0, 0) else if w == Right then Tap(0, 1) else Tap(1, 0)];
  }

  function Modes(g: nat): Mode {
    if g == 0 then Breaker else AtOnce
  }

  ghost predicate Goes(s: State<Name, int>, a: Action<Name, int>, s': State<Name, int>) {
    Enabled(Loop(), s, a) && Safe(Loop(), Modes, s, a) && Step(Loop(), Modes, s, a) == s'
  }

  ghost predicate Path(ss: seq<State<Name, int>>, acts: seq<Action<Name, int>>) {
    |ss| == |acts| + 1 && forall i :: 0 <= i < |acts| ==> Goes(ss[i], acts[i], ss[i + 1])
  }

  lemma {:induction false} PathRuns(ss: seq<State<Name, int>>, acts: seq<Action<Name, int>>)
    requires Path(ss, acts)
    ensures Legal(Loop(), Modes, ss[0], acts) && After(Loop(), Modes, ss[0], acts) == ss[|acts|]
    decreases |acts|
  {
    if acts != [] {
      assert Goes(ss[0], acts[0], ss[1]);
      forall i | 0 <= i < |acts[1..]| ensures Goes(ss[1..][i], acts[1..][i], ss[1..][i + 1]) {
        assert Goes(ss[i + 1], acts[i + 1], ss[i + 2]);
      }
      PathRuns(ss[1..], acts[1..]);
    }
  }

  // ----- the run

  const NINE: Ref<int> := Counted(0)
  const SEVEN: Ref<int> := Counted(3)
  const ZERO: Ref<int> := Static(0)
  const HANDLES: seq<Handle<int>> := [Lent(ZERO), Lent(NINE)]

  // A client creates 9 and drives the right input with it.
  function Created(): State<Name, int> {
    State(map[], map[0 := Cell(9, 1)], 1, [], None, [], multiset{0}, [])
  }

  function DrivenNine(stack: seq<Frame<Name, int>>, count: int, queue: Option<seq<Task<int>>>): State<Name, int> {
    State(map[Right := NINE], map[0 := Cell(9, count)], 1, stack, queue, [], multiset{0}, [(Right, 9)])
  }

  // It has given its reference back: the wire alone holds 9.
  function Prepared(): State<Name, int> {
    State(map[Right := NINE], map[0 := Cell(9, 1)], 1, [], None, [], multiset{}, [(Right, 9)])
  }

  // It drives the left input with the constant 0.
  function DrivenZero(next: nat, stack: seq<Frame<Name, int>>, queue: Option<seq<Task<int>>>): State<Name, int> {
    State(map[Right := NINE, Left := ZERO], map[0 := Cell(9, 1)], next, stack, queue, [], multiset{}, [(Right, 9), (Left, 0)])
  }

  // The box, in the outermost call of the loop breaker, is at port j; inner calls follow.
  function Inside(j: nat, driven: bool, inner: seq<Frame<Name, int>>): seq<Frame<Name, int>> {
    [Notifying(Left, ZERO, []), Draining(Task(0, ZERO), true), Driving(0, HANDLES, j, driven)] + inner
  }

  // The smaller value has been driven.
  function DrivenLow(cells: map<nat, Cell<int>>, next: nat, inner: seq<Frame<Name, int>>): State<Name, int> {
    State(map[Right := NINE, Left := ZERO, Low := ZERO], cells, next, Inside(0, true, inner), Some([]), [], multiset{},
          [(Right, 9), (Left, 0)])
  }

  // The answer has replaced 9, which nothing holds any more.
  function Answered(count: int, stack: seq<Frame<Name, int>>, queue: seq<Task<int>>): State<Name, int> {
    State(map[Right := SEVEN, Left := ZERO, Low := ZERO], map[3 := Cell(7, count)], 4, stack, Some(queue), [], multiset{},
          [(Right, 9), (Left, 0)])
  }

  lemma WiredTwo()
    ensures Wired(Loop().gates[0].ins) == [Left, Right] && Wired(Loop().gates[1].ins) == [Low]
  {
    var ins := Loop().gates[0].ins;
    assert ins[1..] == [Some(Right)] && [Some(Right)][1..] == [];
    assert Wired([Some(Right)]) == [Right];
    assert Loop().gates[1].ins[1..] == [];
  }

  lemma Drive1()
    ensures Goes(Initial(), New(9), Created())
    ensures Goes(Created(), Drive(Right, NINE), DrivenNine([Notifying(Right, NINE, [Tap(0, 1)])], 2, None))
  {
  }

  lemma Turn1()
    ensures Goes(DrivenNine([Notifying(Right, NINE, [Tap(0, 1)])], 2, None), Proceed,
                 DrivenNine([Notifying(Right, NINE, []), Draining(Task(0, NINE), false)], 3, Some([])))
  {
    assert [Tap(0, 1)][1..] == [];
  }

  lemma Run1()
    ensures Goes(DrivenNine([Notifying(Right, NINE, []), Draining(Task(0, NINE), false)], 3, Some([])), Proceed,
                 DrivenNine([Notifying(Right, NINE, []), Draining(Task(0, NINE), true)], 3, Some([])))
  {
    WiredTwo();
    assert Left in Wired(Loop().gates[0].ins);
  }

  lemma End1()
    ensures Goes(DrivenNine([Notifying(Right, NINE, []), Draining(Task(0, NINE), true)], 3, Some([])), Proceed,
                 DrivenNine([Notifying(Right, NINE, [])], 2, None))
    ensures Goes(DrivenNine([Notifying(Right, NINE, [])], 2, None), Proceed, DrivenNine([], 2, None))
  {
  }

  lemma Give1()
    ensures Goes(DrivenNine([], 2, None), Give(0), Prepared())
  {
  }

  lemma Drive2()
    ensures Goes(Prepared(), Drive(Left, ZERO), DrivenZero(1, [Notifying(Left, ZERO, [Tap(0, 0)])], None))
  {
  }

  lemma Turn2()
    ensures Goes(DrivenZero(1, [Notifying(Left, ZERO, [Tap(0, 0)])], None), Proceed,
                 DrivenZero(1, [Notifying(Left, ZERO, []), Draining(Task(0, ZERO), false)], Some([])))
  {
    assert [Tap(0, 0)][1..] == [];
  }

  // The box reads 0 and 9, and will hand on both.
  lemma Run2()
    ensures Goes(DrivenZero(1, [Notifying(Left, ZERO, []), Draining(Task(0, ZERO), false)], Some([])), Proceed,
                 DrivenZero(3, Inside(0, false, []), Some([])))
  {
    var s := DrivenZero(1, [Notifying(Left, ZERO, []), Draining(Task(0, ZERO), false)], Some([]));
    WiredTwo();
    BoxFires(Begun(s));
    assert Begun(s).stack == [Notifying(Left, ZERO, []), Draining(Task(0, ZERO), true)];
  }

  lemma BoxFires(s: State<Name, int>)
    requires s.slot == map[Right := NINE, Left := ZERO] && s.cells == map[0 := Cell(9, 1)] && s.next == 1
    ensures AllLive(s.slot, s.cells)
    ensures Fire(Loop(), s, 0) == Push(s.(next := 3), Driving(0, HANDLES, 0, false))
  {
    WiredTwo();
    var gate, val := Loop().gates[0], Values(s.slot, s.cells);
    assert Ready(gate, val) && Inputs(gate, val) == [0, 9];
    var os := SortNetwork.SortBox([0, 9]);
    assert os == [Pass(0), Pass(1)];
    var refs := PointersOf(s.slot, Wired(gate.ins));
    assert refs == [ZERO, NINE];
    assert Handles(os, refs, 1, 2) == HANDLES;
    assert Born(os, 2, 1) == map[];
    assert s.cells + map[] == s.cells;
  }

  lemma Low2()
    ensures Goes(DrivenZero(3, Inside(0, false, []), Some([])), Proceed,
                 DrivenLow(map[0 := Cell(9, 1)], 3, [Notifying(Low, ZERO, [Tap(1, 0)])]))
  {
    assert DrivenZero(3, Inside(0, false, []), Some([])).stack[..2] + [Driving(0, HANDLES, 0, true)] == Inside(0, true, []);
  }

  lemma Answer2()
    ensures Goes(DrivenLow(map[0 := Cell(9, 1)], 3, [Notifying(Low, ZERO, [Tap(1, 0)])]), Proceed,
                 DrivenLow(map[0 := Cell(9, 1), 3 := Cell(7, 1)], 4, [Notifying(Low, ZERO, []), Driving(1, [Made(3)], 0, false)]))
  {
    var s := DrivenLow(map[0 := Cell(9, 1)], 3, [Notifying(Low, ZERO, [Tap(1, 0)])]);
    assert [Tap(1, 0)][1..] == [];
    var s1 := Replace(s, Notifying(Low, ZERO, []));
    assert s1.stack == Inside(0, true, [Notifying(Low, ZERO, [])]);
    AnswerFires(s1);
    assert Push(s1, Driving(1, [Made(3)], 0, false)).stack == Inside(0, true, [Notifying(Low, ZERO, []), Driving(1, [Made(3)], 0, false)]);
  }

  lemma SevenBorn()
    ensures Born([Output.Fresh(7)], 1, 3) == map[3 := Cell(7, 1)]
    ensures map[0 := Cell(9, 1)] + Born([Output.Fresh(7)], 1, 3) == map[0 := Cell(9, 1), 3 := Cell(7, 1)]
  {
    assert Creates([Output.Fresh(7)], 1, 3, 3);
  }

  lemma AnswerFires(s: State<Name, int>)
    requires s.slot == map[Right := NINE, Left := ZERO, Low := ZERO] && s.cells == map[0 := Cell(9, 1)] && s.next == 3
    ensures AllLive(s.slot, s.cells)
    ensures Fire(Loop(), s, 1) ==
            Push(s.(cells := map[0 := Cell(9, 1), 3 := Cell(7, 1)], next := 4), Driving(1, [Made(3)], 0, false))
  {
    WiredTwo();
    var gate, val := Loop().gates[1], Values(s.slot, s.cells);
    assert Ready(gate, val) && Inputs(gate, val) == [0];
    var os: seq<Output<int>> := [Fresh(7)];
    assert gate.f([0]) == os;
    assert Handles(os, PointersOf(s.slot, Wired(gate.ins)), 3, 1) == [Made(3)];
    SevenBorn();
  }

  // The answer takes the place of 9, and frees it.
  lemma Free2()
    ensures Goes(DrivenLow(map[0 := Cell(9, 1), 3 := Cell(7, 1)], 4, [Notifying(Low, ZERO, []), Driving(1, [Made(3)], 0, false)]),
                 Proceed,
                 Answered(2, Inside(0, true, [Notifying(Low, ZERO, []), Driving(1, [Made(3)], 0, true), Notifying(Right, SEVEN, [Tap(0, 1)])]), []))
  {
    var s := DrivenLow(map[0 := Cell(9, 1), 3 := Cell(7, 1)], 4, [Notifying(Low, ZERO, []), Driving(1, [Made(3)], 0, false)]);
    assert s.stack[..4] + [Driving(1, [Made(3)], 0, true)] ==
      Inside(0, true, [Notifying(Low, ZERO, []), Driving(1, [Made(3)], 0, true)]);
    assert Imported(s.slot, s.cells, Right, SEVEN) == map[3 := Cell(7, 2)];
  }

  // Back in the box's call: the box is queued again, and the calls inside its first drive return.
  lemma Queue3()
    ensures Goes(Answered(2, Inside(0, true, [Notifying(Low, ZERO, []), Driving(1, [Made(3)], 0, true), Notifying(Right, SEVEN, [Tap(0, 1)])]), []),
                 Proceed,
                 Answered(3, Inside(0, true, [Notifying(Low, ZERO, []), Driving(1, [Made(3)], 0, true), Notifying(Right, SEVEN, [])]), [Task(0, SEVEN)]))
  {
    var s := Answered(2, Inside(0, true, [Notifying(Low, ZERO, []), Driving(1, [Made(3)], 0, true), Notifying(Right, SEVEN, [Tap(0, 1)])]), []);
    assert [Tap(0, 1)][1..] == [];
    assert [] + [Task(0, SEVEN)] == [Task(0, SEVEN)];
    assert Referenced(s.cells, SEVEN) == map[3 := Cell(7, 3)];
    assert s.stack[..5] + [Notifying(Right, SEVEN, [])] ==
      Inside(0, true, [Notifying(Low, ZERO, []), Driving(1, [Made(3)], 0, true), Notifying(Right, SEVEN, [])]);
  }

  lemma Return3()
    ensures Goes(Answered(3, Inside(0, true, [Notifying(Low, ZERO, []), Driving(1, [Made(3)], 0, true), Notifying(Right, SEVEN, [])]), [Task(0, SEVEN)]),
                 Proceed,
                 Answered(3, Inside(0, true, [Notifying(Low, ZERO, []), Driving(1, [Made(3)], 0, true)]), [Task(0, SEVEN)]))
    ensures Goes(Answered(2, Inside(0, true, [Notifying(Low, ZERO, [])]), [Task(0, SEVEN)]), Proceed,
                 Answered(2, Inside(0, true, []), [Task(0, SEVEN)]))
  {
    var inner := [Notifying(Low, ZERO, []), Driving(1, [Made(3)], 0, true)];
    assert Inside(0, true, inner + [Notifying(Right, SEVEN, [])])[..5] == Inside(0, true, inner);
    assert inner + [Notifying(Right, SEVEN, [])] == [Notifying(Low, ZERO, []), Driving(1, [Made(3)], 0, true), Notifying(Right, SEVEN, [])];
    assert Inside(0, true, [Notifying(Low, ZERO, [])])[..3] == Inside(0, true, []);
  }

  lemma Given3()
    ensures Goes(Answered(3, Inside(0, true, [Notifying(Low, ZERO, []), Driving(1, [Made(3)], 0, true)]), [Task(0, SEVEN)]), Proceed,
                 Answered(2, Inside(0, true, [Notifying(Low, ZERO, []), Driving(1, [Made(3)], 1, false)]), [Task(0, SEVEN)]))
    ensures Goes(Answered(2, Inside(0, true, [Notifying(Low, ZERO, []), Driving(1, [Made(3)], 1, false)]), [Task(0, SEVEN)]), Proceed,
                 Answered(2, Inside(0, true, [Notifying(Low, ZERO, [])]), [Task(0, SEVEN)]))
  {
    var s := Inside(0, true, [Notifying(Low, ZERO, []), Driving(1, [Made(3)], 0, true)]);
    assert s[..4] + [Driving(1, [Made(3)], 1, false)] ==
      Inside(0, true, [Notifying(Low, ZERO, []), Driving(1, [Made(3)], 1, false)]);
    assert Inside(0, true, [Notifying(Low, ZERO, []), Driving(1, [Made(3)], 1, false)])[..4] == Inside(0, true, [Notifying(Low, ZERO, [])]);
    assert Dropped(map[3 := Cell(7, 3)], SEVEN) == map[3 := Cell(7, 2)];
  }

  lemma Given4()
    ensures Goes(Answered(2, Inside(0, true, []), [Task(0, SEVEN)]), Proceed, Answered(2, Inside(1, false, []), [Task(0, SEVEN)]))
  {
    assert Inside(0, true, [])[..2] + [Driving(0, HANDLES, 1, false)] == Inside(1, false, []);
  }

  // ----- the whole run

  ghost predicate Leads(s: State<Name, int>, run: seq<Action<Name, int>>, s': State<Name, int>) {
    Legal(Loop(), Modes, s, run) && After(Loop(), Modes, s, run) == s'
  }

  lemma {:induction false} Join(
    s: State<Name, int>, a: seq<Action<Name, int>>, s1: State<Name, int>, b: seq<Action<Name, int>>, s2: State<Name, int>)
    requires Leads(s, a, s1) && Leads(s1, b, s2)
    ensures Leads(s, a + b, s2)
    decreases |a|
  {
    if a == [] {
      assert a + b == b;
    } else {
      assert (a + b)[0] == a[0] && (a + b)[1..] == a[1..] + b;
      Join(Step(Loop(), Modes, s, a[0]), a[1..], s1, b, s2);
    }
  }

  lemma {:induction false} Prepare()
    ensures Leads(Initial(), [New(9), Drive(Right, NINE), Proceed, Proceed, Proceed, Proceed, Give(0)], Prepared())
  {
    Drive1();
    Turn1();
    Run1();
    End1();
    Give1();
    PathRuns([Initial(), Created(), DrivenNine([Notifying(Right, NINE, [Tap(0, 1)])], 2, None),
              DrivenNine([Notifying(Right, NINE, []), Draining(Task(0, NINE), false)], 3, Some([])),
              DrivenNine([Notifying(Right, NINE, []), Draining(Task(0, NINE), true)], 3, Some([])),
              DrivenNine([Notifying(Right, NINE, [])], 2, None), DrivenNine([], 2, None), Prepared()],
             [New(9), Drive(Right, NINE), Proceed, Proceed, Proceed, Proceed, Give(0)]);
  }

  // The calls inside the box's first drive.
  function Calls(last: seq<Frame<Name, int>>): seq<Frame<Name, int>> {
    Inside(0, true, [Notifying(Low, ZERO, [])] + last)
  }

  lemma {:induction false} Answer()
    ensures Leads(Prepared(), [Drive(Left, ZERO), Proceed, Proceed, Proceed, Proceed, Proceed],
                  Answered(2, Calls([Driving(1, [Made(3)], 0, true), Notifying(Right, SEVEN, [Tap(0, 1)])]), []))
  {
    Drive2();
    Turn2();
    Run2();
    Low2();
    Answer2();
    Free2();
    assert [Notifying(Low, ZERO, [])] + [Driving(1, [Made(3)], 0, true), Notifying(Right, SEVEN, [Tap(0, 1)])] ==
      [Notifying(Low, ZERO, []), Driving(1, [Made(3)], 0, true), Notifying(Right, SEVEN, [Tap(0, 1)])];
    PathRuns([Prepared(), DrivenZero(1, [Notifying(Left, ZERO, [Tap(0, 0)])], None),
              DrivenZero(1, [Notifying(Left, ZERO, []), Draining(Task(0, ZERO), false)], Some([])),
              DrivenZero(3, Inside(0, false, []), Some([])),
              DrivenLow(map[0 := Cell(9, 1)], 3, [Notifying(Low, ZERO, [Tap(1, 0)])]),
              DrivenLow(map[0 := Cell(9, 1), 3 := Cell(7, 1)], 4, [Notifying(Low, ZERO, []), Driving(1, [Made(3)], 0, false)]),
              Answered(2, Calls([Driving(1, [Made(3)], 0, true), Notifying(Right, SEVEN, [Tap(0, 1)])]), [])],
             [Drive(Left, ZERO), Proceed, Proceed, Proceed, Proceed, Proceed]);
  }

  lemma {:induction false} Unwind()
    ensures Leads(Answered(2, Calls([Driving(1, [Made(3)], 0, true), Notifying(Right, SEVEN, [Tap(0, 1)])]), []),
                  [Proceed, Proceed, Proceed, Proceed, Proceed, Proceed],
                  Answered(2, Inside(1, false, []), [Task(0, SEVEN)]))
  {
    var low, queued := Notifying(Low, ZERO, []), [Task(0, SEVEN)];
    Queue3();
    Return3();
    Given3();
    Given4();
    assert [low] + [Driving(1, [Made(3)], 0, true), Notifying(Right, SEVEN, [Tap(0, 1)])] ==
      [low, Driving(1, [Made(3)], 0, true), Notifying(Right, SEVEN, [Tap(0, 1)])];
    PathRuns([Answered(2, Calls([Driving(1, [Made(3)], 0, true), Notifying(Right, SEVEN, [Tap(0, 1)])]), []),
              Answered(3, Inside(0, true, [low, Driving(1, [Made(3)], 0, true), Notifying(Right, SEVEN, [])]), queued),
              Answered(3, Inside(0, true, [low, Driving(1, [Made(3)], 0, true)]), queued),
              Answered(2, Inside(0, true, [low, Driving(1, [Made(3)], 1, false)]), queued),
              Answered(2, Inside(0, true, [low]), queued), Answered(2, Inside(0, true, []), queued),
              Answered(2, Inside(1, false, []), queued)],
             [Proceed, Proceed, Proceed, Proceed, Proceed, Proceed]);
  }

  lemma Dangling()
    ensures var s := Answered(2, Inside(1, false, []), [Task(0, SEVEN)]);
      && Enabled(Loop(), s, Proceed) && !Safe(Loop(), Modes, s, Proceed)
      && Inner(s).Driving? && Inner(s).j == 1 && Inner(s).hs == HANDLES && 0 !in s.cells
  {
    var s := Answered(2, Inside(1, false, []), [Task(0, SEVEN)]);
    assert Inner(s) == Driving(0, HANDLES, 1, false) && HANDLES[1] == Lent(NINE);
  }

  /** In the loop the box, when it comes to its second port, drives the value it read at its right input, which
      nothing holds any more: the next step of this run touches freed memory. */
  lemma {:induction false} HandedOnFreed() returns (run: seq<Action<Name, int>>)
    ensures Legal(Loop(), Modes, Initial(), run)
    ensures var s := After(Loop(), Modes, Initial(), run);
      && Enabled(Loop(), s, Proceed) && !Safe(Loop(), Modes, s, Proceed)
      && Inner(s).Driving? && Inner(s).j == 1 && Inner(s).hs == HANDLES && 0 !in s.cells
      && !QueuedSafety.HandsOnHeld(Loop(), Modes, s)
  {
    var first: seq<Action<Name, int>> := [New(9), Drive(Right, NINE), Proceed, Proceed, Proceed, Proceed, Give(0)];
    var second: seq<Action<Name, int>> := [Drive(Left, ZERO), Proceed, Proceed, Proceed, Proceed, Proceed];
    var third: seq<Action<Name, int>> := [Proceed, Proceed, Proceed, Proceed, Proceed, Proceed];
    var freed := Answered(2, Calls([Driving(1, [Made(3)], 0, true), Notifying(Right, SEVEN, [Tap(0, 1)])]), []);
    Prepare();
    Answer();
    Unwind();
    Dangling();
    Join(Initial(), first, Prepared(), second, freed);
    run := first + second + third;
    Join(Initial(), first + second, freed, third, Answered(2, Inside(1, false, []), [Task(0, SEVEN)]));
    LoopAgrees();
    QueuedSafety.SafeExactly(Loop(), Modes, run);
  }
}
