/** Gates that absorb their tokens before they read them, as the functional wrapper and the sorter boxes do:
    when what they then read is still in memory. */
module TokenReads {
  import opened Circuit
  import opened ReferenceCounts

  // The memory after gate g has absorbed the tokens at its ports from p to n, one after the other.
  ghost function Absorbed<V>(
    port: map<Tap, Ref<V>>, cells: map<nat, Cell<V>>, outside: multiset<nat>, g: nat, p: nat, n: nat): map<nat, Cell<V>>
    requires Balanced(port, cells, outside) && p <= n
    decreases n - p
  {
    if p == n then cells
    else if Tap(g, p) !in port then Absorbed(port, cells, outside, g, p + 1, n)
    else
      ClearedDropped(port, cells, outside, Tap(g, p));
      Absorbed(port - {Tap(g, p)}, Dropped(cells, port[Tap(g, p)]), outside, g, p + 1, n)
  }

  lemma ClearedDropped<V>(port: map<Tap, Ref<V>>, cells: map<nat, Cell<V>>, outside: multiset<nat>, t: Tap)
    requires Balanced(port, cells, outside) && t in port
    ensures Balanced(port - {t}, Dropped(cells, port[t]), outside)
  {
    ClearedBalanced(port, cells, outside, t);
    DroppedBalanced(port - {t}, cells, outside + One(port[t]), port[t]);
    assert outside + One(port[t]) - One(port[t]) == outside;
  }

  // The tokens of other gates, and those at other ports of gate g.
  ghost function Others<V>(port: map<Tap, Ref<V>>, g: nat, p: nat, n: nat): map<Tap, Ref<V>> {
    map t | t in port && !(t.gate == g && p <= t.port < n) :: port[t]
  }

  lemma {:induction false} AbsorbedBalanced<V>(
    port: map<Tap, Ref<V>>, cells: map<nat, Cell<V>>, outside: multiset<nat>, g: nat, p: nat, n: nat)
    requires Balanced(port, cells, outside) && p <= n
    ensures Balanced(Others(port, g, p, n), Absorbed(port, cells, outside, g, p, n), outside)
    decreases n - p
  {
    if p == n {
      assert Others(port, g, p, n) == port;
    } else if Tap(g, p) !in port {
      assert Others(port, g, p, n) == Others(port, g, p + 1, n) by {
        assert forall t :: t in port && t.gate == g && t.port == p ==> t == Tap(g, p);
      }
      AbsorbedBalanced(port, cells, outside, g, p + 1, n);
    } else {
      ClearedDropped(port, cells, outside, Tap(g, p));
      OthersNext(port, g, p, n);
      AbsorbedBalanced(port - {Tap(g, p)}, Dropped(cells, port[Tap(g, p)]), outside, g, p + 1, n);
    }
  }

  lemma OthersNext<V>(port: map<Tap, Ref<V>>, g: nat, p: nat, n: nat)
    requires p < n
    ensures Others(port, g, p, n) == Others(port - {Tap(g, p)}, g, p + 1, n)
  {
    assert forall t :: t in port && t.gate == g && t.port == p ==> t == Tap(g, p);
  }

  // The ports of gate g that hold value id.
  ghost function Own<V>(port: map<Tap, Ref<V>>, g: nat, n: nat, id: nat): set<Tap> {
    set t | t in Holders(port, id) && t.gate == g && t.port < n
  }

  lemma {:induction false} OneLiveIff<V>(
    port: map<Tap, Ref<V>>, cells: map<nat, Cell<V>>, outside: multiset<nat>, g: nat, n: nat, id: nat)
    requires Balanced(port, cells, outside) && id in cells
    ensures id in Absorbed(port, cells, outside, g, 0, n) <==> cells[id].count > |Own(port, g, n, id)|
  {
    var rest := Others(port, g, 0, n);
    AbsorbedBalanced(port, cells, outside, g, 0, n);
    InMemoryIffHeld(rest, Absorbed(port, cells, outside, g, 0, n), outside, id);
    assert Counts(port, cells, outside, id);
    assert Holders(port, id) == Own(port, g, n, id) + Holders(rest, id);
    assert Own(port, g, n, id) !! Holders(rest, id);
    if |Holders(rest, id)| > 0 {
      var t :| t in Holders(rest, id);
      assert t in rest && rest[t] == Counted(id);
    } else {
      assert forall t :: t in rest && rest[t] == Counted(id) ==> t in Holders(rest, id);
    }
  }

  // Gate g, with n ports, has absorbed all its tokens and reads their values.
  ghost predicate ReadsLive<V>(port: map<Tap, Ref<V>>, cells: map<nat, Cell<V>>, outside: multiset<nat>, g: nat, n: nat)
    requires Balanced(port, cells, outside)
  {
    forall p :: 0 <= p < n && Tap(g, p) in port ==> Live(port[Tap(g, p)], Absorbed(port, cells, outside, g, 0, n))
  }

  // Every counted token of gate g has a holder besides the ports of g.
  ghost predicate OtherHolder<V>(port: map<Tap, Ref<V>>, cells: map<nat, Cell<V>>, g: nat, n: nat) {
    forall p :: 0 <= p < n && Tap(g, p) in port && port[Tap(g, p)].Counted? ==>
      var id := port[Tap(g, p)].id;
      id in cells && cells[id].count > |Own(port, g, n, id)|
  }

  /** In every state: a gate that absorbs first reads only values in memory exactly when, for each of its
      counted tokens, the count exceeds the number of its own ports that hold the value. */
  lemma ReadsLiveIff<V>(port: map<Tap, Ref<V>>, cells: map<nat, Cell<V>>, outside: multiset<nat>, g: nat, n: nat)
    requires Balanced(port, cells, outside)
    ensures ReadsLive(port, cells, outside, g, n) <==> OtherHolder(port, cells, g, n)
  {
    forall p: nat | p < n && Tap(g, p) in port && port[Tap(g, p)].Counted?
      ensures var id := port[Tap(g, p)].id;
        id in cells && (id in Absorbed(port, cells, outside, g, 0, n) <==> cells[id].count > |Own(port, g, n, id)|)
    {
      assert Live(port[Tap(g, p)], cells);
      OneLiveIff(port, cells, outside, g, n, port[Tap(g, p)].id);
    }
  }

  /** Two inputs of such a gate, each driven by create, drive, unreference: the first token is held by its
      port alone when the second arrives, so it is freed before it is read. */
  method FirstTokenFreed<V(==)>(a: V, b: V) returns (first: bool, second: bool)
    ensures !first && second
  {
    var ports := new Memory<Tap, V>();
    var x := ports.Create(a);
    ports.Import(Tap(0, 0), Counted(x));
    ports.GiveBack(x);
    var y := ports.Create(b);
    ports.Import(Tap(0, 1), Counted(y));
    // Both ports hold a token: the gate absorbs them, and then reads.
    ports.Clear(Tap(0, 0));
    ports.Clear(Tap(0, 1));
    assert ports.slot == map[];
    InMemoryIffHeld(ports.slot, ports.cells, ports.outside, x);
    InMemoryIffHeld(ports.slot, ports.cells, ports.outside, y);
    first, second := x in ports.cells, y in ports.cells;
  }
}
