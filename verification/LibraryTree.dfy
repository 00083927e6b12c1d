/** The tree of library paths: nodes are found by name level by level, and the missing end of a path is
    created. */
module LibraryTree {
  import opened Options

  // Node 0 stands for the array of root nodes; every other node has a name and its subnodes in order.
  datatype Tree = Tree(name: map<nat, string>, kids: map<nat, seq<nat>>)

  const EMPTY := Tree(map[], map[0 := []])

  ghost predicate NodeOk(t: Tree, n: nat) {
    n in t.kids ==>
      && (forall i :: 0 <= i < |t.kids[n]| ==> t.kids[n][i] in t.name && t.kids[n][i] in t.kids && t.kids[n][i] != 0)
      && (forall i, j :: 0 <= i < j < |t.kids[n]| ==> t.name[t.kids[n][i]] != t.name[t.kids[n][j]])
  }

  // Subnodes exist, and siblings have different names, at every level.
  ghost predicate Valid(t: Tree) {
    0 in t.kids && forall n: nat :: NodeOk(t, n)
  }

  // The first of these nodes with the name.
  function Named(t: Tree, nodes: seq<nat>, s: string): (r: Option<nat>)
    ensures r.Some? ==> r.value in nodes && r.value in t.name && t.name[r.value] == s
    ensures r.None? ==> forall i :: 0 <= i < |nodes| && nodes[i] in t.name ==> t.name[nodes[i]] != s
  {
    if nodes == [] then None
    else if nodes[0] in t.name && t.name[nodes[0]] == s then Some(nodes[0])
    else Named(t, nodes[1..], s)
  }

  function Kids(t: Tree, n: nat): seq<nat> {
    if n in t.kids then t.kids[n] else []
  }

  // The node that a path spells, starting below n.
  function Walk(t: Tree, n: nat, path: seq<string>): Option<nat>
    decreases |path|
  {
    if path == [] then Some(n)
    else
      var c := Named(t, Kids(t, n), path[0]);
      if c.None? then None else Walk(t, c.value, path[1..])
  }

  function Added(t: Tree, n: nat, c: nat, s: string): Tree {
    Tree(t.name[c := s], t.kids[n := Kids(t, n) + [c]][c := []])
  }

  // ----- adding one node

  lemma {:induction false} NamedFrame(t: Tree, t': Tree, nodes: seq<nat>, s: string)
    requires forall i :: 0 <= i < |nodes| ==> nodes[i] in t.name && nodes[i] in t'.name && t'.name[nodes[i]] == t.name[nodes[i]]
    ensures Named(t', nodes, s) == Named(t, nodes, s)
    decreases |nodes|
  {
    if nodes != [] { NamedFrame(t, t', nodes[1..], s); }
  }

  lemma {:induction false} NamedLast(t: Tree, nodes: seq<nat>, c: nat, s: string)
    ensures Named(t, nodes + [c], s) == if Named(t, nodes, s).Some? then Named(t, nodes, s) else Named(t, [c], s)
    decreases |nodes|
  {
    if nodes == [] {
      assert nodes + [c] == [c];
    } else {
      assert (nodes + [c])[1..] == nodes[1..] + [c];
      NamedLast(t, nodes[1..], c, s);
    }
  }

  // c is a new node below n.
  ghost predicate NewBelow(t: Tree, n: nat, c: nat, s: string) {
    Valid(t) && n in t.kids && c !in t.kids && c !in t.name && Named(t, t.kids[n], s) == None
  }

  lemma {:induction false} AddedNamed(t: Tree, n: nat, c: nat, s: string, m: nat, x: string)
    requires NewBelow(t, n, c, s)
    ensures m in t.kids ==>
      Named(Added(t, n, c, s), Kids(Added(t, n, c, s), m), x) == if m == n && x == s then Some(c) else Named(t, Kids(t, m), x)
    ensures m == c ==> Named(Added(t, n, c, s), Kids(Added(t, n, c, s), m), x) == None
  {
    var t' := Added(t, n, c, s);
    if m in t.kids {
      assert NodeOk(t, m);
      forall i | 0 <= i < |t.kids[m]| ensures t.kids[m][i] in t.name && t'.name[t.kids[m][i]] == t.name[t.kids[m][i]] {}
      NamedFrame(t, t', t.kids[m], x);
      if m == n { NamedLast(t', t.kids[n], c, x); }
    }
  }

  lemma AddedValid(t: Tree, n: nat, c: nat, s: string)
    requires NewBelow(t, n, c, s)
    ensures Valid(Added(t, n, c, s))
  {
    var t' := Added(t, n, c, s);
    forall m: nat ensures NodeOk(t', m) {
      assert NodeOk(t, m) && NodeOk(t, n);
    }
  }

  // Every path that led somewhere still does; the only new paths run through the new node.
  lemma {:induction false} AddedWalk(t: Tree, n: nat, c: nat, s: string, m: nat, q: seq<string>)
    requires NewBelow(t, n, c, s) && m in t.kids
    ensures Walk(t, m, q).Some? ==> Walk(Added(t, n, c, s), m, q) == Walk(t, m, q)
    ensures Walk(t, m, q).None? && Walk(Added(t, n, c, s), m, q).Some? ==>
      Walk(Added(t, n, c, s), m, q) == Some(c) && q != [] && q[|q| - 1] == s && Walk(t, m, q[..|q| - 1]) == Some(n)
    decreases |q|
  {
    if q != [] {
      var t' := Added(t, n, c, s);
      AddedNamed(t, n, c, s, m, q[0]);
      var x := Named(t, Kids(t, m), q[0]);
      if x.Some? {
        assert NodeOk(t, m);
        AddedWalk(t, n, c, s, x.value, q[1..]);
        if q[1..] != [] { assert q[..|q| - 1][1..] == q[1..][..|q[1..]| - 1]; }
      } else if m == n && q[0] == s && |q| > 1 {
        AddedNamed(t, n, c, s, c, q[1]);
      }
    }
  }

  lemma {:induction false} WalkSnoc(t: Tree, m: nat, q: seq<string>, s: string)
    ensures Walk(t, m, q + [s]) ==
            if Walk(t, m, q).Some? then Named(t, Kids(t, Walk(t, m, q).value), s) else None
    decreases |q|
  {
    assert (q + [s])[0] == if q == [] then s else q[0];
    if q == [] {
      assert (q + [s])[1..] == [];
    } else {
      assert (q + [s])[1..] == q[1..] + [s];
      var c := Named(t, Kids(t, m), q[0]);
      if c.Some? { WalkSnoc(t, c.value, q[1..], s); }
    }
  }

  lemma {:induction false} WalkExists(t: Tree, m: nat, q: seq<string>)
    requires Valid(t) && m in t.kids
    ensures Walk(t, m, q).Some? ==> Walk(t, m, q).value in t.kids
    decreases |q|
  {
    if q != [] {
      assert NodeOk(t, m);
      var c := Named(t, Kids(t, m), q[0]);
      if c.Some? { WalkExists(t, c.value, q[1..]); }
    }
  }

  // No node is reached by two paths.
  ghost predicate OnePath(t: Tree) {
    forall p, q :: SamePath(t, p, q)
  }

  predicate SamePath(t: Tree, p: seq<string>, q: seq<string>) {
    Walk(t, 0, p).Some? && Walk(t, 0, p) == Walk(t, 0, q) ==> p == q
  }

  lemma AddedOnePath(t: Tree, n: nat, c: nat, s: string)
    requires NewBelow(t, n, c, s) && OnePath(t)
    ensures OnePath(Added(t, n, c, s))
  {
    forall p, q ensures SamePath(Added(t, n, c, s), p, q) {
      assert SamePath(t, p, q);
      assert p != [] && q != [] ==> SamePath(t, p[..|p| - 1], q[..|q| - 1]);
      AddedSamePath(t, n, c, s, p, q);
    }
  }

  lemma AddedSamePath(t: Tree, n: nat, c: nat, s: string, p: seq<string>, q: seq<string>)
    requires NewBelow(t, n, c, s) && SamePath(t, p, q)
    requires p != [] && q != [] ==> SamePath(t, p[..|p| - 1], q[..|q| - 1])
    ensures SamePath(Added(t, n, c, s), p, q)
  {
    AddedWalk(t, n, c, s, 0, p);
    AddedWalk(t, n, c, s, 0, q);
    WalkExists(t, 0, p);
    WalkExists(t, 0, q);
    if Walk(t, 0, p).None? && p != [] && q != [] && p[|p| - 1] == q[|q| - 1] == s {
      assert p == p[..|p| - 1] + [s] && q == q[..|q| - 1] + [s];
    }
  }

  // The path, or a beginning of it, leads to n.
  ghost predicate Spelled(t: Tree, path: seq<string>, n: nat) {
    exists i: nat :: i <= |path| && Walk(t, 0, path[..i]) == Some(n)
  }

  // Between a and b the missing end of path was created, and nothing else changed.
  ghost predicate Grown(a: Tree, b: Tree, path: seq<string>) {
    && (forall q :: Walk(a, 0, q).Some? ==> Walk(b, 0, q) == Walk(a, 0, q))
    && (forall q :: Walk(b, 0, q).Some? && Walk(a, 0, q).None? ==> q <= path)
  }

  // New nodes come last below their parents, and only nodes of the path are new.
  ghost predicate NewNodes(a: Tree, b: Tree, path: seq<string>) {
    && (forall n :: n in a.kids ==> n in b.kids && a.kids[n] <= b.kids[n])
    && (forall n :: n in b.kids && n !in a.kids ==> Spelled(b, path, n))
  }

  lemma {:induction false} NewNodesStep(a: Tree, b: Tree, path: seq<string>, lvl: nat, n: nat, c: nat)
    requires NewNodes(a, b, path) && lvl < |path| && Walk(b, 0, path[..lvl]) == Some(n) && NewBelow(b, n, c, path[lvl])
    ensures NewNodes(a, Added(b, n, c, path[lvl]), path)
  {
    var b' := Added(b, n, c, path[lvl]);
    forall m | m in b'.kids && m !in a.kids ensures Spelled(b', path, m) {
      if m == c {
        AddedNode(b, path[..lvl], n, c, path[lvl]);
        assert path[..lvl + 1] == path[..lvl] + [path[lvl]];
      } else {
        assert Spelled(b, path, m);
        var i: nat :| i <= |path| && Walk(b, 0, path[..i]) == Some(m);
        AddedWalk(b, n, c, path[lvl], 0, path[..i]);
      }
    }
  }

  // One more node of the path was added.
  lemma {:induction false} GrownStep(a: Tree, b: Tree, path: seq<string>, lvl: nat, n: nat, c: nat)
    requires Grown(a, b, path) && lvl < |path| && Walk(b, 0, path[..lvl]) == Some(n) && NewBelow(b, n, c, path[lvl])
    requires OnePath(b)
    ensures Grown(a, Added(b, n, c, path[lvl]), path)
  {
    var b' := Added(b, n, c, path[lvl]);
    forall q | Walk(a, 0, q).Some? ensures Walk(b', 0, q) == Walk(a, 0, q) {
      AddedWalk(b, n, c, path[lvl], 0, q);
    }
    forall q | Walk(b', 0, q).Some? && Walk(a, 0, q).None? ensures q <= path {
      AddedWalk(b, n, c, path[lvl], 0, q);
      if Walk(b, 0, q).None? {
        assert SamePath(b, q[..|q| - 1], path[..lvl]);
        assert q[..|q| - 1] == path[..lvl] && q == q[..|q| - 1] + [path[lvl]];
      }
    }
  }

  lemma GrownRefl(a: Tree, path: seq<string>)
    ensures Grown(a, a, path) && NewNodes(a, a, path)
  {
  }

  class Library {
    var name: map<nat, string>
    var kids: map<nat, seq<nat>>
    var next: nat

    function Now(): Tree
      reads this
    {
      Tree(name, kids)
    }

    ghost predicate Ok()
      reads this
    {
      && Valid(Now()) && OnePath(Now())
      && (forall n :: n in kids ==> n < next) && (forall n :: n in name ==> n < next)
    }

    constructor ()
      ensures Ok() && Now() == EMPTY
    {
      name, kids, next := map[], map[0 := []], 1;
    }

    /** Follows the path as far as it exists. */
    method SearchAhead(path: seq<string>, lvl: nat, n: nat) returns (depth: nat, last: nat)
      requires Ok() && lvl <= |path| && Walk(Now(), 0, path[..lvl]) == Some(n)
      ensures lvl <= depth <= |path| && Walk(Now(), 0, path[..depth]) == Some(last)
      ensures depth < |path| ==> Named(Now(), Kids(Now(), last), path[depth]) == None
      decreases |path| - lvl
    {
      if lvl == |path| {
        return lvl, n;
      }
      var nodes := Kids(Now(), n);
      WalkExists(Now(), 0, path[..lvl]);
      assert NodeOk(Now(), n) && nodes[0..] == nodes;
      for i := 0 to |nodes|
        invariant Named(Now(), nodes, path[lvl]) == Named(Now(), nodes[i..], path[lvl])
      {
        assert nodes[i..][1..] == nodes[i + 1..];
        if name[nodes[i]] == path[lvl] {
          WalkSnoc(Now(), 0, path[..lvl], path[lvl]);
          assert path[..lvl + 1] == path[..lvl] + [path[lvl]];
          depth, last := SearchAhead(path, lvl + 1, nodes[i]);
          return;
        }
      }
      return lvl, n;
    }

    method Append(n: nat, s: string) returns (c: nat)
      requires Ok() && NewBelow(Now(), n, next, s)
      modifies this
      ensures Ok() && c == old(next) && Now() == Added(old(Now()), n, c, s)
    {
      c := next;
      AddedValid(Now(), n, c, s);
      AddedOnePath(Now(), n, c, s);
      next := next + 1;
      name := name[c := s];
      kids := kids[n := kids[n] + [c]][c := []];
    }

    // Creates the node for the next name of the path.
    method CreateNext(path: seq<string>, lvl: nat, last: nat, ghost was: Tree) returns (node: nat)
      requires Ok() && lvl < |path| && Reaches(was, Now(), path, lvl, last)
      modifies this
      ensures Ok() && Reaches(was, Now(), path, lvl + 1, node)
    {
      Extended(was, Now(), path, lvl, last, next);
      node := Append(last, path[lvl]);
    }

    // Creates the nodes from lvl on, one below the other.
    method CreateEnd(path: seq<string>, lvl: nat, last: nat) returns (node: nat)
      requires Ok() && lvl < |path| && Walk(Now(), 0, path[..lvl]) == Some(last)
      requires Named(Now(), Kids(Now(), last), path[lvl]) == None
      modifies this
      ensures Ok() && Walk(Now(), 0, path) == Some(node)
      ensures Grown(old(Now()), Now(), path) && NewNodes(old(Now()), Now(), path)
    {
      var i := lvl;
      node := last;
      ghost var was := Now();
      GrownRefl(was, path);
      while i < |path|
        invariant Ok() && Reaches(was, Now(), path, i, node)
      {
        node := CreateNext(path, i, node, was);
        i := i + 1;
      }
      assert path[..|path|] == path;
    }

    /** The node that the path spells, created with the missing end of the path: every path that led
        somewhere leads to the same node, no path appears but the beginnings of this one, and a new node comes
        last below its parent. */
    method GetOrCreate(path: seq<string>) returns (node: nat)
      requires Ok()
      modifies this
      ensures Ok() && Walk(Now(), 0, path) == Some(node)
      ensures Grown(old(Now()), Now(), path) && NewNodes(old(Now()), Now(), path)
      ensures old(Walk(Now(), 0, path)).Some? ==> Now() == old(Now())
    {
      var lvl;
      assert path[..0] == [];
      lvl, node := SearchAhead(path, 0, 0);
      if lvl < |path| {
        MissingEnd(Now(), path, lvl, node);
        node := CreateEnd(path, lvl, node);
      } else {
        GrownRefl(Now(), path);
        assert path[..lvl] == path;
      }
    }
  }

  // n is the last node of the path that there is, or was created, so far.
  ghost predicate Reaches(a: Tree, t: Tree, path: seq<string>, lvl: nat, n: nat) {
    && Grown(a, t, path) && NewNodes(a, t, path) && lvl <= |path| && Walk(t, 0, path[..lvl]) == Some(n)
    && (lvl < |path| ==> Named(t, Kids(t, n), path[lvl]) == None)
  }

  // The node for the next name of the path is added.
  lemma {:induction false} Extended(a: Tree, t: Tree, path: seq<string>, lvl: nat, n: nat, c: nat)
    requires Valid(t) && OnePath(t) && Reaches(a, t, path, lvl, n) && lvl < |path| && c !in t.kids && c !in t.name
    ensures NewBelow(t, n, c, path[lvl]) && Reaches(a, Added(t, n, c, path[lvl]), path, lvl + 1, c)
  {
    WalkExists(t, 0, path[..lvl]);
    GrownStep(a, t, path, lvl, n, c);
    NewNodesStep(a, t, path, lvl, n, c);
    AddedNode(t, path[..lvl], n, c, path[lvl]);
    assert path[..lvl + 1] == path[..lvl] + [path[lvl]];
  }

  // A path that is missing a step leads nowhere.
  lemma {:induction false} MissingEnd(t: Tree, path: seq<string>, lvl: nat, n: nat)
    requires lvl < |path| && Walk(t, 0, path[..lvl]) == Some(n) && Named(t, Kids(t, n), path[lvl]) == None
    ensures Walk(t, 0, path) == None
  {
    WalkParts(t, 0, path[..lvl], path[lvl..]);
    assert path == path[..lvl] + path[lvl..];
  }

  lemma {:induction false} WalkParts(t: Tree, m: nat, p: seq<string>, q: seq<string>)
    ensures Walk(t, m, p + q) == if Walk(t, m, p).Some? then Walk(t, Walk(t, m, p).value, q) else None
    decreases |p|
  {
    if p == [] {
      assert p + q == q;
    } else {
      assert (p + q)[1..] == p[1..] + q;
      var c := Named(t, Kids(t, m), p[0]);
      if c.Some? { WalkParts(t, c.value, p[1..], q); }
    }
  }

  lemma {:induction false} AddedNode(t: Tree, p: seq<string>, n: nat, c: nat, s: string)
    requires NewBelow(t, n, c, s) && Walk(t, 0, p) == Some(n)
    ensures Walk(Added(t, n, c, s), 0, p + [s]) == Some(c) && Kids(Added(t, n, c, s), c) == []
  {
    AddedWalk(t, n, c, s, 0, p);
    WalkSnoc(Added(t, n, c, s), 0, p, s);
    AddedNamed(t, n, c, s, n, s);
  }

  /** Calling again with the same path returns the same node and changes nothing. */
  method Twice(library: Library, path: seq<string>) returns (first: nat, second: nat)
    requires library.Ok()
    modifies library
    ensures library.Ok() && first == second && Grown(old(library.Now()), library.Now(), path)
  {
    first := library.GetOrCreate(path);
    second := library.GetOrCreate(path);
  }
}
