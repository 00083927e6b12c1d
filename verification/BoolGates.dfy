/** The logic gates: each reads the values of its wired ports and drives a library constant, or nothing. */
module BoolGates {
  import opened Circuit
  import opened Options

  function Nand(xs: seq<bool>): Option<bool> {
    if xs == [] then None else Some(false in xs)
  }

  function Nor(xs: seq<bool>): Option<bool> {
    if xs == [] then None else Some(true !in xs)
  }

  function Or(xs: seq<bool>): Option<bool> {
    if xs == [] then None else Some(true in xs)
  }

  function Not(xs: seq<bool>): Option<bool> {
    if xs == [] then None else Some(!xs[0])
  }

  predicate Alternates(xs: seq<bool>) {
    forall i :: 0 < i < |xs| ==> xs[i] != xs[i - 1]
  }

  function Xor(xs: seq<bool>): Option<bool> {
    if |xs| <= 1 then None else Some(Alternates(xs))
  }

  method LogicNand(values: seq<bool>) returns (r: Option<bool>)
    ensures r == Nand(values)
    ensures r == None <==> |values| == 0
    ensures r.Some? ==> (r.value <==> exists i :: 0 <= i < |values| && !values[i])
  {
    if |values| == 0 { return None; }
    var i := 0;
    while i < |values|
      invariant 0 <= i <= |values| && forall k :: 0 <= k < i ==> values[k]
    {
      if !values[i] { return Some(true); }
      i := i + 1;
    }
    return Some(false);
  }

  // The gate called "and" has this loop too: it is true when no input is.
  method LogicNor(values: seq<bool>) returns (r: Option<bool>)
    ensures r == Nor(values)
    ensures r == None <==> |values| == 0
    ensures r.Some? ==> (r.value <==> forall i :: 0 <= i < |values| ==> !values[i])
  {
    if |values| == 0 { return None; }
    var i := 0;
    while i < |values|
      invariant 0 <= i <= |values| && forall k :: 0 <= k < i ==> !values[k]
    {
      if values[i] { return Some(false); }
      i := i + 1;
    }
    return Some(true);
  }

  method LogicOr(values: seq<bool>) returns (r: Option<bool>)
    ensures r == Or(values)
    ensures r == None <==> |values| == 0
    ensures r.Some? ==> (r.value <==> exists i :: 0 <= i < |values| && values[i])
  {
    if |values| == 0 { return None; }
    var i := 0;
    while i < |values|
      invariant 0 <= i <= |values| && forall k :: 0 <= k < i ==> !values[k]
    {
      if values[i] { return Some(true); }
      i := i + 1;
    }
    return Some(false);
  }

  method LogicXor(values: seq<bool>) returns (r: Option<bool>)
    ensures r == Xor(values)
    ensures r == None <==> |values| <= 1
    ensures r.Some? ==> (r.value <==> forall i :: 0 < i < |values| ==> values[i] != values[i - 1])
  {
    if |values| <= 1 { return None; }
    var i := 1;
    while i < |values|
      invariant 1 <= i <= |values| && forall k :: 0 < k < i ==> values[k] != values[k - 1]
    {
      if values[i] == values[i - 1] { return Some(false); }
      i := i + 1;
    }
    return Some(true);
  }

  predicate All(xs: seq<bool>) {
    forall i :: 0 <= i < |xs| ==> xs[i]
  }

  /** "and" as written is the conjunction exactly when the inputs are not all equal. */
  lemma AndIsConjunctionIff(xs: seq<bool>)
    requires xs != []
    ensures Nor(xs) == Some(All(xs)) <==> true in xs && false in xs
  {
    if false !in xs { assert xs[0] in xs; }
    if true !in xs { assert xs[0] in xs; }
  }

  function Outs(r: Option<bool>): seq<Output<bool>> {
    match r
    case None => [Nothing]
    case Some(b) => [Constant(b)]
  }
}
