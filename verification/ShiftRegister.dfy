/** A shift register fed bit by bit, and the table-driven loop that takes a byte at a time.  The word and
    its operations are parameters, bound only by the laws below. */
module ShiftRegister {
  // One step of the register; exclusive or; the shift by one, the lowest bit and the others; the number
  // of bits in a byte, the shift by that many, the lowest byte and the others.
  datatype Ops<!W(==)> = Ops(
    step: W -> W, add: (W, W) -> W, zero: W,
    shift: W -> W, bit: W -> W, bits: W -> W,
    width: nat, shiftByte: W -> W, byte: W -> W, bytes: W -> W)

  function Steps<W>(k: Ops<W>, c: W, n: nat): W
    decreases n
  {
    if n == 0 then c else Steps(k, k.step(c), n - 1)
  }

  // Feeds the n lowest bits of b into the register, least significant first.
  function Feed<W>(k: Ops<W>, c: W, b: W, n: nat): W
    decreases n
  {
    if n == 0 then c else Feed(k, k.step(k.add(c, k.bit(b))), k.shift(b), n - 1)
  }

  // A whole message, bit by bit, into a register that starts at zero.
  function Register<W>(k: Ops<W>, s: seq<W>): W
    decreases |s|
  {
    if s == [] then k.zero else Feed(k, Register(k, s[..|s| - 1]), s[|s| - 1], k.width)
  }

  function Shifted<W>(k: Ops<W>, v: W, n: nat): W
    decreases n
  {
    if n == 0 then v else Shifted(k, k.shift(v), n - 1)
  }

  predicate LowClear<W(==)>(k: Ops<W>, v: W, n: nat)
    decreases n
  {
    n == 0 || (k.bit(v) == k.zero && LowClear(k, k.shift(v), n - 1))
  }

  // ----- the laws

  // A part without its lowest bit only moves.
  predicate StepLaw<W(==)>(k: Ops<W>, u: W, v: W) {
    k.bit(v) == k.zero ==> k.step(k.add(u, v)) == k.add(k.step(u), k.shift(v))
  }

  predicate BitLaw<W(==)>(k: Ops<W>, c: W, b: W) {
    && k.add(c, b) == k.add(k.add(c, k.bit(b)), k.bits(b))
    && k.bit(k.bits(b)) == k.zero && k.shift(k.bits(b)) == k.shift(b)
  }

  predicate IsByte<W(==)>(k: Ops<W>, b: W) {
    k.byte(b) == b
  }

  predicate SplitLaw<W(==)>(k: Ops<W>, c: W) {
    IsByte(k, k.byte(c)) && c == k.add(k.byte(c), k.bytes(c)) && k.add(c, k.zero) == c
  }

  predicate ClearLaw<W(==)>(k: Ops<W>, c: W) {
    LowClear(k, k.bytes(c), k.width)
  }

  predicate ByteLaw<W(==)>(k: Ops<W>, c: W, b: W) {
    IsByte(k, b) ==> Shifted(k, b, k.width) == k.zero && Shifted(k, k.bytes(k.add(c, b)), k.width) == k.shiftByte(c)
  }

  ghost predicate Laws<W(!new)>(k: Ops<W>) {
    && (forall u, v :: StepLaw(k, u, v)) && (forall c, b :: BitLaw(k, c, b))
    && (forall c :: SplitLaw(k, c)) && (forall c :: ClearLaw(k, c)) && (forall c, b :: ByteLaw(k, c, b))
  }

  ghost predicate EntryOk<W>(k: Ops<W>, table: W -> W, b: W) {
    IsByte(k, b) ==> table(b) == Steps(k, b, k.width)
  }

  // The table holds what eight steps make of each byte.
  ghost predicate TableOk<W(!new)>(k: Ops<W>, table: W -> W) {
    forall b :: EntryOk(k, table, b)
  }

  // ----- several steps at once

  lemma {:induction false} StepsSplit<W(!new)>(k: Ops<W>, u: W, v: W, n: nat)
    requires Laws(k) && LowClear(k, v, n)
    ensures Steps(k, k.add(u, v), n) == k.add(Steps(k, u, n), Shifted(k, v, n))
    decreases n
  {
    if n > 0 {
      assert StepLaw(k, u, v);
      StepsSplit(k, k.step(u), k.shift(v), n - 1);
    }
  }

  // Feeding bit by bit is adding all bits first and stepping afterwards.
  lemma {:induction false} FeedIsSteps<W(!new)>(k: Ops<W>, c: W, b: W, n: nat)
    requires Laws(k)
    ensures Steps(k, k.add(c, b), n) == k.add(Feed(k, c, b, n), Shifted(k, b, n))
    decreases n
  {
    if n > 0 {
      assert BitLaw(k, c, b);
      assert StepLaw(k, k.add(c, k.bit(b)), k.bits(b));
      FeedIsSteps(k, k.step(k.add(c, k.bit(b))), k.shift(b), n - 1);
    }
  }

  lemma {:induction false} ByteStep<W(!new)>(k: Ops<W>, table: W -> W, c: W, b: W)
    requires Laws(k) && TableOk(k, table) && IsByte(k, b)
    ensures k.add(table(k.byte(k.add(c, b))), k.shiftByte(c)) == Feed(k, c, b, k.width)
  {
    var w, fed := k.add(c, b), Feed(k, c, b, k.width);
    FeedIsSteps(k, c, b, k.width);
    assert ByteLaw(k, c, b) && SplitLaw(k, w) && ClearLaw(k, w) && SplitLaw(k, fed);
    StepsSplit(k, k.byte(w), k.bytes(w), k.width);
    assert EntryOk(k, table, k.byte(w));
  }

  /** The table-driven loop leaves in the register what the bits one by one would. */
  method TableDriven<W(!new)>(k: Ops<W>, table: W -> W, s: seq<W>) returns (crc: W)
    requires Laws(k) && TableOk(k, table) && forall i :: 0 <= i < |s| ==> IsByte(k, s[i])
    ensures crc == Register(k, s)
  {
    crc := k.zero;
    for i := 0 to |s|
      invariant crc == Register(k, s[..i])
    {
      assert s[..i + 1][..i] == s[..i];
      ByteStep(k, table, crc, s[i]);
      crc := k.add(table(k.byte(k.add(crc, s[i]))), k.shiftByte(crc));
    }
    assert s[..|s|] == s;
  }

  // ----- eight steps one by one

  lemma {:induction false} ShiftedEight<W>(k: Ops<W>, v0: W, v1: W, v2: W, v3: W, v4: W, v5: W, v6: W, v7: W, v8: W)
    requires k.width == 8
    requires k.shift(v0) == v1 && k.shift(v1) == v2 && k.shift(v2) == v3 && k.shift(v3) == v4
    requires k.shift(v4) == v5 && k.shift(v5) == v6 && k.shift(v6) == v7 && k.shift(v7) == v8
    ensures Shifted(k, v0, k.width) == v8
    ensures (k.bit(v0) == k.zero && k.bit(v1) == k.zero && k.bit(v2) == k.zero && k.bit(v3) == k.zero
             && k.bit(v4) == k.zero && k.bit(v5) == k.zero && k.bit(v6) == k.zero && k.bit(v7) == k.zero)
            ==> LowClear(k, v0, k.width)
  {
    assert Shifted(k, v0, 8) == Shifted(k, v4, 4) == v8;
    assert k.bit(v4) == k.zero && k.bit(v5) == k.zero && k.bit(v6) == k.zero && k.bit(v7) == k.zero ==> LowClear(k, v4, 4);
  }

  lemma {:induction false} StepsEight<W>(k: Ops<W>, c: W)
    requires k.width == 8
    ensures Steps(k, c, k.width) == k.step(k.step(k.step(k.step(k.step(k.step(k.step(k.step(c))))))))
  {
    assert Steps(k, c, 8) == Steps(k, k.step(k.step(k.step(k.step(c)))), 4);
  }
}
