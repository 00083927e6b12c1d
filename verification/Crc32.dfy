/** The checksum behind the hash: a table of 256 words, one for each byte, against the shift register it
    abbreviates.  The polynomial is the reflected one of RFC 1952, section 8; the register starts at 0 and
    is not complemented at the end. */
module Crc32 {
  import opened ShiftRegister

  // What a one that falls out of the register adds back.
  function Feedback(c: bv32): bv32 {
    if c & 1 == 1 then 0xedb88320 else 0
  }

  function Step(c: bv32): bv32 {
    (c >> 1) ^ Feedback(c)
  }

  function Step8(c: bv32): bv32 {
    Step(Step(Step(Step(Step(Step(Step(Step(c))))))))
  }

  function Xor(u: bv32, v: bv32): bv32 { u ^ v }
  function Shift(v: bv32): bv32 { v >> 1 }
  function LowestBit(v: bv32): bv32 { v & 1 }
  function OtherBits(v: bv32): bv32 { v & 0xfffffffe }
  function Shift8(v: bv32): bv32 { v >> 8 }
  function LowestByte(v: bv32): bv32 { v & 0xff }
  function OtherBytes(v: bv32): bv32 { v & 0xffffff00 }

  function Words(): Ops<bv32> {
    Ops(Step, Xor, 0, Shift, LowestBit, OtherBits, 8, Shift8, LowestByte, OtherBytes)
  }

  // ----- the laws of 32-bit words

  lemma LowBit(u: bv32, v: bv32)
    requires v & 1 == 0
    ensures (u ^ v) & 1 == u & 1
  {
  }

  lemma ShiftXor(u: bv32, v: bv32, p: bv32)
    ensures ((u ^ v) >> 1) ^ p == ((u >> 1) ^ p) ^ (v >> 1)
  {
  }

  lemma StepSplit(u: bv32, v: bv32)
    requires v & 1 == 0
    ensures Step(u ^ v) == Step(u) ^ (v >> 1)
  {
    LowBit(u, v);
    assert Feedback(u ^ v) == Feedback(u);
    ShiftXor(u, v, Feedback(u));
  }

  lemma BitSplit(c: bv32, b: bv32)
    ensures c ^ b == (c ^ (b & 1)) ^ (b & 0xfffffffe) && (b & 0xfffffffe) & 1 == 0 && (b & 0xfffffffe) >> 1 == b >> 1
  {
  }

  lemma ByteSplit(c: bv32, b: bv32)
    ensures (c & 0xff) & 0xff == c & 0xff && (c & 0xffffff00) & 0xff == 0 && c == (c & 0xff) ^ (c & 0xffffff00) && c ^ 0 == c
    ensures b & 0xff == b ==> b >> 8 == 0 && ((c ^ b) & 0xffffff00) >> 8 == c >> 8
  {
  }

  lemma Shifts(v: bv32)
    ensures (v >> 1) >> 1 == v >> 2 && (v >> 2) >> 1 == v >> 3 && (v >> 3) >> 1 == v >> 4 && (v >> 4) >> 1 == v >> 5
    ensures (v >> 5) >> 1 == v >> 6 && (v >> 6) >> 1 == v >> 7 && (v >> 7) >> 1 == v >> 8
  {
  }

  lemma {:induction false} ShiftedByte(v: bv32)
    ensures Shifted(Words(), v, Words().width) == v >> 8
    ensures v & 0xff == 0 ==> LowClear(Words(), v, Words().width)
  {
    Shifts(v);
    LowBits(v);
    ShiftedEight(Words(), v, v >> 1, v >> 2, v >> 3, v >> 4, v >> 5, v >> 6, v >> 7, v >> 8);
  }

  lemma LowBits(v: bv32)
    ensures v & 0xff == 0 ==>
      && v & 1 == 0 && (v >> 1) & 1 == 0 && (v >> 2) & 1 == 0 && (v >> 3) & 1 == 0
      && (v >> 4) & 1 == 0 && (v >> 5) & 1 == 0 && (v >> 6) & 1 == 0 && (v >> 7) & 1 == 0
  {
  }

  lemma StepLawHolds(u: bv32, v: bv32)
    ensures StepLaw(Words(), u, v)
  {
    if v & 1 == 0 { StepSplit(u, v); }
    StepApplied(u ^ v, u, v >> 1, v);
  }

  // The operations of the record on words a, u and s, where a is u and v together.
  lemma StepApplied(a: bv32, u: bv32, s: bv32, v: bv32)
    requires a == u ^ v && s == v >> 1 && (v & 1 == 0 ==> Step(a) == Step(u) ^ s)
    ensures StepLaw(Words(), u, v)
  {
    var k := Words();
    assert k.add(u, v) == a && k.shift(v) == s && k.bit(v) == v & 1;
    assert k.step(a) == Step(a) && k.step(u) == Step(u);
  }

  lemma BitLawHolds(c: bv32, b: bv32)
    ensures BitLaw(Words(), c, b)
  {
    BitSplit(c, b);
  }

  lemma SplitLawHolds(c: bv32)
    ensures SplitLaw(Words(), c)
  {
    ByteSplit(c, 0);
  }

  lemma ClearLawHolds(c: bv32)
    ensures ClearLaw(Words(), c)
  {
    ByteSplit(c, 0);
    ShiftedByte(c & 0xffffff00);
  }

  lemma ByteLawHolds(c: bv32, b: bv32)
    ensures ByteLaw(Words(), c, b)
  {
    ByteSplit(c, b);
    ByteApplied(c, b, (c ^ b) & 0xffffff00);
  }

  lemma ByteApplied(c: bv32, b: bv32, h: bv32)
    requires h == (c ^ b) & 0xffffff00 && (b & 0xff == b ==> b >> 8 == 0 && h >> 8 == c >> 8)
    ensures ByteLaw(Words(), c, b)
  {
    var k := Words();
    ShiftedByte(b);
    ShiftedByte(h);
    assert k.bytes(k.add(c, b)) == h && k.byte(b) == b & 0xff && k.shiftByte(c) == c >> 8;
  }

  lemma WordsLaws()
    ensures Laws(Words())
  {
    var k := Words();
    forall u: bv32, v: bv32 ensures StepLaw(k, u, v) { StepLawHolds(u, v); }
    forall c: bv32, b: bv32 ensures BitLaw(k, c, b) { BitLawHolds(c, b); }
    forall c: bv32 ensures SplitLaw(k, c) { SplitLawHolds(c); }
    forall c: bv32 ensures ClearLaw(k, c) { ClearLawHolds(c); }
    forall c: bv32, b: bv32 ensures ByteLaw(k, c, b) { ByteLawHolds(c, b); }
  }

  // ----- the table

  function Table(b: bv32): bv32 {
    if b < 0x10 then Table0(b)
    else if b < 0x20 then Table1(b)
    else if b < 0x30 then Table2(b)
    else if b < 0x40 then Table3(b)
    else if b < 0x50 then Table4(b)
    else if b < 0x60 then Table5(b)
    else if b < 0x70 then Table6(b)
    else if b < 0x80 then Table7(b)
    else if b < 0x90 then Table8(b)
    else if b < 0xA0 then Table9(b)
    else if b < 0xB0 then TableA(b)
    else if b < 0xC0 then TableB(b)
    else if b < 0xD0 then TableC(b)
    else if b < 0xE0 then TableD(b)
    else if b < 0xF0 then TableE(b)
    else TableF(b)
  }

  function Table0(b: bv32): bv32 {
    match b
    case 0x00 => 0x00000000 case 0x01 => 0x77073096 case 0x02 => 0xee0e612c case 0x03 => 0x990951ba
    case 0x04 => 0x076dc419 case 0x05 => 0x706af48f case 0x06 => 0xe963a535 case 0x07 => 0x9e6495a3
    case 0x08 => 0x0edb8832 case 0x09 => 0x79dcb8a4 case 0x0A => 0xe0d5e91e case 0x0B => 0x97d2d988
    case 0x0C => 0x09b64c2b case 0x0D => 0x7eb17cbd case 0x0E => 0xe7b82d07 case 0x0F => 0x90bf1d91
    case _ => 0
  }

  function Table1(b: bv32): bv32 {
    match b
    case 0x10 => 0x1db71064 case 0x11 => 0x6ab020f2 case 0x12 => 0xf3b97148 case 0x13 => 0x84be41de
    case 0x14 => 0x1adad47d case 0x15 => 0x6ddde4eb case 0x16 => 0xf4d4b551 case 0x17 => 0x83d385c7
    case 0x18 => 0x136c9856 case 0x19 => 0x646ba8c0 case 0x1A => 0xfd62f97a case 0x1B => 0x8a65c9ec
    case 0x1C => 0x14015c4f case 0x1D => 0x63066cd9 case 0x1E => 0xfa0f3d63 case 0x1F => 0x8d080df5
    case _ => 0
  }

  function Table2(b: bv32): bv32 {
    match b
    case 0x20 => 0x3b6e20c8 case 0x21 => 0x4c69105e case 0x22 => 0xd56041e4 case 0x23 => 0xa2677172
    case 0x24 => 0x3c03e4d1 case 0x25 => 0x4b04d447 case 0x26 => 0xd20d85fd case 0x27 => 0xa50ab56b
    case 0x28 => 0x35b5a8fa case 0x29 => 0x42b2986c case 0x2A => 0xdbbbc9d6 case 0x2B => 0xacbcf940
    case 0x2C => 0x32d86ce3 case 0x2D => 0x45df5c75 case 0x2E => 0xdcd60dcf case 0x2F => 0xabd13d59
    case _ => 0
  }

  function Table3(b: bv32): bv32 {
    match b
    case 0x30 => 0x26d930ac case 0x31 => 0x51de003a case 0x32 => 0xc8d75180 case 0x33 => 0xbfd06116
    case 0x34 => 0x21b4f4b5 case 0x35 => 0x56b3c423 case 0x36 => 0xcfba9599 case 0x37 => 0xb8bda50f
    case 0x38 => 0x2802b89e case 0x39 => 0x5f058808 case 0x3A => 0xc60cd9b2 case 0x3B => 0xb10be924
    case 0x3C => 0x2f6f7c87 case 0x3D => 0x58684c11 case 0x3E => 0xc1611dab case 0x3F => 0xb6662d3d
    case _ => 0
  }

  function Table4(b: bv32): bv32 {
    match b
    case 0x40 => 0x76dc4190 case 0x41 => 0x01db7106 case 0x42 => 0x98d220bc case 0x43 => 0xefd5102a
    case 0x44 => 0x71b18589 case 0x45 => 0x06b6b51f case 0x46 => 0x9fbfe4a5 case 0x47 => 0xe8b8d433
    case 0x48 => 0x7807c9a2 case 0x49 => 0x0f00f934 case 0x4A => 0x9609a88e case 0x4B => 0xe10e9818
    case 0x4C => 0x7f6a0dbb case 0x4D => 0x086d3d2d case 0x4E => 0x91646c97 case 0x4F => 0xe6635c01
    case _ => 0
  }

  function Table5(b: bv32): bv32 {
    match b
    case 0x50 => 0x6b6b51f4 case 0x51 => 0x1c6c6162 case 0x52 => 0x856530d8 case 0x53 => 0xf262004e
    case 0x54 => 0x6c0695ed case 0x55 => 0x1b01a57b case 0x56 => 0x8208f4c1 case 0x57 => 0xf50fc457
    case 0x58 => 0x65b0d9c6 case 0x59 => 0x12b7e950 case 0x5A => 0x8bbeb8ea case 0x5B => 0xfcb9887c
    case 0x5C => 0x62dd1ddf case 0x5D => 0x15da2d49 case 0x5E => 0x8cd37cf3 case 0x5F => 0xfbd44c65
    case _ => 0
  }

  function Table6(b: bv32): bv32 {
    match b
    case 0x60 => 0x4db26158 case 0x61 => 0x3ab551ce case 0x62 => 0xa3bc0074 case 0x63 => 0xd4bb30e2
    case 0x64 => 0x4adfa541 case 0x65 => 0x3dd895d7 case 0x66 => 0xa4d1c46d case 0x67 => 0xd3d6f4fb
    case 0x68 => 0x4369e96a case 0x69 => 0x346ed9fc case 0x6A => 0xad678846 case 0x6B => 0xda60b8d0
    case 0x6C => 0x44042d73 case 0x6D => 0x33031de5 case 0x6E => 0xaa0a4c5f case 0x6F => 0xdd0d7cc9
    case _ => 0
  }

  function Table7(b: bv32): bv32 {
    match b
    case 0x70 => 0x5005713c case 0x71 => 0x270241aa case 0x72 => 0xbe0b1010 case 0x73 => 0xc90c2086
    case 0x74 => 0x5768b525 case 0x75 => 0x206f85b3 case 0x76 => 0xb966d409 case 0x77 => 0xce61e49f
    case 0x78 => 0x5edef90e case 0x79 => 0x29d9c998 case 0x7A => 0xb0d09822 case 0x7B => 0xc7d7a8b4
    case 0x7C => 0x59b33d17 case 0x7D => 0x2eb40d81 case 0x7E => 0xb7bd5c3b case 0x7F => 0xc0ba6cad
    case _ => 0
  }

  function Table8(b: bv32): bv32 {
    match b
    case 0x80 => 0xedb88320 case 0x81 => 0x9abfb3b6 case 0x82 => 0x03b6e20c case 0x83 => 0x74b1d29a
    case 0x84 => 0xead54739 case 0x85 => 0x9dd277af case 0x86 => 0x04db2615 case 0x87 => 0x73dc1683
    case 0x88 => 0xe3630b12 case 0x89 => 0x94643b84 case 0x8A => 0x0d6d6a3e case 0x8B => 0x7a6a5aa8
    case 0x8C => 0xe40ecf0b case 0x8D => 0x9309ff9d case 0x8E => 0x0a00ae27 case 0x8F => 0x7d079eb1
    case _ => 0
  }

  function Table9(b: bv32): bv32 {
    match b
    case 0x90 => 0xf00f9344 case 0x91 => 0x8708a3d2 case 0x92 => 0x1e01f268 case 0x93 => 0x6906c2fe
    case 0x94 => 0xf762575d case 0x95 => 0x806567cb case 0x96 => 0x196c3671 case 0x97 => 0x6e6b06e7
    case 0x98 => 0xfed41b76 case 0x99 => 0x89d32be0 case 0x9A => 0x10da7a5a case 0x9B => 0x67dd4acc
    case 0x9C => 0xf9b9df6f case 0x9D => 0x8ebeeff9 case 0x9E => 0x17b7be43 case 0x9F => 0x60b08ed5
    case _ => 0
  }

  function TableA(b: bv32): bv32 {
    match b
    case 0xA0 => 0xd6d6a3e8 case 0xA1 => 0xa1d1937e case 0xA2 => 0x38d8c2c4 case 0xA3 => 0x4fdff252
    case 0xA4 => 0xd1bb67f1 case 0xA5 => 0xa6bc5767 case 0xA6 => 0x3fb506dd case 0xA7 => 0x48b2364b
    case 0xA8 => 0xd80d2bda case 0xA9 => 0xaf0a1b4c case 0xAA => 0x36034af6 case 0xAB => 0x41047a60
    case 0xAC => 0xdf60efc3 case 0xAD => 0xa867df55 case 0xAE => 0x316e8eef case 0xAF => 0x4669be79
    case _ => 0
  }

  function TableB(b: bv32): bv32 {
    match b
    case 0xB0 => 0xcb61b38c case 0xB1 => 0xbc66831a case 0xB2 => 0x256fd2a0 case 0xB3 => 0x5268e236
    case 0xB4 => 0xcc0c7795 case 0xB5 => 0xbb0b4703 case 0xB6 => 0x220216b9 case 0xB7 => 0x5505262f
    case 0xB8 => 0xc5ba3bbe case 0xB9 => 0xb2bd0b28 case 0xBA => 0x2bb45a92 case 0xBB => 0x5cb36a04
    case 0xBC => 0xc2d7ffa7 case 0xBD => 0xb5d0cf31 case 0xBE => 0x2cd99e8b case 0xBF => 0x5bdeae1d
    case _ => 0
  }

  function TableC(b: bv32): bv32 {
    match b
    case 0xC0 => 0x9b64c2b0 case 0xC1 => 0xec63f226 case 0xC2 => 0x756aa39c case 0xC3 => 0x026d930a
    case 0xC4 => 0x9c0906a9 case 0xC5 => 0xeb0e363f case 0xC6 => 0x72076785 case 0xC7 => 0x05005713
    case 0xC8 => 0x95bf4a82 case 0xC9 => 0xe2b87a14 case 0xCA => 0x7bb12bae case 0xCB => 0x0cb61b38
    case 0xCC => 0x92d28e9b case 0xCD => 0xe5d5be0d case 0xCE => 0x7cdcefb7 case 0xCF => 0x0bdbdf21
    case _ => 0
  }

  function TableD(b: bv32): bv32 {
    match b
    case 0xD0 => 0x86d3d2d4 case 0xD1 => 0xf1d4e242 case 0xD2 => 0x68ddb3f8 case 0xD3 => 0x1fda836e
    case 0xD4 => 0x81be16cd case 0xD5 => 0xf6b9265b case 0xD6 => 0x6fb077e1 case 0xD7 => 0x18b74777
    case 0xD8 => 0x88085ae6 case 0xD9 => 0xff0f6a70 case 0xDA => 0x66063bca case 0xDB => 0x11010b5c
    case 0xDC => 0x8f659eff case 0xDD => 0xf862ae69 case 0xDE => 0x616bffd3 case 0xDF => 0x166ccf45
    case _ => 0
  }

  function TableE(b: bv32): bv32 {
    match b
    case 0xE0 => 0xa00ae278 case 0xE1 => 0xd70dd2ee case 0xE2 => 0x4e048354 case 0xE3 => 0x3903b3c2
    case 0xE4 => 0xa7672661 case 0xE5 => 0xd06016f7 case 0xE6 => 0x4969474d case 0xE7 => 0x3e6e77db
    case 0xE8 => 0xaed16a4a case 0xE9 => 0xd9d65adc case 0xEA => 0x40df0b66 case 0xEB => 0x37d83bf0
    case 0xEC => 0xa9bcae53 case 0xED => 0xdebb9ec5 case 0xEE => 0x47b2cf7f case 0xEF => 0x30b5ffe9
    case _ => 0
  }

  function TableF(b: bv32): bv32 {
    match b
    case 0xF0 => 0xbdbdf21c case 0xF1 => 0xcabac28a case 0xF2 => 0x53b39330 case 0xF3 => 0x24b4a3a6
    case 0xF4 => 0xbad03605 case 0xF5 => 0xcdd70693 case 0xF6 => 0x54de5729 case 0xF7 => 0x23d967bf
    case 0xF8 => 0xb3667a2e case 0xF9 => 0xc4614ab8 case 0xFA => 0x5d681b02 case 0xFB => 0x2a6f2b94
    case 0xFC => 0xb40bbe37 case 0xFD => 0xc30c8ea1 case 0xFE => 0x5a05df1b case 0xFF => 0x2d02ef8d
    case _ => 0
  }

  lemma Row0(b: bv32)
    requires 0x00 <= b <= 0x0F
    ensures Table0(b) == Step8(b)
  {
    if b < 0x04 {} else if b < 0x08 {} else if b < 0x0C {} else {}
  }

  lemma Row1(b: bv32)
    requires 0x10 <= b <= 0x1F
    ensures Table1(b) == Step8(b)
  {
    if b < 0x14 {} else if b < 0x18 {} else if b < 0x1C {} else {}
  }

  lemma Row2(b: bv32)
    requires 0x20 <= b <= 0x2F
    ensures Table2(b) == Step8(b)
  {
    if b < 0x24 {} else if b < 0x28 {} else if b < 0x2C {} else {}
  }

  lemma Row3(b: bv32)
    requires 0x30 <= b <= 0x3F
    ensures Table3(b) == Step8(b)
  {
    if b < 0x34 {} else if b < 0x38 {} else if b < 0x3C {} else {}
  }

  lemma Row4(b: bv32)
    requires 0x40 <= b <= 0x4F
    ensures Table4(b) == Step8(b)
  {
    if b < 0x44 {} else if b < 0x48 {} else if b < 0x4C {} else {}
  }

  lemma Row5(b: bv32)
    requires 0x50 <= b <= 0x5F
    ensures Table5(b) == Step8(b)
  {
    if b < 0x54 {} else if b < 0x58 {} else if b < 0x5C {} else {}
  }

  lemma Row6(b: bv32)
    requires 0x60 <= b <= 0x6F
    ensures Table6(b) == Step8(b)
  {
    if b < 0x64 {} else if b < 0x68 {} else if b < 0x6C {} else {}
  }

  lemma Row7(b: bv32)
    requires 0x70 <= b <= 0x7F
    ensures Table7(b) == Step8(b)
  {
    if b < 0x74 {} else if b < 0x78 {} else if b < 0x7C {} else {}
  }

  lemma Row8(b: bv32)
    requires 0x80 <= b <= 0x8F
    ensures Table8(b) == Step8(b)
  {
    if b < 0x84 {} else if b < 0x88 {} else if b < 0x8C {} else {}
  }

  lemma Row9(b: bv32)
    requires 0x90 <= b <= 0x9F
    ensures Table9(b) == Step8(b)
  {
    if b < 0x94 {} else if b < 0x98 {} else if b < 0x9C {} else {}
  }

  lemma RowA(b: bv32)
    requires 0xA0 <= b <= 0xAF
    ensures TableA(b) == Step8(b)
  {
    if b < 0xA4 {} else if b < 0xA8 {} else if b < 0xAC {} else {}
  }

  lemma RowB(b: bv32)
    requires 0xB0 <= b <= 0xBF
    ensures TableB(b) == Step8(b)
  {
    if b < 0xB4 {} else if b < 0xB8 {} else if b < 0xBC {} else {}
  }

  lemma RowC(b: bv32)
    requires 0xC0 <= b <= 0xCF
    ensures TableC(b) == Step8(b)
  {
    if b < 0xC4 {} else if b < 0xC8 {} else if b < 0xCC {} else {}
  }

  lemma RowD(b: bv32)
    requires 0xD0 <= b <= 0xDF
    ensures TableD(b) == Step8(b)
  {
    if b < 0xD4 {} else if b < 0xD8 {} else if b < 0xDC {} else {}
  }

  lemma RowE(b: bv32)
    requires 0xE0 <= b <= 0xEF
    ensures TableE(b) == Step8(b)
  {
    if b < 0xE4 {} else if b < 0xE8 {} else if b < 0xEC {} else {}
  }

  lemma RowF(b: bv32)
    requires 0xF0 <= b <= 0xFF
    ensures TableF(b) == Step8(b)
  {
    if b < 0xF4 {} else if b < 0xF8 {} else if b < 0xFC {} else {}
  }

  /** Each of the 256 words is what eight steps make of its byte. */
  lemma TableIs(b: bv32)
    requires b < 256
    ensures Table(b) == Step8(b)
  {
    if b < 0x10 { Row0(b); }
    else if b < 0x20 { Row1(b); }
    else if b < 0x30 { Row2(b); }
    else if b < 0x40 { Row3(b); }
    else if b < 0x50 { Row4(b); }
    else if b < 0x60 { Row5(b); }
    else if b < 0x70 { Row6(b); }
    else if b < 0x80 { Row7(b); }
    else if b < 0x90 { Row8(b); }
    else if b < 0xA0 { Row9(b); }
    else if b < 0xB0 { RowA(b); }
    else if b < 0xC0 { RowB(b); }
    else if b < 0xD0 { RowC(b); }
    else if b < 0xE0 { RowD(b); }
    else if b < 0xF0 { RowE(b); }
    else { RowF(b); }
  }

  lemma WordsTable()
    ensures TableOk(Words(), Table)
  {
    forall b: bv32 ensures EntryOk(Words(), Table, b) {
      EntryHolds(b);
    }
  }

  lemma EntryHolds(b: bv32)
    ensures EntryOk(Words(), Table, b)
  {
    if b & 0xff == b {
      Below(b);
      TableIs(b);
      StepsEight(Words(), b);
    }
  }

  lemma Below(b: bv32)
    ensures b & 0xff == b <==> b < 256
  {
  }

  /** For every string of bytes the checksum is the register fed bit by bit. */
  method Crc32(s: seq<bv32>) returns (crc: bv32)
    requires forall i :: 0 <= i < |s| ==> s[i] < 256
    ensures crc == Register(Words(), s)
  {
    WordsLaws();
    WordsTable();
    forall i | 0 <= i < |s| ensures IsByte(Words(), s[i]) {
      Below(s[i]);
    }
    crc := TableDriven(Words(), Table, s);
  }
}
