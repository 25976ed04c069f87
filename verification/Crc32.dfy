/** CRC-32 as defined in section 8 of RFC 1952: reflected polynomial EDB88320, all ones in, all ones out. */
module Crc32 {
  import opened Register

  const POLY: bv32 := 0xEDB8_8320
  const ONES: bv32 := 0xFFFF_FFFF

  function Xor(a: bv32, b: bv32): bv32 { a ^ b }

  function Shift(c: bv32): bv32 { c >> 1 }

  predicate Low(c: bv32) { c & 1 == 1 }

  function Inject(b: byte): bv32 { b as bv32 }

  function Up(w: bv32): bv32 { w << 8 }

  predicate Fits(w: bv32, k: nat) {
    match k
    case 0 => w == 0
    case 1 => w <= 0xFF
    case 2 => w <= 0xFFFF
    case 3 => w <= 0xFF_FFFF
    case _ => true
  }

  const OPS: Ops<bv32> := Ops(Xor, Shift, Low, POLY, 0, Inject, Up, Fits)

  /** The checksum of a payload. */
  function Crc(s: seq<byte>): bv32 {
    Feed(OPS, ONES, s) ^ ONES
  }

  lemma XorCancels(c: bv32, x: bv32, y: bv32)
    ensures c ^ 0 == c
    ensures c ^ x == c ^ y ==> x == y
    ensures x ^ c == y ^ c ==> x == y
  {}

  lemma AddsHolds()
    ensures Adds(OPS)
  {
    forall c ensures Xor(c, 0) == c {
      XorCancels(c, 0, 0);
    }
    forall c, v, w | Xor(c, v) == Xor(c, w) ensures v == w {
      XorCancels(c, v, w);
    }
    forall c, v, w | Xor(v, c) == Xor(w, c) ensures v == w {
      XorCancels(c, v, w);
    }
  }

  // The operations as plain bit-vector terms: proofs below quote these instead of unfolding them.

  lemma XorIs(a: bv32, b: bv32)
    ensures Xor(a, b) == a ^ b
  {}

  lemma ShiftIs(a: bv32)
    ensures Shift(a) == a >> 1
  {}

  lemma LowIs(a: bv32)
    ensures Low(a) <==> a & 1 == 1
    ensures !Low(a) ==> a & 1 == 0
  {}

  lemma XorAssoc(a: bv32, b: bv32, c: bv32)
    ensures Xor(a, Xor(b, c)) == Xor(Xor(a, b), c)
  {
    XorIs(b, c);
    XorIs(a, b ^ c);
    XorIs(a ^ b, c);
    XorIs(a, b);
  }

  lemma SwapIs(a: bv32, b: bv32, c: bv32)
    ensures (a ^ b) ^ c == (a ^ c) ^ b
  {}

  lemma XorSwap(a: bv32, b: bv32, c: bv32)
    ensures Xor(Xor(a, b), c) == Xor(Xor(a, c), b)
  {
    XorIs(a, b);
    XorIs(a ^ b, c);
    XorIs(a, c);
    XorIs(a ^ c, b);
    SwapIs(a, b, c);
  }

  lemma RegroupsHolds()
    ensures Regroups(OPS)
  {
    forall a, b, c ensures Xor(a, Xor(b, c)) == Xor(Xor(a, b), c) {
      XorAssoc(a, b, c);
    }
    forall a, b, c ensures Xor(Xor(a, b), c) == Xor(Xor(a, c), b) {
      XorSwap(a, b, c);
    }
  }

  lemma ShiftXor(a: bv32, b: bv32)
    ensures Shift(Xor(a, b)) == Xor(Shift(a), Shift(b))
  {
    XorIs(a, b);
    ShiftIs(a ^ b);
    ShiftIs(a);
    ShiftIs(b);
    XorIs(a >> 1, b >> 1);
  }

  lemma LowBitXor(a: bv32, b: bv32)
    requires b & 1 == 0
    ensures (a ^ b) & 1 == a & 1
  {}

  lemma LowXor(a: bv32, b: bv32)
    requires !Low(b)
    ensures Low(Xor(a, b)) <==> Low(a)
  {
    LowIs(b);
    XorIs(a, b);
    LowIs(a ^ b);
    LowIs(a);
    LowBitXor(a, b);
  }

  lemma LinearHolds()
    ensures Linear(OPS)
  {
    ShiftAdds();
    LowAdds();
  }

  lemma ShiftAdds()
    ensures forall a, b :: OPS.shift(OPS.xor(a, b)) == OPS.xor(OPS.shift(a), OPS.shift(b))
  {
    forall a, b ensures OPS.shift(OPS.xor(a, b)) == OPS.xor(OPS.shift(a), OPS.shift(b)) {
      ShiftXor(a, b);
    }
  }

  lemma LowAdds()
    ensures forall a, b :: !OPS.low(b) ==> (OPS.low(OPS.xor(a, b)) <==> OPS.low(a))
  {
    forall a, b | !OPS.low(b) ensures OPS.low(OPS.xor(a, b)) <==> OPS.low(a) {
      LowXor(a, b);
    }
  }

  /** A shift leaves the top bit clear and the polynomial has it set, so the two kinds of step differ. */
  lemma KindsDiffer(p: bv32, a: bv32, b: bv32)
    requires p == (a >> 1) ^ POLY
    ensures p != b >> 1
  {}

  lemma OddSame(p: bv32, a: bv32, b: bv32)
    requires p == (a >> 1) ^ POLY && p == (b >> 1) ^ POLY
    requires a & 1 == 1 && b & 1 == 1
    ensures a == b
  {}

  lemma EvenSame(p: bv32, a: bv32, b: bv32)
    requires p == a >> 1 && p == b >> 1
    requires a & 1 == 0 && b & 1 == 0
    ensures a == b
  {}

  lemma OddStep(a: bv32)
    requires Low(a)
    ensures a & 1 == 1 && Step(OPS, a) == (a >> 1) ^ POLY
  {
    ShiftIs(a);
    XorIs(a >> 1, POLY);
  }

  lemma EvenStep(a: bv32)
    requires !Low(a)
    ensures a & 1 == 0 && Step(OPS, a) == a >> 1
  {
    LowIs(a);
    ShiftIs(a);
  }

  lemma StepInjective(a: bv32, b: bv32)
    requires Step(OPS, a) == Step(OPS, b)
    ensures a == b
  {
    var p := Step(OPS, a);
    if Low(a) {
      OddStep(a);
      if Low(b) {
        OddStep(b);
        OddSame(p, a, b);
      } else {
        EvenStep(b);
        KindsDiffer(p, a, b);
      }
    } else {
      EvenStep(a);
      if Low(b) {
        OddStep(b);
        KindsDiffer(p, b, a);
      } else {
        EvenStep(b);
        EvenSame(p, a, b);
      }
    }
  }

  lemma ReversibleHolds()
    ensures Reversible(OPS)
  {
    forall a, b | Step(OPS, a) == Step(OPS, b) ensures a == b {
      StepInjective(a, b);
    }
  }

  lemma PackIs(b: byte, w: bv32)
    ensures Pack(OPS, b, w) == (b as bv32) ^ (w << 8)
  {}

  lemma PackGlue(p: bv32, b: byte, w: bv32)
    requires p == (b as bv32) ^ (w << 8)
    ensures w == 0 ==> p <= 0xFF
    ensures w <= 0xFF ==> p <= 0xFFFF
    ensures w <= 0xFFFF ==> p <= 0xFF_FFFF
  {}

  lemma PackSplits(p: bv32, a: byte, v: bv32, b: byte, w: bv32)
    requires v <= 0xFF_FFFF && w <= 0xFF_FFFF
    requires p == (a as bv32) ^ (v << 8) && p == (b as bv32) ^ (w << 8)
    ensures a == b && v == w
  {}

  lemma PacksHolds()
    ensures Packs(OPS)
  {
    forall b, w, k: nat | k < 4 && Fits(w, k) ensures Fits(Pack(OPS, b, w), k + 1) {
      PackIs(b, w);
      PackGlue(Pack(OPS, b, w), b, w);
    }
    forall a, v, b, w | Fits(v, 3) && Fits(w, 3) && Pack(OPS, a, v) == Pack(OPS, b, w) ensures a == b && v == w {
      PackIs(a, v);
      PackIs(b, w);
      PackSplits(Pack(OPS, a, v), a, v, b, w);
    }
  }

  /** The k lowest bits of v are zero. */
  predicate LowClear(v: bv32, k: nat)
    requires k <= 8
  {
    match k
    case 0 => true
    case 1 => v & 0x01 == 0
    case 2 => v & 0x03 == 0
    case 3 => v & 0x07 == 0
    case 4 => v & 0x0F == 0
    case 5 => v & 0x1F == 0
    case 6 => v & 0x3F == 0
    case 7 => v & 0x7F == 0
    case _ => v & 0xFF == 0
  }

  function ShiftedBy(v: bv32, k: nat): bv32
    requires k <= 8
  {
    match k
    case 0 => v
    case 1 => v >> 1
    case 2 => v >> 2
    case 3 => v >> 3
    case 4 => v >> 4
    case 5 => v >> 5
    case 6 => v >> 6
    case 7 => v >> 7
    case _ => v >> 8
  }


  lemma OneBitDown(v: bv32, k: nat)
    requires 0 < k <= 8 && LowClear(v, k)
    ensures v & 1 == 0 && LowClear(v >> 1, k - 1) && ShiftedBy(v >> 1, k - 1) == ShiftedBy(v, k)
  {}

  lemma {:induction false} BitsDown(v: bv32, k: nat)
    requires k <= 8 && LowClear(v, k)
    ensures Clear(OPS, v, k) && Down(OPS, v, k) == ShiftedBy(v, k)
    decreases k
  {
    if k > 0 {
      OneBitDown(v, k);
      BitsDown(v >> 1, k - 1);
    }
  }

  lemma UpDown(w: bv32)
    requires w <= 0xFF_FFFF
    ensures (w << 8) & 0xFF == 0 && (w << 8) >> 8 == w
  {}

  lemma MakesRoomHolds()
    ensures MakesRoom(OPS)
  {
    forall w | Fits(w, 3) ensures Clear(OPS, Up(w), 8) && Down(OPS, Up(w), 8) == w {
      UpDown(w);
      BitsDown(Up(w), 8);
    }
  }

  lemma OpsLawful()
    ensures Lawful(OPS)
  {
    AddsHolds();
    ReversibleHolds();
    PacksHolds();
    OpsMove();
  }

  lemma OpsMove()
    ensures AbsorbMoves(OPS)
  {
    LinearHolds();
    RegroupsHolds();
    StepMoves(OPS);
    MakesRoomHolds();
    BytesMove(OPS);
  }

  /** Every change confined to four adjacent bytes changes the checksum. */
  lemma BurstChangesCrc(p: seq<byte>, q: seq<byte>, at: nat)
    requires DifferInWindow(p, q, at)
    ensures Crc(p) != Crc(q)
  {
    OpsLawful();
    BurstShows(OPS, ONES, p, q, at);
    XorCancels(ONES, Feed(OPS, ONES, p), Feed(OPS, ONES, q));
  }

  lemma ByteSteps(c: bv32, b: byte, c1: bv32, c2: bv32, c3: bv32, c4: bv32, c5: bv32, c6: bv32, c7: bv32, c8: bv32)
    requires Step(OPS, Xor(c, Inject(b))) == c1 && Step(OPS, c1) == c2 && Step(OPS, c2) == c3
    requires Step(OPS, c3) == c4 && Step(OPS, c4) == c5 && Step(OPS, c5) == c6
    requires Step(OPS, c6) == c7 && Step(OPS, c7) == c8
    ensures Absorb(OPS, c, b) == c8
  {
    EightSteps(OPS, Xor(c, Inject(b)), c1, c2, c3, c4, c5, c6, c7, c8);
  }

  lemma FeedThree(a: byte, b: byte, c: byte, r0: bv32, r1: bv32, r2: bv32, r3: bv32)
    requires Absorb(OPS, r0, a) == r1 && Absorb(OPS, r1, b) == r2 && Absorb(OPS, r2, c) == r3
    ensures Feed(OPS, r0, [a, b, c]) == r3
  {
    assert [a, b, c][1..] == [b, c] && [b, c][1..] == [c] && [c][1..] == [];
    assert Feed(OPS, r2, [c]) == r3;
    assert Feed(OPS, r1, [b, c]) == r3;
  }

  lemma FirstDigits()
    ensures Feed(OPS, 0xFFFFFFFF, [0x31, 0x32, 0x33]) == 0x77B79C2D
  {
    ByteSteps(0xFFFFFFFF, 0x31, 0x7FFFFFE7, 0xD2477CD3, 0x849B3D49, 0xAFF51D84, 0x57FA8EC2, 0x2BFD4761, 0xF8462090, 0x7C231048);
    ByteSteps(0x7C231048, 0x32, 0x3E11883D, 0xF2B0473E, 0x7958239F, 0xD11492EF, 0x8532CA57, 0xAF21E60B, 0xBA287025, 0xB0ACBB32);
    ByteSteps(0xB0ACBB32, 0x33, 0xB5EEDEA0, 0x5AF76F50, 0x2D7BB7A8, 0x16BDDBD4, 0x0B5EEDEA, 0x05AF76F5, 0xEF6F385A, 0x77B79C2D);
    FeedThree(0x31, 0x32, 0x33, 0xFFFFFFFF, 0x7C231048, 0xB0ACBB32, 0x77B79C2D);
  }

  lemma MiddleDigits()
    ensures Feed(OPS, 0x77B79C2D, [0x34, 0x35, 0x36]) == 0xF68D2C9E
  {
    ByteSteps(0x77B79C2D, 0x34, 0xD6634D2C, 0x6B31A696, 0x3598D34B, 0xF774EA85, 0x9602F662, 0x4B017B31, 0xC8383EB8, 0x641C1F5C);
    ByteSteps(0x641C1F5C, 0x35, 0xDFB68C94, 0x6FDB464A, 0x37EDA325, 0xF64E52B2, 0x7B272959, 0xD02B178C, 0x68158BC6, 0x340AC5E3);
    ByteSteps(0x340AC5E3, 0x36, 0xF7BDE1CA, 0x7BDEF0E5, 0xD057FB52, 0x682BFDA9, 0xD9AD7DF4, 0x6CD6BEFA, 0x366B5F7D, 0xF68D2C9E);
    FeedThree(0x34, 0x35, 0x36, 0x77B79C2D, 0x641C1F5C, 0x340AC5E3, 0xF68D2C9E);
  }

  lemma LastDigits()
    ensures Feed(OPS, 0xF68D2C9E, [0x37, 0x38, 0x39]) == 0x340BC6D9
  {
    ByteSteps(0xF68D2C9E, 0x37, 0x96FE1574, 0x4B7F0ABA, 0x25BF855D, 0xFF67418E, 0x7FB3A0C7, 0xD2615343, 0x84882A81, 0xAFFC9660);
    ByteSteps(0xAFFC9660, 0x38, 0x57FE4B2C, 0x2BFF2596, 0x15FF92CB, 0xE7474A45, 0x9E1B2602, 0x4F0D9301, 0xCA3E4AA0, 0x651F2550);
    ByteSteps(0x651F2550, 0x39, 0xDF371194, 0x6F9B88CA, 0x37CDC465, 0xF65E6112, 0x7B2F3089, 0xD02F1B64, 0x68178DB2, 0x340BC6D9);
    FeedThree(0x37, 0x38, 0x39, 0xF68D2C9E, 0xAFFC9660, 0x651F2550, 0x340BC6D9);
  }

  /** The published check value of CRC-32: the ASCII digits 1 to 9 give CBF43926. */
  lemma CheckValue()
    ensures Crc([0x31, 0x32, 0x33, 0x34, 0x35, 0x36, 0x37, 0x38, 0x39]) == 0xCBF4_3926
  {
    FirstDigits();
    MiddleDigits();
    LastDigits();
    FeedConcat(OPS, ONES, [0x31, 0x32, 0x33], [0x34, 0x35, 0x36]);
    FeedConcat(OPS, ONES, [0x31, 0x32, 0x33] + [0x34, 0x35, 0x36], [0x37, 0x38, 0x39]);
    assert ([0x31, 0x32, 0x33] + [0x34, 0x35, 0x36]) + [0x37, 0x38, 0x39]
      == [0x31, 0x32, 0x33, 0x34, 0x35, 0x36, 0x37, 0x38, 0x39 as byte];
  }
}
