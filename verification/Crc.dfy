/**
  The bitwise CRC-32 of the radio protocol, with the polynomial of section 8
  of RFC 1952, a final complement and a byte swap.
 */
module Crc {
  import opened Registers
  import opened Words

  const POLY: bv32 := 0xEDB88320

  function Half(b: bv32): bv32 { b >> 1 }

  function Mask(x: bv32): bv32 { if x & 1 == 1 then POLY else 0 }

  /** One bit of the division. */
  function Step(x: bv32): bv32 { XorOp(Half(x), Mask(x)) }

  predicate Flag(r: bv32, b: bv32) { (b & 1) ^ (r & 1) != 0 }

  /** One turn of the inner loop. */
  function Bit(r: bv32, b: bv32): bv32 { if Flag(r, b) then XorOp(Half(r), POLY) else Half(r) }

  function Embed(b: bv8): bv32 { b as bv32 }

  function Up(d: bv32): bv32 { d << 8 }

  /** Whether a difference lies in the lowest n bytes. */
  predicate Fits(d: bv32, n: nat) {
    match n
    case 0 => d == 0
    case 1 => d < 0x100
    case 2 => d < 0x10000
    case _ => d < 0x1000000
  }

  function Unit(): Machine<bv32, bv8> { Machine(Step, XorOp, Up, Embed, 8, 0, Fits) }

  function CrcAlgebra(): Algebra<bv32, bv8> { Unit().ToAlgebra() }

  /** The register after a whole byte. */
  function Absorb(r: bv32, b: bv8): bv32 { CrcAlgebra().absorb(r, b) }

  function Swapped(r: bv32): bv32 {
    ((r & 0xFF) << 24) | ((r & 0xFF00) << 8) | ((r & 0xFF0000) >> 8) | ((r & 0xFF000000) >> 24)
  }

  function Finished(r: bv32): bv32 { Swapped(r ^ 0xFFFFFFFF) }

  function Crc32(data: seq<bv8>, checksum: bv32): bv32 { Finished(Register(CrcAlgebra().absorb, checksum, data)) }

  // ----- bit-vector facts

  lemma HalfLinear(x: bv32, y: bv32)
    ensures XorOp(Half(x), Half(y)) == Half(XorOp(x, y))
  {
  }

  lemma MaskLinear(x: bv32, y: bv32)
    ensures XorOp(Mask(x), Mask(y)) == Mask(XorOp(x, y))
  {
  }

  lemma StepLinear(x: bv32, y: bv32)
    ensures XorOp(Step(x), Step(y)) == Step(XorOp(x, y))
  {
    XorIsXorLike();
    Regroup(XorOp, Half(x), Mask(x), Half(y), Mask(y));
    HalfLinear(x, y);
    MaskLinear(x, y);
  }

  lemma FlagMeans(r: bv32, b: bv32)
    ensures Flag(r, b) <==> XorOp(r, b) & 1 == 1
  {
  }

  lemma BitMasks(r: bv32, b: bv32)
    ensures Bit(r, b) == XorOp(Half(r), Mask(XorOp(r, b)))
  {
    FlagMeans(r, b);
    XorZero(Half(r));
  }

  lemma BitIsStep(r: bv32, b: bv32)
    ensures XorOp(Bit(r, b), Half(b)) == Step(XorOp(r, b))
  {
    BitMasks(r, b);
    XorIsXorLike();
    SwapLast(XorOp, Half(r), Mask(XorOp(r, b)), Half(b));
    HalfLinear(r, b);
  }

  lemma StepInjective(x: bv32, y: bv32)
    requires Step(x) == Step(y)
    ensures x == y
  {
  }

  lemma StepOfShifted(y: bv32)
    requires y < 0x80000000
    ensures Step(Twice(y)) == y
  {
  }

  function Twice(x: bv32): bv32 { x << 1 }

  lemma Doubled(x: bv32, bound: bv32)
    requires x < bound <= 0x40000000
    ensures Twice(x) < bound << 1
  {
  }

  // ----- the laws of the register

  lemma StepLinearHere(x: bv32, y: bv32)
    ensures LinearAt(Step, XorOp, x, y)
  {
    StepLinear(x, y);
  }

  lemma StepOneToOneHere(x: bv32, y: bv32)
    ensures OneToOneAt(Step, x, y)
  {
    if Step(x) == Step(y) { StepInjective(x, y); }
  }

  lemma BitJointHere(x: bv32, y: bv32)
    ensures JointAt(Bit, Half, Step, XorOp, x, y)
  {
    BitIsStep(x, y);
  }

  lemma StepIsLinear()
    ensures Linear(Step, XorOp)
  {
    forall x: bv32, y: bv32 { StepLinearHere(x, y); }
  }

  lemma StepIsOneToOne()
    ensures OneToOne(Step)
  {
    forall x: bv32, y: bv32 { StepOneToOneHere(x, y); }
  }

  lemma BitIsJoint()
    ensures Joint(Bit, Half, Step, XorOp)
  {
    forall x: bv32, y: bv32 { BitJointHere(x, y); }
  }

  /** The eight bits of a byte are used up after eight turns. */
  lemma ByteRunsOut(b: bv32)
    requires b < 256
    ensures Times(Half, b, 8) == 0
  {
    var b1 := Half(b);
    var b2 := Half(b1);
    var b3 := Half(b2);
    var b4 := Half(b3);
    var b5 := Half(b4);
    var b6 := Half(b5);
    var b7 := Half(b6);
    var b8 := Half(b7);
    TimesDown(Half, [b, b1, b2, b3, b4, b5, b6, b7, b8], 8);
  }

  /** Eight zero bits below a short register just shift it down. */
  lemma ShiftedDown(y: bv32)
    requires y < 0x1000000
    ensures Times(Step, Up(y), 8) == y
  {
    var y1 := Twice(y);
    var y2 := Twice(y1);
    var y3 := Twice(y2);
    var y4 := Twice(y3);
    var y5 := Twice(y4);
    var y6 := Twice(y5);
    var y7 := Twice(y6);
    var y8 := Twice(y7);
    Doubled(y, 0x1000000); Doubled(y1, 0x2000000); Doubled(y2, 0x4000000); Doubled(y3, 0x8000000);
    Doubled(y4, 0x10000000); Doubled(y5, 0x20000000); Doubled(y6, 0x40000000);
    StepOfShifted(y7); StepOfShifted(y6); StepOfShifted(y5); StepOfShifted(y4);
    StepOfShifted(y3); StepOfShifted(y2); StepOfShifted(y1); StepOfShifted(y);
    TimesDown(Step, [y8, y7, y6, y5, y4, y3, y2, y1, y], 8);
  }

  /** The inner loop of the code absorbs a byte. */
  lemma BitsAbsorb(r: bv32, b: bv8)
    ensures Pairs(Bit, Half, r, Embed(b), 8).0 == Absorb(r, b)
  {
    BitIsJoint();
    PairsAreTimes(Bit, Half, Step, XorOp, r, Embed(b), 8);
    PairsHalve(Bit, Half, r, Embed(b), 8);
    ByteRunsOut(Embed(b));
    XorZero(Pairs(Bit, Half, r, Embed(b), 8).0);
  }

  lemma XorZero(x: bv32)
    ensures XorOp(x, 0) == x
  {
  }

  // ----- the code

  method ComputeCrc32(data: seq<bv8>, checksum: bv32) returns (crc: bv32)
    ensures crc == Crc32(data, checksum)
  {
    var r := checksum;
    for i := 0 to |data|
      invariant Register(CrcAlgebra().absorb, checksum, data) == Register(CrcAlgebra().absorb, r, data[i..])
    {
      r := AbsorbByte(r, data[i]);
      assert data[i..][1..] == data[i + 1..] && data[i..][0] == data[i];
    }
    assert data[|data|..] == [];
    crc := Finish(r);
  }

  method AbsorbByte(was: bv32, c: bv8) returns (r: bv32)
    ensures r == Absorb(was, c)
  {
    var b := c as bv32;
    r := was;
    for j := 0 to 8
      invariant (r, b) == Pairs(Bit, Half, was, Embed(c), j)
    {
      r, b := ShiftIn(r, b);
    }
    BitsAbsorb(was, c);
  }

  method ShiftIn(r: bv32, b: bv32) returns (r': bv32, b': bv32)
    ensures r' == Bit(r, b) && b' == Half(b)
  {
    var flag := Flag(r, b);
    r' := r >> 1;
    r' := r' & 0x7FFFFFFF;
    if flag { r' := r' ^ POLY; }
    b' := b >> 1;
  }

  method Finish(register: bv32) returns (crc: bv32)
    ensures crc == Finished(register)
  {
    var r := register ^ 0xFFFFFFFF;
    var b0 := (r & 0x000000FF) << 24;
    var b1 := (r & 0x0000FF00) << 8;
    var b2 := (r & 0x00FF0000) >> 8;
    var b3 := (r & 0xFF000000) >> 24;
    crc := b0 | b1 | b2 | b3;
  }

  lemma FinishedOneToOne(x: bv32, y: bv32)
    requires Finished(x) == Finished(y)
    ensures x == y
  {
  }

  // ----- detection of errors

  lemma TopByte(d: bv32, x: bv32)
    requires d < 0x1000000 && x < 256 && XorOp(Up(d), x) == 0
    ensures d == 0 && x == 0
  {
  }

  lemma WidenOne(d: bv32, x: bv32)
    requires d == 0 && x < 256
    ensures XorOp(Up(d), x) < 0x100
  {
  }

  lemma WidenTwo(d: bv32, x: bv32)
    requires d < 0x100 && x < 256
    ensures XorOp(Up(d), x) < 0x10000
  {
  }

  lemma WidenThree(d: bv32, x: bv32)
    requires d < 0x10000 && x < 256
    ensures XorOp(Up(d), x) < 0x1000000
  {
  }

  lemma CrcJoinFits(d: bv32, a: bv8, b: bv8, n: nat)
    ensures JoinFits(CrcAlgebra(), d, a, b, n)
  {
    var x := XorOp(Embed(a), Embed(b));
    if n < 3 && Fits(d, n) {
      if n == 0 { WidenOne(d, x); } else if n == 1 { WidenTwo(d, x); } else { WidenThree(d, x); }
    }
  }

  lemma CrcJoinZero(d: bv32, a: bv8, b: bv8)
    ensures JoinZero(CrcAlgebra(), d, a, b)
  {
    var x := XorOp(Embed(a), Embed(b));
    if Fits(d, 3) && XorOp(Up(d), x) == 0 { TopByte(d, x); }
  }

  lemma CrcSizes(d: bv32, r: bv32)
    ensures Sizes(CrcAlgebra(), d, r)
  {
  }

  lemma CrcUpDown(d: bv32)
    ensures UpDown(Unit(), d)
  {
    if Fits(d, 3) { ShiftedDown(d); }
  }

  lemma UnitStepLaws()
    ensures StepLaws(Unit())
  {
    XorIsXorLike();
    StepIsLinear();
    StepIsOneToOne();
    forall d: bv32 { CrcUpDown(d); }
  }

  lemma CrcSizeLaws()
    ensures SizeLaws(CrcAlgebra())
  {
    var g := CrcAlgebra();
    forall d: bv32, a: bv8, b: bv8, n: nat ensures JoinFits(g, d, a, b, n) { CrcJoinFits(d, a, b, n); }
    forall d: bv32, a: bv8, b: bv8 ensures JoinZero(g, d, a, b) { CrcJoinZero(d, a, b); }
    forall d: bv32, r: bv32 ensures Sizes(g, d, r) { CrcSizes(d, r); }
  }

  lemma CrcLaws()
    ensures Laws(CrcAlgebra())
  {
    UnitStepLaws();
    CrcSizeLaws();
    MachineLaws(Unit());
  }

  /**
    Payloads of equal length that differ only inside a window of four consecutive bytes, however
    many of the 32 bits are wrong, never have the same CRC.
   */
  lemma BurstDetected(before: seq<bv8>, a: seq<bv8>, b: seq<bv8>, after: seq<bv8>, checksum: bv32)
    requires |a| == |b| <= 4 && a != b
    ensures Crc32(before + a + after, checksum) != Crc32(before + b + after, checksum)
  {
    CrcLaws();
    WindowDetected(CrcAlgebra(), checksum, before, a, b, after);
    var x := Register(CrcAlgebra().absorb, checksum, before + a + after);
    var y := Register(CrcAlgebra().absorb, checksum, before + b + after);
    if Finished(x) == Finished(y) { FinishedOneToOne(x, y); }
  }

  /** In particular, two payloads of equal length that differ in exactly one byte. */
  lemma SingleByteDetected(x: seq<bv8>, y: seq<bv8>, k: nat, checksum: bv32)
    requires |x| == |y| && k < |x| && x[k] != y[k] && forall i :: 0 <= i < |x| && i != k ==> x[i] == y[i]
    ensures Crc32(x, checksum) != Crc32(y, checksum)
  {
    assert x == x[..k] + [x[k]] + x[k + 1..];
    assert y == x[..k] + [y[k]] + x[k + 1..];
    BurstDetected(x[..k], [x[k]], [y[k]], x[k + 1..], checksum);
  }
}
