/**
  The checksum of the nine digits, the value by which the variants of CRC-32 are told apart: it
  fixes the polynomial, the direction of the shift, the complement and the byte order.
 */
module CrcCheck {
  import opened Words
  import opened Registers
  import opened Crc

  /** A byte is absorbed by the eight steps of a chain. */
  lemma Steps(r: bv32, b: bv8, chain: seq<bv32>)
    requires |chain| == 9 && chain[0] == XorOp(r, Embed(b))
    requires forall k :: 0 <= k < 8 ==> Step(chain[k]) == chain[k + 1]
    ensures Absorb(r, b) == chain[8]
  {
    TimesDown(Step, chain, 8);
  }

  lemma Digit1()
    ensures Absorb(0xFFFFFFFF, 0x31) == 0x7C231048
  {
    Steps(0xFFFFFFFF, 0x31,
          [0xFFFFFFCE, 0x7FFFFFE7, 0xD2477CD3, 0x849B3D49, 0xAFF51D84,
           0x57FA8EC2, 0x2BFD4761, 0xF8462090, 0x7C231048]);
  }

  lemma Digit2()
    ensures Absorb(0x7C231048, 0x32) == 0xB0ACBB32
  {
    Steps(0x7C231048, 0x32,
          [0x7C23107A, 0x3E11883D, 0xF2B0473E, 0x7958239F, 0xD11492EF,
           0x8532CA57, 0xAF21E60B, 0xBA287025, 0xB0ACBB32]);
  }

  lemma Digit3()
    ensures Absorb(0xB0ACBB32, 0x33) == 0x77B79C2D
  {
    Steps(0xB0ACBB32, 0x33,
          [0xB0ACBB01, 0xB5EEDEA0, 0x5AF76F50, 0x2D7BB7A8, 0x16BDDBD4,
           0x0B5EEDEA, 0x05AF76F5, 0xEF6F385A, 0x77B79C2D]);
  }

  lemma Digit4()
    ensures Absorb(0x77B79C2D, 0x34) == 0x641C1F5C
  {
    Steps(0x77B79C2D, 0x34,
          [0x77B79C19, 0xD6634D2C, 0x6B31A696, 0x3598D34B, 0xF774EA85,
           0x9602F662, 0x4B017B31, 0xC8383EB8, 0x641C1F5C]);
  }

  lemma Digit5()
    ensures Absorb(0x641C1F5C, 0x35) == 0x340AC5E3
  {
    Steps(0x641C1F5C, 0x35,
          [0x641C1F69, 0xDFB68C94, 0x6FDB464A, 0x37EDA325, 0xF64E52B2,
           0x7B272959, 0xD02B178C, 0x68158BC6, 0x340AC5E3]);
  }

  lemma Digit6()
    ensures Absorb(0x340AC5E3, 0x36) == 0xF68D2C9E
  {
    Steps(0x340AC5E3, 0x36,
          [0x340AC5D5, 0xF7BDE1CA, 0x7BDEF0E5, 0xD057FB52, 0x682BFDA9,
           0xD9AD7DF4, 0x6CD6BEFA, 0x366B5F7D, 0xF68D2C9E]);
  }

  lemma Digit7()
    ensures Absorb(0xF68D2C9E, 0x37) == 0xAFFC9660
  {
    Steps(0xF68D2C9E, 0x37,
          [0xF68D2CA9, 0x96FE1574, 0x4B7F0ABA, 0x25BF855D, 0xFF67418E,
           0x7FB3A0C7, 0xD2615343, 0x84882A81, 0xAFFC9660]);
  }

  lemma Digit8()
    ensures Absorb(0xAFFC9660, 0x38) == 0x651F2550
  {
    Steps(0xAFFC9660, 0x38,
          [0xAFFC9658, 0x57FE4B2C, 0x2BFF2596, 0x15FF92CB, 0xE7474A45,
           0x9E1B2602, 0x4F0D9301, 0xCA3E4AA0, 0x651F2550]);
  }

  lemma Digit9()
    ensures Absorb(0x651F2550, 0x39) == 0x340BC6D9
  {
    Steps(0x651F2550, 0x39,
          [0x651F2569, 0xDF371194, 0x6F9B88CA, 0x37CDC465, 0xF65E6112,
           0x7B2F3089, 0xD02F1B64, 0x68178DB2, 0x340BC6D9]);
  }

  /** The digits 1 to 9 in ASCII. */
  const DIGITS: seq<bv8> := [0x31, 0x32, 0x33, 0x34, 0x35, 0x36, 0x37, 0x38, 0x39]

  /** Absorbing one byte after another is following a chain of registers. */
  lemma {:induction false} RegisterAlong(absorb: (bv32, bv8) -> bv32, data: seq<bv8>, chain: seq<bv32>)
    requires |chain| == |data| + 1
    requires forall k :: 0 <= k < |data| ==> absorb(chain[k], data[k]) == chain[k + 1]
    ensures Register(absorb, chain[0], data) == chain[|data|]
    decreases |data|
  {
    if data != [] { RegisterAlong(absorb, data[1..], chain[1..]); }
  }

  lemma DigitsRegister()
    ensures Register(CrcAlgebra().absorb, 0xFFFFFFFF, DIGITS) == 0x340BC6D9
  {
    Digit1(); Digit2(); Digit3(); Digit4(); Digit5(); Digit6(); Digit7(); Digit8(); Digit9();
    RegisterAlong(CrcAlgebra().absorb, DIGITS,
                  [0xFFFFFFFF, 0x7C231048, 0xB0ACBB32, 0x77B79C2D, 0x641C1F5C,
                   0x340AC5E3, 0xF68D2C9E, 0xAFFC9660, 0x651F2550, 0x340BC6D9]);
  }

  lemma FinishedDigits()
    ensures Finished(0x340BC6D9) == 0x2639F4CB
  {
  }

  /** CBF43926 is the check value of CRC-32; the code hands it out with its bytes turned round. */
  lemma CheckValue()
    ensures Crc32(DIGITS, 0xFFFFFFFF) == 0x2639F4CB
  {
    DigitsRegister();
    FinishedDigits();
  }
}
