/**
  Blowfish on 32-bit words, and the packing of 8-byte blocks in
  either byte order.  Subkeys and S-boxes are arbitrary.
 */
module Blowfish {
  import opened Feistel
  import opened Words

  const N: nat := 16

  /** Eighteen subkeys and four S-boxes. */
  datatype Context = Context(P: seq<bv32>, S0: bv8 -> bv32, S1: bv8 -> bv32, S2: bv8 -> bv32, S3: bv8 -> bv32)

  predicate ValidContext(ctx: Context) { |ctx.P| == N + 2 }

  function F(ctx: Context, x: bv32): bv32 {
    var (d, c, b, a) := (Part(x, 0), Part(x, 1), Part(x, 2), Part(x, 3));
    Blend(ctx.S0(a), ctx.S1(b), ctx.S2(c), ctx.S3(d))
  }

  function Blend(a: bv32, b: bv32, c: bv32, d: bv32): bv32 { ((a + b) ^ c) + d }

  /** The round function of a context. */
  function Mix(ctx: Context): bv32 -> bv32 { x => F(ctx, x) }

  method Encrypt(ctx: Context, l: bv32, r: bv32) returns (xl: bv32, xr: bv32)
    requires ValidContext(ctx)
    ensures (xl, xr) == Cipher(XorOp, Mix(ctx), ctx.P, l, r)
  {
    xl, xr := Encipher(XorOp, Mix(ctx), ctx.P, l, r);
  }

  method Decrypt(ctx: Context, l: bv32, r: bv32) returns (xl: bv32, xr: bv32)
    requires ValidContext(ctx)
    ensures (xl, xr) == Cipher(XorOp, Mix(ctx), Reversed(ctx.P), l, r)
  {
    xl, xr := Decipher(XorOp, Mix(ctx), ctx.P, l, r);
  }

  // ----- blocks of eight bytes

  datatype Order = BigEndian | LittleEndian

  function Word(b: seq<bv8>, at: nat, o: Order): bv32
    requires at + 4 <= |b|
  {
    if o.BigEndian? then Join(b[at], b[at + 1], b[at + 2], b[at + 3])
    else Join(b[at + 3], b[at + 2], b[at + 1], b[at])
  }

  function Join(b3: bv8, b2: bv8, b1: bv8, b0: bv8): bv32 {
    ((b3 as bv32) << 24) | ((b2 as bv32) << 16) | ((b1 as bv32) << 8) | (b0 as bv32)
  }

  /** Byte k of a word, 0 the lowest. */
  function Part(w: bv32, k: nat): bv8
    requires k < 4
  {
    match k
    case 0 => (w & 0xFF) as bv8
    case 1 => ((w >> 8) & 0xFF) as bv8
    case 2 => ((w >> 16) & 0xFF) as bv8
    case _ => ((w >> 24) & 0xFF) as bv8
  }

  function Bytes(w: bv32, o: Order): (r: seq<bv8>)
    ensures |r| == 4
  {
    if o.BigEndian? then [Part(w, 3), Part(w, 2), Part(w, 1), Part(w, 0)]
    else [Part(w, 0), Part(w, 1), Part(w, 2), Part(w, 3)]
  }

  lemma JoinParts(w: bv32)
    ensures Join(Part(w, 3), Part(w, 2), Part(w, 1), Part(w, 0)) == w
  {
  }

  lemma PartsOfJoin(b3: bv8, b2: bv8, b1: bv8, b0: bv8)
    ensures var w := Join(b3, b2, b1, b0); Part(w, 3) == b3 && Part(w, 2) == b2 && Part(w, 1) == b1 && Part(w, 0) == b0
  {
  }

  /** The two words of a block. */
  function Unpack(block: seq<bv8>, o: Order): (bv32, bv32)
    requires |block| == 8
  {
    (Word(block, 0, o), Word(block, 4, o))
  }

  function Pack(w: (bv32, bv32), o: Order): (r: seq<bv8>)
    ensures |r| == 8
  {
    Bytes(w.0, o) + Bytes(w.1, o)
  }

  lemma WordOfBytes(w: bv32, o: Order, b: seq<bv8>, at: nat)
    requires at + 4 <= |b| && b[at..at + 4] == Bytes(w, o)
    ensures Word(b, at, o) == w
  {
    JoinParts(w);
    var s := b[at..at + 4];
    assert s[0] == b[at] && s[1] == b[at + 1] && s[2] == b[at + 2] && s[3] == b[at + 3];
  }

  lemma UnpackPack(w: (bv32, bv32), o: Order)
    ensures Unpack(Pack(w, o), o) == w
  {
    WordOfBytes(w.0, o, Pack(w, o), 0);
    WordOfBytes(w.1, o, Pack(w, o), 4);
  }

  lemma PackUnpack(block: seq<bv8>, o: Order)
    requires |block| == 8
    ensures Pack(Unpack(block, o), o) == block
  {
    if o.BigEndian? {
      PartsOfJoin(block[0], block[1], block[2], block[3]);
      PartsOfJoin(block[4], block[5], block[6], block[7]);
    } else {
      PartsOfJoin(block[3], block[2], block[1], block[0]);
      PartsOfJoin(block[7], block[6], block[5], block[4]);
    }
  }

  function EncryptedBlock(ctx: Context, o: Order, block: seq<bv8>): (r: seq<bv8>)
    requires ValidContext(ctx) && |block| == 8
    ensures |r| == 8
  {
    var (l, r) := Unpack(block, o);
    Pack(Cipher(XorOp, Mix(ctx), ctx.P, l, r), o)
  }

  function DecryptedBlock(ctx: Context, o: Order, block: seq<bv8>): (r: seq<bv8>)
    requires ValidContext(ctx) && |block| == 8
    ensures |r| == 8
  {
    var (l, r) := Unpack(block, o);
    Pack(Cipher(XorOp, Mix(ctx), Reversed(ctx.P), l, r), o)
  }

  /** Decrypting a block undoes encrypting it, and the other way round, in either byte order. */
  lemma BlockRoundTrip(ctx: Context, o: Order, block: seq<bv8>)
    requires ValidContext(ctx) && |block| == 8
    ensures DecryptedBlock(ctx, o, EncryptedBlock(ctx, o, block)) == block
    ensures EncryptedBlock(ctx, o, DecryptedBlock(ctx, o, block)) == block
  {
    var (l, r) := Unpack(block, o);
    UnpackPack(Cipher(XorOp, Mix(ctx), ctx.P, l, r), o);
    UnpackPack(Cipher(XorOp, Mix(ctx), Reversed(ctx.P), l, r), o);
    XorIsXorLike();
    CipherUndone(XorOp, Mix(ctx), ctx.P, l, r);
    DecipherUndone(XorOp, Mix(ctx), ctx.P, l, r);
    PackUnpack(block, o);
  }

  /** Each byte of the word, from the highest, goes through the S-box of its place. */
  lemma FOfBytes(ctx: Context, a: bv8, b: bv8, c: bv8, d: bv8, s0: bv32, s1: bv32, s2: bv32, s3: bv32)
    requires s0 == ctx.S0(a) && s1 == ctx.S1(b) && s2 == ctx.S2(c) && s3 == ctx.S3(d)
    ensures F(ctx, Join(a, b, c, d)) == ((s0 + s1) ^ s2) + s3
  {
    var w := Join(a, b, c, d);
    assert F(ctx, w) == Blend(s0, s1, s2, s3) by { Looked(ctx, w); PartsOfJoin(a, b, c, d); }
    BlendMeans(s0, s1, s2, s3);
  }

  lemma BlendMeans(a: bv32, b: bv32, c: bv32, d: bv32)
    ensures Blend(a, b, c, d) == ((a + b) ^ c) + d
  {
  }

  lemma Looked(ctx: Context, w: bv32)
    ensures F(ctx, w) == Blend(ctx.S0(Part(w, 3)), ctx.S1(Part(w, 2)), ctx.S2(Part(w, 1)), ctx.S3(Part(w, 0)))
  {
  }

  /** The two byte orders of the numbers 1 to 4. */
  lemma OrdersTellApart()
    ensures Word([1, 2, 3, 4], 0, BigEndian) == 0x01020304 && Word([1, 2, 3, 4], 0, LittleEndian) == 0x04030201
  {
  }

  /**
    The block written is the one the recurrence of the cipher gives: the last of eighteen half
    blocks to the right, and the one before it with the last subkey to the left.
   */
  lemma BlockIsHalves(ctx: Context, o: Order, block: seq<bv8>, z: seq<bv32>)
    requires ValidContext(ctx) && |block| == 8
    requires Halves(XorOp, Mix(ctx), ctx.P, Word(block, 0, o), Word(block, 4, o), z)
    ensures EncryptedBlock(ctx, o, block)[..4] == Bytes(z[16] ^ ctx.P[17], o)
    ensures EncryptedBlock(ctx, o, block)[4..] == Bytes(z[17], o)
  {
    CipherIsHalves(XorOp, Mix(ctx), ctx.P, Word(block, 0, o), Word(block, 4, o), z);
  }

  /** Writes the four bytes of a word into the output buffer. */
  method WordToBuffer(w: bv32, o: Order, output: array<bv8>, at: nat)
    requires at + 4 <= output.Length
    modifies output
    ensures output[at..at + 4] == Bytes(w, o)
    ensures forall k :: 0 <= k < output.Length && !(at <= k < at + 4) ==> output[k] == old(output[k])
  {
    if o.BigEndian? {
      output[at], output[at + 1], output[at + 2], output[at + 3] := Part(w, 3), Part(w, 2), Part(w, 1), Part(w, 0);
    } else {
      output[at], output[at + 1], output[at + 2], output[at + 3] := Part(w, 0), Part(w, 1), Part(w, 2), Part(w, 3);
    }
  }

  method EncryptVec(ctx: Context, o: Order, input: array<bv8>, output: array<bv8>)
    requires ValidContext(ctx) && input.Length >= 8 && output.Length >= 8
    modifies output
    ensures output[..8] == EncryptedBlock(ctx, o, old(input[..8]))
    ensures forall k :: 8 <= k < output.Length ==> output[k] == old(output[k])
  {
    var block := input[..8];
    var io1, io2 := Word(block, 0, o), Word(block, 4, o);
    io1, io2 := Encrypt(ctx, io1, io2);
    WordToBuffer(io1, o, output, 0);
    WordToBuffer(io2, o, output, 4);
    assert output[..8] == output[0..4] + output[4..8];
  }

  method DecryptVec(ctx: Context, o: Order, input: array<bv8>, output: array<bv8>)
    requires ValidContext(ctx) && input.Length >= 8 && output.Length >= 8
    modifies output
    ensures output[..8] == DecryptedBlock(ctx, o, old(input[..8]))
    ensures forall k :: 8 <= k < output.Length ==> output[k] == old(output[k])
  {
    var block := input[..8];
    var io1, io2 := Word(block, 0, o), Word(block, 4, o);
    io1, io2 := Decrypt(ctx, io1, io2);
    WordToBuffer(io1, o, output, 0);
    WordToBuffer(io2, o, output, 4);
    assert output[..8] == output[0..4] + output[4..8];
  }
}
