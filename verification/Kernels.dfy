/** The Go side of the hash kernels: 64-byte buffers as arrays, the assembly routines called
    on them, and the functions built around a bare compression routine. */
module Kernels {
  import opened Sha256
  import opened Machine
  import opened Fused
  import opened FusedN
  import opened Block2
  import opened ChainAsm

  // ---------------------------------------------------------------------------------
  // Buffers and memory cells
  // ---------------------------------------------------------------------------------

  /** The core with the 64 bytes p in the four cells from d on. */
  function Put(s: Core, d: MemIx, p: Message): Core
    requires d <= MEM - 4
  {
    s.(m := s.m[d := Cell(p, 0)][d + 1 := Cell(p, 1)][d + 2 := Cell(p, 2)][d + 3 := Cell(p, 3)])
  }

  /** The 64 bytes in the four cells from d on. */
  function Get(s: Core, d: MemIx): Message
    requires d <= MEM - 4
  {
    ToBytes(s.m[d]) + ToBytes(s.m[d + 1]) + ToBytes(s.m[d + 2]) + ToBytes(s.m[d + 3])
  }

  lemma PutIs(s: Core, d: MemIx, p: Message)
    requires d <= MEM - 4
    ensures BufferIs(Put(s, d, p), d, p)
    ensures forall i: MemIx | i < d || i >= d + 4 :: Put(s, d, p).m[i] == s.m[i]
  {
    hide Cell;
  }

  lemma GetIs(s: Core, d: MemIx, p: Message)
    requires d <= MEM - 4 && BufferIs(s, d, p)
    ensures Get(s, d) == p
  {
    hide ToBytes, FromBytes;
    CellBytes(p, 0);
    CellBytes(p, 1);
    CellBytes(p, 2);
    CellBytes(p, 3);
    assert s.m[d] == Cell(p, 0) && s.m[d + 1] == Cell(p, 1);
    assert p == p[0..16] + p[16..32] + p[32..48] + p[48..64];
  }

  lemma CellBytes(p: Message, i: nat)
    requires i < 4
    ensures ToBytes(Cell(p, i)) == p[16 * i..16 * i + 16]
  {
    hide ToBytes, FromBytes;
    ToFromBytes(p[16 * i..16 * i + 16]);
  }

  type Buffer = array<Byte>

  /** The bytes of an array, all of them. */
  method Fill(buf: Buffer, p: seq<Byte>)
    requires buf.Length == |p|
    modifies buf
    ensures buf[..] == p
  {
    forall i | 0 <= i < buf.Length {
      buf[i] := p[i];
    }
  }

  // ---------------------------------------------------------------------------------
  // Calls of the fused routines
  // ---------------------------------------------------------------------------------

  /** hashHex1 on a buffer, whatever the core held before. */
  method CallHashHex1(core: Core, buf: Buffer)
    requires buf.Length == 64
    modifies buf
    ensures buf[..] == HexHash(old(buf[..]))
  {
    hide Run, Put, Get, HexHash, Cell, HashHex1;
    var s := Put(core, 8, buf[..]);
    PutIs(core, 8, buf[..]);
    ghost var t := HashHex1Correct(buf[..], s);
    var s' := Run(HashHex1(), s);
    GetIs(s', 8, HexHash(buf[..]));
    Fill(buf, Get(s', 8));
  }

  method CallPairHashHex(core: Core, a: Buffer, b: Buffer)
    requires a.Length == 64 && b.Length == 64 && a != b
    modifies a, b
    ensures a[..] == HexHash(old(a[..])) && b[..] == HexHash(old(b[..]))
  {
    hide Run, Put, Get, HexHash, Cell, PairHashHex;
    var s0 := Put(core, 8, a[..]);
    var s := Put(s0, 12, b[..]);
    PutIs(core, 8, a[..]);
    PutIs(s0, 12, b[..]);
    ghost var t := PairHashHexCorrect(a[..], b[..], s);
    var s' := Run(PairHashHex(), s);
    GetIs(s', 8, HexHash(a[..]));
    GetIs(s', 12, HexHash(b[..]));
    Fill(a, Get(s', 8));
    Fill(b, Get(s', 12));
  }

  method CallHashHex1N(core: Core, buf: Buffer, n: nat)
    requires buf.Length == 64
    modifies buf
    ensures buf[..] == Chain(old(buf[..]), n)
  {
    hide Run, Put, Get, Chain, Cell;
    ghost var p := buf[..];
    var s := Put(core, 8, buf[..]);
    PutIs(core, 8, buf[..]);
    var s' := HashHex1N(s, n, p);
    GetIs(s', 8, Chain(p, n));
    Fill(buf, Get(s', 8));
  }

  method CallPairHashHexN(core: Core, a: Buffer, b: Buffer, n: nat)
    requires a.Length == 64 && b.Length == 64 && a != b
    modifies a, b
    ensures a[..] == Chain(old(a[..]), n) && b[..] == Chain(old(b[..]), n)
  {
    hide Run, Put, Get, Chain, Cell;
    ghost var (p, q) := (a[..], b[..]);
    var s0 := Put(core, 8, a[..]);
    var s := Put(s0, 12, b[..]);
    PutIs(core, 8, a[..]);
    PutIs(s0, 12, b[..]);
    var s' := PairHashHexN(s, n, p, q);
    GetIs(s', 8, Chain(p, n));
    GetIs(s', 12, Chain(q, n));
    Fill(a, Get(s', 8));
    Fill(b, Get(s', 12));
  }

  method CallRiskChain4x(core: Core, b0: Buffer, b1: Buffer, b2: Buffer, b3: Buffer, rounds: nat)
    requires b0.Length == 64 && b1.Length == 64 && b2.Length == 64 && b3.Length == 64
    requires b0 != b1 && b0 != b2 && b0 != b3 && b1 != b2 && b1 != b3 && b2 != b3
    modifies b0, b1, b2, b3
    ensures b0[..] == Chain(old(b0[..]), rounds) && b1[..] == Chain(old(b1[..]), rounds)
    ensures b2[..] == Chain(old(b2[..]), rounds) && b3[..] == Chain(old(b3[..]), rounds)
  {
    hide Run, Put, Get, Chain, Cell;
    ghost var (p0, p1, p2, p3) := (b0[..], b1[..], b2[..], b3[..]);
    var s0 := Put(core, 8, b0[..]);
    var s1 := Put(s0, 12, b1[..]);
    var s2 := Put(s1, 16, b2[..]);
    var s3 := Put(s2, 20, b3[..]);
    PutIs(core, 8, b0[..]);
    PutIs(s0, 12, b1[..]);
    PutIs(s1, 16, b2[..]);
    PutIs(s2, 20, b3[..]);
    var s' := RiskChain4x(s3, rounds, p0, p1, p2, p3);
    GetIs(s', 8, Chain(p0, rounds));
    GetIs(s', 12, Chain(p1, rounds));
    GetIs(s', 16, Chain(p2, rounds));
    GetIs(s', 20, Chain(p3, rounds));
    Fill(b0, Get(s', 8));
    Fill(b1, Get(s', 12));
    Fill(b2, Get(s', 16));
    Fill(b3, Get(s', 20));
  }

  // ---------------------------------------------------------------------------------
  // Hexadecimal text of a digest
  // ---------------------------------------------------------------------------------

  /** hexPairs[b]: both digits in one 16-bit value, high digit in the low byte. */
  function HexPair(b: Byte): (p: int)
    ensures 0 <= p < 0x1_0000
    ensures p % 256 == HexDigit(b / 16) && p / 256 == HexDigit(b % 16)
  {
    HexDigit(b / 16) + HexDigit(b % 16) * 256
  }

  /** hexEncode64: the table-driven encoder writes the ordinary lowercase hexadecimal text
      into the first 64 bytes. */
  method HexEncode64(buf: Buffer, sum: Buffer)
    requires buf.Length >= 64 && sum.Length == 32 && buf != sum
    modifies buf
    ensures buf[..64] == HexEncode(sum[..]) && buf[64..] == old(buf[64..])
  {
    for j := 0 to 32
      invariant buf[64..] == old(buf[64..])
      invariant forall i | 0 <= i < 2 * j ::
        buf[i] == if i % 2 == 0 then HexDigit(sum[i / 2] / 16) else HexDigit(sum[i / 2] % 16)
    {
      var p := HexPair(sum[j]);
      buf[2 * j] := p % 256;
      buf[2 * j + 1] := p / 256;
    }
  }

  // ---------------------------------------------------------------------------------
  // Fixed-shape hashes around a compression routine
  // ---------------------------------------------------------------------------------

  function Words(v: Vars): (ws: seq<Word>)
    ensures |ws| == 8
  {
    [v.a, v.b, v.c, v.d, v.e, v.f, v.g, v.h]
  }

  lemma DigestWord(v: Vars, i: nat)
    requires i < 8
    ensures DigestBytes(v)[4 * i..4 * i + 4] == Bytes(Words(v)[i])
  {
    hide Bytes;
    var (l, r) := (Bytes(v.a) + Bytes(v.b) + Bytes(v.c) + Bytes(v.d), Bytes(v.e) + Bytes(v.f) + Bytes(v.g) + Bytes(v.h));
    assert DigestBytes(v) == l + r;
  }

  /** shaPad64, byte by byte. */
  function ShaPad64(): (p: Message) {
    seq(64, i => if i == 0 then 0x80 else if i == 62 then 0x02 else 0)
  }

  lemma ShaPad64Block()
    ensures ParseBlock(ShaPad64()) == PAD64
  {
    var m := ParseBlock(ShaPad64());
    assert m[0] == 0x80000000 && m[15] == 0x200;
    assert forall i | 0 < i < 15 :: m[i] == PAD64[i];
    assert forall i | 0 <= i < 16 :: m[i] == PAD64[i];
  }

  /** Big-endian bytes of the eight words, one word at a time. */
  method WriteDigest(h: Vars, out: Buffer)
    requires out.Length == 32
    modifies out
    ensures out[..] == DigestBytes(h)
  {
    hide DigestBytes, Words;
    var d := Words(h);
    for i := 0 to 8
      invariant out[..4 * i] == DigestBytes(h)[..4 * i]
    {
      var v := d[i];
      out[4 * i] := v / 0x100_0000;
      out[4 * i + 1] := v / 0x1_0000 % 256;
      out[4 * i + 2] := v / 256 % 256;
      out[4 * i + 3] := v % 256;
      DigestWord(h, i);
      assert out[4 * i..4 * i + 4] == Bytes(v);
      assert out[..4 * i + 4] == out[..4 * i] + out[4 * i..4 * i + 4];
    }
    assert out[..32] == out[..];
  }

  /** kernelSum64: two compressions by a routine that does one block (SHA-NI or AVX2), the
      second on the constant block. */
  method KernelSum64(buf: Buffer, out: Buffer)
    requires buf.Length == 64 && out.Length == 32
    modifies out
    ensures out[..] == Hash(old(buf[..]))
  {
    hide Compress, ParseBlock, DigestBytes, Hash;
    ghost var p: Message := buf[..];
    var d := IV;
    d := Compress(d, ParseBlock(buf[..]));
    d := Compress(d, ParseBlock(ShaPad64()));
    ShaPad64Block();
    HashOf64(p);
    WriteDigest(d, out);
  }

  /** The chaining value in two cells. */
  function DigestOf(s: Core, dig: MemIx): Vars
    requires dig + 1 < MEM
  {
    var (x, y) := (s.m[dig], s.m[dig + 1]);
    Vars(x.d0, x.d1, x.d2, x.d3, y.d0, y.d1, y.d2, y.d3)
  }

  function PutDigest(s: Core, dig: MemIx, h: Vars): Core
    requires dig + 1 < MEM
  {
    s.(m := s.m[dig := Xmm(h.a, h.b, h.c, h.d)][dig + 1 := Xmm(h.e, h.f, h.g, h.h)])
  }

  /** kernelSum64Pair: both lanes through two calls of blockSHANI2. */
  method KernelSum64Pair(core: Core, inA: Buffer, inB: Buffer, outA: Buffer, outB: Buffer)
    requires inA.Length == 64 && inB.Length == 64 && outA.Length == 32 && outB.Length == 32 && outA != outB
    modifies outA, outB
    ensures outA[..] == Hash(old(inA[..])) && outB[..] == Hash(old(inB[..]))
  {
    hide Run, Put, Compress, ParseBlock, DigestBytes, Hash, Cell, BlockShani2, FromBytes;
    ghost var (p, q) := (inA[..], inB[..]);
    var s0 := PutDigest(PutDigest(core, 16, IV), 20, IV);
    var s1 := Put(s0, 8, inA[..]);
    var s2 := Put(s1, 12, inB[..]);
    PutIs(s0, 8, p);
    PutIs(s1, 12, q);
    ghost var t := BlockShani2Correct(IV, IV, p, q, s2);
    var s3 := Run(BlockShani2(), s2);
    var s4 := Put(s3, 8, ShaPad64());
    var s5 := Put(s4, 12, ShaPad64());
    PutIs(s3, 8, ShaPad64());
    PutIs(s4, 12, ShaPad64());
    ghost var (h, g) := (Compress(IV, ParseBlock(p)), Compress(IV, ParseBlock(q)));
    ghost var u := BlockShani2Correct(h, g, ShaPad64(), ShaPad64(), s5);
    var s6 := Run(BlockShani2(), s5);
    ShaPad64Block();
    HashOf64(p);
    HashOf64(q);
    WriteDigest(DigestOf(s6, 16), outA);
    WriteDigest(DigestOf(s6, 20), outB);
  }
}
