/** SHA-256 as FIPS 180-4 defines it, together with the lowercase-hex encoding and the
    iterated hash that /risk promises.  Everything else in the project is proved against
    the functions of this module. */
module Sha256 {

  type Byte = b: int | 0 <= b < 256
  type Word = w: int | 0 <= w < 0x1_0000_0000

  // ---------------------------------------------------------------------------------
  // FIPS 180-4 section 4.1.2: functions on 32-bit words
  // ---------------------------------------------------------------------------------

  /** Addition modulo 2^32. */
  function Add(x: Word, y: Word): Word {
    (x + y) % 0x1_0000_0000
  }

  function AndBits(x: bv32, y: bv32): bv32 {
    x & y
  }

  function XorBits(x: bv32, y: bv32): bv32 {
    x ^ y
  }

  function NotBits(x: bv32): bv32 {
    !x
  }

  function ChBits(x: bv32, y: bv32, z: bv32): bv32 {
    XorBits(AndBits(x, y), AndBits(NotBits(x), z))
  }

  function MajBits(x: bv32, y: bv32, z: bv32): bv32 {
    XorBits(XorBits(AndBits(x, y), AndBits(x, z)), AndBits(y, z))
  }

  /** ROTR n and SHR n of section 3.2. */
  function RotR(x: bv32, n: bv6): bv32
    requires n <= 32
  {
    (x >> n) | (x << (32 - n))
  }

  function ShR(x: bv32, n: bv6): bv32
    requires n <= 32
  {
    x >> n
  }

  function BigSigma0Bits(x: bv32): bv32 {
    XorBits(XorBits(RotR(x, 2), RotR(x, 13)), RotR(x, 22))
  }

  function BigSigma1Bits(x: bv32): bv32 {
    XorBits(XorBits(RotR(x, 6), RotR(x, 11)), RotR(x, 25))
  }

  function SmallSigma0Bits(x: bv32): bv32 {
    XorBits(XorBits(RotR(x, 7), RotR(x, 18)), ShR(x, 3))
  }

  function SmallSigma1Bits(x: bv32): bv32 {
    XorBits(XorBits(RotR(x, 17), RotR(x, 19)), ShR(x, 10))
  }

  function Ch(x: Word, y: Word, z: Word): Word {
    ChBits(x as bv32, y as bv32, z as bv32) as Word
  }

  function Maj(x: Word, y: Word, z: Word): Word {
    MajBits(x as bv32, y as bv32, z as bv32) as Word
  }

  function BigSigma0(w: Word): Word {
    BigSigma0Bits(w as bv32) as Word
  }

  function BigSigma1(w: Word): Word {
    BigSigma1Bits(w as bv32) as Word
  }

  function SmallSigma0(w: Word): Word {
    SmallSigma0Bits(w as bv32) as Word
  }

  function SmallSigma1(w: Word): Word {
    SmallSigma1Bits(w as bv32) as Word
  }

  lemma AddComm(x: Word, y: Word)
    ensures Add(x, y) == Add(y, x)
  {
  }

  lemma AddAssoc(x: Word, y: Word, z: Word)
    ensures Add(Add(x, y), z) == Add(x, Add(y, z))
  {
    assert Add(Add(x, y), z) == (x + y + z) % 0x1_0000_0000;
  }

  // ---------------------------------------------------------------------------------
  // Sections 4.2.2 and 5.3.3: constants
  // ---------------------------------------------------------------------------------

  function K(t: nat): Word
    requires t < 64
  {
    if t < 16 then match t
      case 0 => 0x428a2f98 case 1 => 0x71374491 case 2 => 0xb5c0fbcf case 3 => 0xe9b5dba5
      case 4 => 0x3956c25b case 5 => 0x59f111f1 case 6 => 0x923f82a4 case 7 => 0xab1c5ed5
      case 8 => 0xd807aa98 case 9 => 0x12835b01 case 10 => 0x243185be case 11 => 0x550c7dc3
      case 12 => 0x72be5d74 case 13 => 0x80deb1fe case 14 => 0x9bdc06a7 case 15 => 0xc19bf174
    else if t < 32 then match t
      case 16 => 0xe49b69c1 case 17 => 0xefbe4786 case 18 => 0x0fc19dc6 case 19 => 0x240ca1cc
      case 20 => 0x2de92c6f case 21 => 0x4a7484aa case 22 => 0x5cb0a9dc case 23 => 0x76f988da
      case 24 => 0x983e5152 case 25 => 0xa831c66d case 26 => 0xb00327c8 case 27 => 0xbf597fc7
      case 28 => 0xc6e00bf3 case 29 => 0xd5a79147 case 30 => 0x06ca6351 case 31 => 0x14292967
    else if t < 48 then match t
      case 32 => 0x27b70a85 case 33 => 0x2e1b2138 case 34 => 0x4d2c6dfc case 35 => 0x53380d13
      case 36 => 0x650a7354 case 37 => 0x766a0abb case 38 => 0x81c2c92e case 39 => 0x92722c85
      case 40 => 0xa2bfe8a1 case 41 => 0xa81a664b case 42 => 0xc24b8b70 case 43 => 0xc76c51a3
      case 44 => 0xd192e819 case 45 => 0xd6990624 case 46 => 0xf40e3585 case 47 => 0x106aa070
    else match t
      case 48 => 0x19a4c116 case 49 => 0x1e376c08 case 50 => 0x2748774c case 51 => 0x34b0bcb5
      case 52 => 0x391c0cb3 case 53 => 0x4ed8aa4a case 54 => 0x5b9cca4f case 55 => 0x682e6ff3
      case 56 => 0x748f82ee case 57 => 0x78a5636f case 58 => 0x84c87814 case 59 => 0x8cc70208
      case 60 => 0x90befffa case 61 => 0xa4506ceb case 62 => 0xbef9a3f7 case 63 => 0xc67178f2
  }

  /** Working variables (and chaining value) a..h of section 6.2. */
  datatype Vars = Vars(a: Word, b: Word, c: Word, d: Word, e: Word, f: Word, g: Word, h: Word)

  const IV := Vars(0x6a09e667, 0xbb67ae85, 0x3c6ef372, 0xa54ff53a,
                   0x510e527f, 0x9b05688c, 0x1f83d9ab, 0x5be0cd19)

  // ---------------------------------------------------------------------------------
  // Section 6.2.2: schedule, rounds, compression
  // ---------------------------------------------------------------------------------

  type Block = m: seq<Word> | |m| == 16 witness seq(16, _ => 0)

  /** Message schedule word t of block m. */
  function Sched(m: Block, t: nat): Word {
    if t < 16 then m[t]
    else Add(Add(Add(SmallSigma1(Sched(m, t - 2)), Sched(m, t - 7)), SmallSigma0(Sched(m, t - 15))), Sched(m, t - 16))
  }

  function T1(v: Vars, k: Word, w: Word): Word {
    Add(Add(Add(Add(v.h, BigSigma1(v.e)), Ch(v.e, v.f, v.g)), k), w)
  }

  function T2(v: Vars): Word {
    Add(BigSigma0(v.a), Maj(v.a, v.b, v.c))
  }

  function Round(v: Vars, k: Word, w: Word): Vars {
    Vars(Add(T1(v, k, w), T2(v)), v.a, v.b, v.c, Add(v.d, T1(v, k, w)), v.e, v.f, v.g)
  }

  /** The working variables after the first n rounds on block m. */
  function Rounds(h: Vars, m: Block, n: nat): Vars
    requires n <= 64
  {
    if n == 0 then h else Round(Rounds(h, m, n - 1), K(n - 1), Sched(m, n - 1))
  }

  function Feed(x: Vars, y: Vars): Vars {
    Vars(Add(x.a, y.a), Add(x.b, y.b), Add(x.c, y.c), Add(x.d, y.d),
         Add(x.e, y.e), Add(x.f, y.f), Add(x.g, y.g), Add(x.h, y.h))
  }

  function Compress(h: Vars, m: Block): Vars {
    Feed(h, Rounds(h, m, 64))
  }

  // ---------------------------------------------------------------------------------
  // Sections 5.1.1, 5.2.1 and 6.2: padding, parsing, the hash of a byte string
  // ---------------------------------------------------------------------------------

  /** n as a big-endian string of len bytes (the low 8*len bits of n). */
  function BigEndian(n: nat, len: nat): (s: seq<Byte>)
    ensures |s| == len
  {
    if len == 0 then [] else BigEndian(n / 256, len - 1) + [n % 256]
  }

  /** How many zeros take n bytes, a one bit and the length to a multiple of 64. */
  function Zeros(n: nat): (z: nat)
    ensures z < 64 && (n + z + 9) % 64 == 0
  {
    var r := n % 64;
    assert n == 64 * (n / 64) + r;
    if r <= 55 then 55 - r else 119 - r
  }

  /** The message, a single 1 bit, zeros up to 56 modulo 64, and the length in bits. */
  function Pad(msg: seq<Byte>): (p: seq<Byte>)
    ensures |p| % 64 == 0 && msg <= p
  {
    msg + [0x80] + seq(Zeros(|msg|), _ => 0) + BigEndian(8 * |msg|, 8)
  }

  function BeWord(b0: Byte, b1: Byte, b2: Byte, b3: Byte): Word {
    ((b0 * 256 + b1) * 256 + b2) * 256 + b3
  }

  function ParseBlock(p: seq<Byte>): Block
    requires |p| == 64
  {
    seq(16, i requires 0 <= i < 16 => BeWord(p[4 * i], p[4 * i + 1], p[4 * i + 2], p[4 * i + 3]))
  }

  /** Folds the compression over the consecutive 64-byte blocks of p. */
  function HashBlocks(h: Vars, p: seq<Byte>): Vars
    decreases |p|
  {
    hide Compress;
    if |p| < 64 then h else HashBlocks(Compress(h, ParseBlock(p[..64])), p[64..])
  }

  function Bytes(w: Word): (s: seq<Byte>)
    ensures |s| == 4
  {
    [w / 0x100_0000, w / 0x1_0000 % 256, w / 256 % 256, w % 256]
  }

  function DigestBytes(v: Vars): (s: seq<Byte>)
    ensures |s| == 32
  {
    Bytes(v.a) + Bytes(v.b) + Bytes(v.c) + Bytes(v.d) + Bytes(v.e) + Bytes(v.f) + Bytes(v.g) + Bytes(v.h)
  }

  function Hash(msg: seq<Byte>): (d: seq<Byte>)
    ensures |d| == 32
  {
    DigestBytes(HashBlocks(IV, Pad(msg)))
  }

  // ---------------------------------------------------------------------------------
  // Messages of exactly 64 bytes: two blocks, the second one constant
  // ---------------------------------------------------------------------------------

  /** The padding block of every 64-byte message, as words. */
  const PAD64: Block := [0x80000000, 0, 0, 0, 0, 0, 0, 0, 0, 0, 0, 0, 0, 0, 0, 0x200]

  type Message = p: seq<Byte> | |p| == 64 witness seq(64, _ => 0)

  /** A 64-byte message hashes in two compressions, the second on the constant block. */
  lemma HashOf64(p: Message)
    ensures Hash(p) == DigestBytes(Compress(Compress(IV, ParseBlock(p)), PAD64))
  {
    var pad := [0x80] + seq(55, _ => 0) + BigEndian(512, 8);
    assert Pad(p) == p + pad;
    PaddingBlock();
    assert ParseBlock(pad) == PAD64;
    assert (p + pad)[..64] == p && (p + pad)[64..] == pad;
    var h := Compress(IV, ParseBlock(p));
    assert pad[..64] == pad && pad[64..] == [];
    hide Compress, ParseBlock;
    calc {
      HashBlocks(IV, p + pad);
      HashBlocks(h, pad);
      HashBlocks(Compress(h, PAD64), []);
      Compress(h, PAD64);
    }
  }

  lemma PaddingBlock()
    ensures ParseBlock([0x80] + seq(55, _ => 0) + BigEndian(512, 8)) == PAD64
  {
    Length512();
    hide BigEndian;
    var p := [0x80] + seq(55, _ => 0) + [0, 0, 0, 0, 0, 0, 2, 0];
    var m := ParseBlock(p);
    assert m[0] == 0x80000000 && m[15] == 0x200;
    assert forall i | 0 < i < 15 :: m[i] == PAD64[i];
    assert forall i | 0 <= i < 16 :: m[i] == PAD64[i];
  }

  lemma Length512()
    ensures BigEndian(512, 8) == [0, 0, 0, 0, 0, 0, 2, 0]
  {
    LeadingZeros(6);
    assert BigEndian(2, 7) == BigEndian(0, 6) + [2];
    assert BigEndian(512, 8) == BigEndian(2, 7) + [0];
  }

  lemma {:induction false} LeadingZeros(n: nat)
    ensures BigEndian(0, n) == seq(n, _ => 0)
  {
    if n > 0 {
      LeadingZeros(n - 1);
    }
  }

  // ---------------------------------------------------------------------------------
  // Lowercase hexadecimal and the iterated hash
  // ---------------------------------------------------------------------------------

  /** ASCII of a hexadecimal digit. */
  function HexDigit(n: int): Byte
    requires 0 <= n < 16
  {
    if n < 10 then 48 + n else 87 + n
  }

  function HexEncode(s: seq<Byte>): (t: seq<Byte>)
    ensures |t| == 2 * |s|
  {
    seq(2 * |s|, i requires 0 <= i < 2 * |s| =>
      if i % 2 == 0 then HexDigit(s[i / 2] / 16) else HexDigit(s[i / 2] % 16))
  }

  function HexHash(s: seq<Byte>): (t: Message) {
    HexEncode(Hash(s))
  }

  /** n rounds of h = hex(sha256(h)). */
  function Chain(s: seq<Byte>, n: nat): (t: seq<Byte>)
    ensures |s| == 64 || n > 0 ==> |t| == 64
  {
    if n == 0 then s else HexHash(Chain(s, n - 1))
  }

  const ROUNDS := 50000

  /** The value /risk promises for a seed. */
  function RiskHash(seed: seq<Byte>): (t: Message) {
    Chain(seed, ROUNDS)
  }
}
