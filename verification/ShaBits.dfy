/** What the word functions and constants of FIPS 180-4 are, apart from how Sha256 computes
    them: the functions bit by bit, the constants as the fractions of roots of primes. */
module ShaBits {
  import opened Sha256

  // ---------------------------------------------------------------------------------
  // Section 4.1.2, bit by bit
  // ---------------------------------------------------------------------------------

  /** A bit position; adding to one wraps around at 32. */
  type Pos = bv5

  predicate OneAt(x: bv32, i: Pos) {
    x & (1 << i) != 0
  }

  /** Bit i of a word, lowest first. */
  predicate BitAt(w: Word, i: Pos) {
    OneAt(w as bv32, i)
  }

  /** Exclusive or of three. */
  predicate Odd(x: bool, y: bool, z: bool) {
    (x != y) != z
  }

  lemma BackToBits(x: bv32)
    ensures (x as Word) as bv32 == x
  {
  }

  // In the next lemmas the bits of i split the proof into 32 cases.

  lemma RotR2(x: bv32, i: Pos)
    ensures OneAt(RotR(x, 2), i) == OneAt(x, i + 2)
  {
    if i & 1 == 0 {} if i & 2 == 0 {} if i & 4 == 0 {} if i & 8 == 0 {} if i & 16 == 0 {}
  }

  lemma RotR6(x: bv32, i: Pos)
    ensures OneAt(RotR(x, 6), i) == OneAt(x, i + 6)
  {
    if i & 1 == 0 {} if i & 2 == 0 {} if i & 4 == 0 {} if i & 8 == 0 {} if i & 16 == 0 {}
  }

  lemma RotR7(x: bv32, i: Pos)
    ensures OneAt(RotR(x, 7), i) == OneAt(x, i + 7)
  {
    if i & 1 == 0 {} if i & 2 == 0 {} if i & 4 == 0 {} if i & 8 == 0 {} if i & 16 == 0 {}
  }

  lemma RotR11(x: bv32, i: Pos)
    ensures OneAt(RotR(x, 11), i) == OneAt(x, i + 11)
  {
    if i & 1 == 0 {} if i & 2 == 0 {} if i & 4 == 0 {} if i & 8 == 0 {} if i & 16 == 0 {}
  }

  lemma RotR13(x: bv32, i: Pos)
    ensures OneAt(RotR(x, 13), i) == OneAt(x, i + 13)
  {
    if i & 1 == 0 {} if i & 2 == 0 {} if i & 4 == 0 {} if i & 8 == 0 {} if i & 16 == 0 {}
  }

  lemma RotR17(x: bv32, i: Pos)
    ensures OneAt(RotR(x, 17), i) == OneAt(x, i + 17)
  {
    if i & 1 == 0 {} if i & 2 == 0 {} if i & 4 == 0 {} if i & 8 == 0 {} if i & 16 == 0 {}
  }

  lemma RotR18(x: bv32, i: Pos)
    ensures OneAt(RotR(x, 18), i) == OneAt(x, i + 18)
  {
    if i & 1 == 0 {} if i & 2 == 0 {} if i & 4 == 0 {} if i & 8 == 0 {} if i & 16 == 0 {}
  }

  lemma RotR19(x: bv32, i: Pos)
    ensures OneAt(RotR(x, 19), i) == OneAt(x, i + 19)
  {
    if i & 1 == 0 {} if i & 2 == 0 {} if i & 4 == 0 {} if i & 8 == 0 {} if i & 16 == 0 {}
  }

  lemma RotR22(x: bv32, i: Pos)
    ensures OneAt(RotR(x, 22), i) == OneAt(x, i + 22)
  {
    if i & 1 == 0 {} if i & 2 == 0 {} if i & 4 == 0 {} if i & 8 == 0 {} if i & 16 == 0 {}
  }

  lemma RotR25(x: bv32, i: Pos)
    ensures OneAt(RotR(x, 25), i) == OneAt(x, i + 25)
  {
    if i & 1 == 0 {} if i & 2 == 0 {} if i & 4 == 0 {} if i & 8 == 0 {} if i & 16 == 0 {}
  }

  lemma ShR3(x: bv32, i: Pos)
    ensures OneAt(ShR(x, 3), i) == (i < 29 && OneAt(x, i + 3))
  {
    if i & 1 == 0 {} if i & 2 == 0 {} if i & 4 == 0 {} if i & 8 == 0 {} if i & 16 == 0 {}
  }

  lemma ShR10(x: bv32, i: Pos)
    ensures OneAt(ShR(x, 10), i) == (i < 22 && OneAt(x, i + 10))
  {
    if i & 1 == 0 {} if i & 2 == 0 {} if i & 4 == 0 {} if i & 8 == 0 {} if i & 16 == 0 {}
  }

  lemma AndAt(x: bv32, y: bv32, i: Pos)
    ensures OneAt(x & y, i) == (OneAt(x, i) && OneAt(y, i))
  {
  }

  lemma XorAt(x: bv32, y: bv32, i: Pos)
    ensures OneAt(x ^ y, i) == (OneAt(x, i) != OneAt(y, i))
  {
  }

  lemma Gates(x: bv32, y: bv32)
    ensures AndBits(x, y) == x & y && XorBits(x, y) == x ^ y
  {
  }

  lemma AndOnes(x: bv32, y: bv32, i: Pos)
    ensures OneAt(AndBits(x, y), i) == (OneAt(x, i) && OneAt(y, i))
  {
    hide AndBits, XorBits, OneAt;
    Gates(x, y);
    AndAt(x, y, i);
  }

  lemma XorOnes(x: bv32, y: bv32, i: Pos)
    ensures OneAt(XorBits(x, y), i) == (OneAt(x, i) != OneAt(y, i))
  {
    hide AndBits, XorBits, OneAt;
    Gates(x, y);
    XorAt(x, y, i);
  }

  lemma NotOnes(x: bv32, i: Pos)
    ensures OneAt(NotBits(x), i) == !OneAt(x, i)
  {
    if i & 1 == 0 {} if i & 2 == 0 {} if i & 4 == 0 {} if i & 8 == 0 {} if i & 16 == 0 {}
  }

  /** Rotations by 2, 13 and 22. */
  lemma BigSigma0Bit(w: Word, i: Pos)
    ensures BitAt(BigSigma0(w), i) == Odd(BitAt(w, i + 2), BitAt(w, i + 13), BitAt(w, i + 22))
  {
    hide OneAt, XorBits, RotR, ShR;
    var x := w as bv32;
    BackToBits(BigSigma0Bits(x));
    RotR2(x, i);
    RotR13(x, i);
    RotR22(x, i);
    XorOnes(RotR(x, 2), RotR(x, 13), i);
    XorOnes(XorBits(RotR(x, 2), RotR(x, 13)), RotR(x, 22), i);
  }

  /** Rotations by 6, 11 and 25. */
  lemma BigSigma1Bit(w: Word, i: Pos)
    ensures BitAt(BigSigma1(w), i) == Odd(BitAt(w, i + 6), BitAt(w, i + 11), BitAt(w, i + 25))
  {
    hide OneAt, XorBits, RotR, ShR;
    var x := w as bv32;
    BackToBits(BigSigma1Bits(x));
    RotR6(x, i);
    RotR11(x, i);
    RotR25(x, i);
    XorOnes(RotR(x, 6), RotR(x, 11), i);
    XorOnes(XorBits(RotR(x, 6), RotR(x, 11)), RotR(x, 25), i);
  }

  /** Rotations by 7 and 18 and a shift by 3. */
  lemma SmallSigma0Bit(w: Word, i: Pos)
    ensures BitAt(SmallSigma0(w), i) == Odd(BitAt(w, i + 7), BitAt(w, i + 18), i < 29 && BitAt(w, i + 3))
  {
    hide OneAt, XorBits, RotR, ShR;
    var x := w as bv32;
    BackToBits(SmallSigma0Bits(x));
    RotR7(x, i);
    RotR18(x, i);
    ShR3(x, i);
    XorOnes(RotR(x, 7), RotR(x, 18), i);
    XorOnes(XorBits(RotR(x, 7), RotR(x, 18)), ShR(x, 3), i);
  }

  /** Rotations by 17 and 19 and a shift by 10. */
  lemma SmallSigma1Bit(w: Word, i: Pos)
    ensures BitAt(SmallSigma1(w), i) == Odd(BitAt(w, i + 17), BitAt(w, i + 19), i < 22 && BitAt(w, i + 10))
  {
    hide OneAt, XorBits, RotR, ShR;
    var x := w as bv32;
    BackToBits(SmallSigma1Bits(x));
    RotR17(x, i);
    RotR19(x, i);
    ShR10(x, i);
    XorOnes(RotR(x, 17), RotR(x, 19), i);
    XorOnes(XorBits(RotR(x, 17), RotR(x, 19)), ShR(x, 10), i);
  }

  lemma ChOnes(x: bv32, y: bv32, z: bv32, i: Pos)
    ensures OneAt(ChBits(x, y, z), i) == if OneAt(x, i) then OneAt(y, i) else OneAt(z, i)
  {
    hide OneAt, AndBits, XorBits, NotBits;
    AndOnes(x, y, i);
    NotOnes(x, i);
    AndOnes(NotBits(x), z, i);
    XorOnes(AndBits(x, y), AndBits(NotBits(x), z), i);
  }

  /** Choice: y's bit where x's is set, z's where it is not. */
  lemma ChBit(x: Word, y: Word, z: Word, i: Pos)
    ensures BitAt(Ch(x, y, z), i) == if BitAt(x, i) then BitAt(y, i) else BitAt(z, i)
  {
    hide OneAt, ChBits;
    BackToBits(ChBits(x as bv32, y as bv32, z as bv32));
    ChOnes(x as bv32, y as bv32, z as bv32, i);
  }

  lemma MajOnes(x: bv32, y: bv32, z: bv32, i: Pos)
    ensures OneAt(MajBits(x, y, z), i)
         == Odd(OneAt(x, i) && OneAt(y, i), OneAt(x, i) && OneAt(z, i), OneAt(y, i) && OneAt(z, i))
  {
    hide OneAt, AndBits, XorBits, NotBits;
    var (a, b, c) := (AndBits(x, y), AndBits(x, z), AndBits(y, z));
    AndOnes(x, y, i);
    AndOnes(x, z, i);
    AndOnes(y, z, i);
    XorOnes(a, b, i);
    XorOnes(XorBits(a, b), c, i);
  }

  /** Majority: the bit at least two of the three have. */
  lemma MajBit(x: Word, y: Word, z: Word, i: Pos)
    ensures BitAt(x, i) == BitAt(y, i) ==> BitAt(Maj(x, y, z), i) == BitAt(x, i)
    ensures BitAt(x, i) == BitAt(z, i) ==> BitAt(Maj(x, y, z), i) == BitAt(x, i)
    ensures BitAt(y, i) == BitAt(z, i) ==> BitAt(Maj(x, y, z), i) == BitAt(y, i)
  {
    hide OneAt, MajBits;
    BackToBits(MajBits(x as bv32, y as bv32, z as bv32));
    MajOnes(x as bv32, y as bv32, z as bv32, i);
  }

  // ---------------------------------------------------------------------------------
  // Sections 4.2.2 and 5.3.3: fractions of roots
  // ---------------------------------------------------------------------------------

  /** The first 64 primes. */
  function Prime(t: nat): nat
    requires t < 64
  {
    match t
    case 0 => 2 case 1 => 3 case 2 => 5 case 3 => 7 case 4 => 11 case 5 => 13 case 6 => 17 case 7 => 19
    case 8 => 23 case 9 => 29 case 10 => 31 case 11 => 37 case 12 => 41 case 13 => 43 case 14 => 47 case 15 => 53
    case 16 => 59 case 17 => 61 case 18 => 67 case 19 => 71 case 20 => 73 case 21 => 79 case 22 => 83 case 23 => 89
    case 24 => 97 case 25 => 101 case 26 => 103 case 27 => 107 case 28 => 109 case 29 => 113 case 30 => 127 case 31 => 131
    case 32 => 137 case 33 => 139 case 34 => 149 case 35 => 151 case 36 => 157 case 37 => 163 case 38 => 167 case 39 => 173
    case 40 => 179 case 41 => 181 case 42 => 191 case 43 => 193 case 44 => 197 case 45 => 199 case 46 => 211 case 47 => 223
    case 48 => 227 case 49 => 229 case 50 => 233 case 51 => 239 case 52 => 241 case 53 => 251 case 54 => 257 case 55 => 263
    case 56 => 269 case 57 => 271 case 58 => 277 case 59 => 281 case 60 => 283 case 61 => 293 case 62 => 307 case 63 => 311
  }

  const TWO32 := 0x1_0000_0000

  /** f is the first 32 bits of the fractional part of the square root of p, n its integer part. */
  predicate SqrtFraction(p: nat, n: nat, f: Word) {
    var r := n * TWO32 + f;
    r * r <= p * TWO32 * TWO32 < (r + 1) * (r + 1)
  }

  /** The same for the cube root. */
  predicate CbrtFraction(p: nat, n: nat, f: Word) {
    var r := n * TWO32 + f;
    r * r * r <= p * TWO32 * TWO32 * TWO32 < (r + 1) * (r + 1) * (r + 1)
  }

  /** The initial hash value comes from the square roots of the first eight primes. */
  lemma IvRoots()
    ensures SqrtFraction(2, 1, IV.a) && SqrtFraction(3, 1, IV.b) && SqrtFraction(5, 2, IV.c) && SqrtFraction(7, 2, IV.d)
    ensures SqrtFraction(11, 3, IV.e) && SqrtFraction(13, 3, IV.f) && SqrtFraction(17, 4, IV.g) && SqrtFraction(19, 4, IV.h)
  {
  }

  /** The integer part of the cube root of a prime below 343. */
  function RootOf(p: nat): nat {
    if p < 8 then 1 else if p < 27 then 2 else if p < 64 then 3 else if p < 125 then 4 else if p < 216 then 5 else 6
  }

  /** The round constants come from the cube roots of the first 64 primes. */
  lemma KRoots(t: nat)
    requires t < 64
    ensures CbrtFraction(Prime(t), RootOf(Prime(t)), K(t))
  {
  }

  // ---------------------------------------------------------------------------------
  // Section 5.1.1: padding
  // ---------------------------------------------------------------------------------

  /** The number a big-endian string of bytes denotes. */
  function BeValue(s: seq<Byte>): nat {
    if s == [] then 0 else 256 * BeValue(s[..|s| - 1]) + s[|s| - 1]
  }

  function Pow256(n: nat): (p: nat)
    ensures p >= 1
  {
    if n == 0 then 1 else 256 * Pow256(n - 1)
  }

  lemma {:induction false} BigEndianValue(n: nat, len: nat)
    requires n < Pow256(len)
    ensures BeValue(BigEndian(n, len)) == n
  {
    if len > 0 {
      BigEndianValue(n / 256, len - 1);
      var s := BigEndian(n, len);
      assert s[..|s| - 1] == BigEndian(n / 256, len - 1);
    }
  }

  /** A padded message is the message, one bit, then zeros, as few as fill whole blocks with
      the length in bits, which is in the last eight bytes. */
  lemma PadShape(msg: seq<Byte>)
    requires 8 * |msg| < 0x1_0000_0000_0000_0000
    ensures var (n, p) := (|msg|, Pad(msg));
      && |p| % 64 == 0 && n + 9 <= |p| < n + 9 + 64
      && p[..n] == msg && p[n] == 0x80 && (forall i | n < i < |p| - 8 :: p[i] == 0)
      && BeValue(p[|p| - 8..]) == 8 * n
  {
    assert Pow256(8) == 0x1_0000_0000_0000_0000 by {
      assert Pow256(4) == 0x1_0000_0000;
    }
    BigEndianValue(8 * |msg|, 8);
    hide BigEndian, BeValue, Pow256, Zeros;
    var p := Pad(msg);
    assert p == msg + [0x80] + seq(Zeros(|msg|), _ => 0) + BigEndian(8 * |msg|, 8);
    assert p[|p| - 8..] == BigEndian(8 * |msg|, 8);
  }
}
