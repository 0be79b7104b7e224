/** Byte-level facts about the in-register steps: the flip between memory order and message
    words, and the nibble-table hexadecimal expansion. */
module HexRegs {
  import opened Bits
  import opened Sha256
  import opened Machine
  import opened Gen2Lane

  lemma AndNibble(x: Byte)
    ensures And(x, 15) == x % 16
  {
    AndOnes(x, 4);
  }

  /** Shifting the 16-bit halves and masking leaves the high nibble of every byte. */
  lemma ShiftNibble(w: Word, i: nat)
    requires i < 4
    ensures ByteOf(ShiftHalves(w), i) % 16 == ByteOf(w, i) / 16
  {
    hide ByteOf, LeWord, ShiftHalves;
    var (b0, b1, b2, b3) := (ByteOf(w, 0), ByteOf(w, 1), ByteOf(w, 2), ByteOf(w, 3));
    HalvesOf(w);
    LeWordBytes(b0 / 16 + b1 % 16 * 16, b1 / 16, b2 / 16 + b3 % 16 * 16, b3 / 16);
  }

  lemma HalvesOf(w: Word)
    ensures ShiftHalves(w) == LeWord(ByteOf(w, 0) / 16 + ByteOf(w, 1) % 16 * 16, ByteOf(w, 1) / 16,
                                     ByteOf(w, 2) / 16 + ByteOf(w, 3) % 16 * 16, ByteOf(w, 3) / 16)
  {
    HalfBytes(w);
    var b0: int, b1: int, b2: int, b3: int := ByteOf(w, 0), ByteOf(w, 1), ByteOf(w, 2), ByteOf(w, 3);
    hide ByteOf;
    Sixteenth(b0, b1);
    Sixteenth(b2, b3);
  }

  lemma HalfBytes(w: Word)
    ensures w % 0x1_0000 == ByteOf(w, 0) as int + 256 * ByteOf(w, 1) as int
    ensures w / 0x1_0000 == ByteOf(w, 2) as int + 256 * ByteOf(w, 3) as int
  {
    var lo, hi: int := w % 0x1_0000, w / 0x1_0000;
    assert lo % 256 == w % 256 && lo / 256 == w / 256 % 256;
    assert hi / 256 == w / 0x100_0000;
  }

  lemma Sixteenth(lo: int, hi: int)
    requires 0 <= lo < 256 && 0 <= hi < 256
    ensures (lo + 256 * hi) / 16 == lo / 16 + hi % 16 * 16 + hi / 16 * 256
  {
  }

  // ---------------------------------------------------------------------------------
  // PSHUFB with the flip mask: memory order to message words and back
  // ---------------------------------------------------------------------------------

  /** The 16 bytes of a register, each doubleword big-endian. */
  function BeBytes(x: Xmm): Bytes16 {
    Bytes(x.d0) + Bytes(x.d1) + Bytes(x.d2) + Bytes(x.d3)
  }

  lemma FlipMaskBytes(i: nat)
    requires i < 16
    ensures ToBytes(FLIP_MASK)[i] == 4 * (i / 4) + 3 - i % 4
  {
    var s: Bytes16 := [3, 2, 1, 0, 7, 6, 5, 4, 11, 10, 9, 8, 15, 14, 13, 12];
    ToFromBytes(s);
    hide ToBytes, FromBytes;
  }

  /** Flipping reverses the bytes of each doubleword. */
  lemma FlipBytes(x: Xmm)
    ensures ToBytes(PshufbOf(x, FLIP_MASK)) == BeBytes(x)
  {
    hide PshufbOf, ToBytes, FromBytes, BeBytes;
    forall i | 0 <= i < 16 ensures ToBytes(PshufbOf(x, FLIP_MASK))[i] == BeBytes(x)[i] {
      PshufbAt(x, FLIP_MASK, i);
      FlipMaskBytes(i);
      var j := 4 * (i / 4) + 3 - i % 4;
      assert j < 16 && j / 4 == i / 4 && j % 4 == 3 - i % 4;
      ToBytesAt(x, j);
      BeBytesAt(x, i);
    }
  }

  lemma ToBytesAt(x: Xmm, i: nat)
    requires i < 16
    ensures ToBytes(x)[i] == ByteOf(x.Dword(i / 4), i % 4)
  {
  }

  lemma PshufbAt(dst: Xmm, mask: Xmm, i: nat)
    requires i < 16
    ensures ToBytes(PshufbOf(dst, mask))[i]
         == if ToBytes(mask)[i] >= 128 then 0 else ToBytes(dst)[ToBytes(mask)[i] % 16]
  {
    hide ToBytes, FromBytes;
    var (d, m) := (ToBytes(dst), ToBytes(mask));
    ToFromBytes(seq(16, i requires 0 <= i < 16 => if m[i] >= 128 then 0 else d[m[i] % 16]));
  }

  lemma PandAt(x: Xmm, y: Xmm, i: nat)
    requires i < 16
    ensures ToBytes(PandOf(x, y))[i] == And(ToBytes(x)[i], ToBytes(y)[i])
  {
    hide ToBytes, FromBytes;
    var (a, b) := (ToBytes(x), ToBytes(y));
    ToFromBytes(seq(16, i requires 0 <= i < 16 => And(a[i], b[i])));
  }

  lemma PunpckAt(half: nat, dst: Xmm, src: Xmm, i: nat)
    requires half < 2 && i < 16
    ensures ToBytes(PunpckOf(half, dst, src))[i]
         == if i % 2 == 0 then ToBytes(dst)[8 * half + i / 2] else ToBytes(src)[8 * half + i / 2]
  {
    hide ToBytes, FromBytes;
    var (d, s) := (ToBytes(dst), ToBytes(src));
    ToFromBytes(seq(16, i requires 0 <= i < 16 => if i % 2 == 0 then d[8 * half + i / 2] else s[8 * half + i / 2]));
  }

  lemma BeBytesAt(x: Xmm, i: nat)
    requires i < 16
    ensures BeBytes(x)[i] == ByteOf(x.Dword(i / 4), 3 - i % 4)
  {
  }

  // ---------------------------------------------------------------------------------
  // Nibble-table expansion
  // ---------------------------------------------------------------------------------

  /** The ASCII digits of the high (Psrlw4 first) or low nibbles of sixteen bytes. */
  function HighDigits(b: Xmm): Xmm {
    PshufbOf(HEX_LUT, PandOf(Psrlw4Of(b), MASK_0F))
  }

  function LowDigits(b: Xmm): Xmm {
    PshufbOf(HEX_LUT, PandOf(b, MASK_0F))
  }

  lemma LutByte(n: nat)
    requires n < 16
    ensures ToBytes(HEX_LUT)[n] == HexDigit(n)
  {
    hide ToBytes, FromBytes;
    ToFromBytes([48, 49, 50, 51, 52, 53, 54, 55, 56, 57, 97, 98, 99, 100, 101, 102]);
  }

  lemma MaskByte(i: nat)
    requires i < 16
    ensures ToBytes(MASK_0F)[i] == 15
  {
    hide ToBytes, FromBytes;
    ToFromBytes([15, 15, 15, 15, 15, 15, 15, 15, 15, 15, 15, 15, 15, 15, 15, 15]);
  }

  lemma LookupAt(idx: Xmm, i: nat, n: nat)
    requires i < 16 && n < 16 && ToBytes(idx)[i] == n
    ensures ToBytes(PshufbOf(HEX_LUT, idx))[i] == HexDigit(n)
  {
    hide PshufbOf, ToBytes, FromBytes;
    PshufbAt(HEX_LUT, idx, i);
    LutByte(n);
  }

  lemma LowDigitsAt(b: Xmm, i: nat)
    requires i < 16
    ensures ToBytes(LowDigits(b))[i] == HexDigit(ToBytes(b)[i] % 16)
  {
    hide PshufbOf, PandOf, ToBytes, FromBytes, And;
    PandAt(b, MASK_0F, i);
    MaskByte(i);
    AndNibble(ToBytes(b)[i]);
    LookupAt(PandOf(b, MASK_0F), i, ToBytes(b)[i] % 16);
  }

  lemma HighDigitsAt(b: Xmm, i: nat)
    requires i < 16
    ensures ToBytes(HighDigits(b))[i] == HexDigit(ToBytes(b)[i] / 16)
  {
    hide PshufbOf, PandOf, ToBytes, FromBytes, And, ByteOf, ShiftHalves;
    var sh := Psrlw4Of(b);
    PandAt(sh, MASK_0F, i);
    MaskByte(i);
    AndNibble(ToBytes(sh)[i]);
    ToBytesAt(b, i);
    ToBytesAt(sh, i);
    ShiftNibble(b.Dword(i / 4), i % 4);
    LookupAt(PandOf(sh, MASK_0F), i, ToBytes(b)[i] / 16);
  }

  /** Half h of the hexadecimal text of a register of big-endian words. */
  function HexQuad(x: Xmm, h: nat): Xmm
    requires h < 2
  {
    var b := PshufbOf(x, FLIP_MASK);
    PunpckOf(h, HighDigits(b), LowDigits(b))
  }

  /** The 32 bytes the epilogue emits for a register are the lowercase hex of its words. */
  lemma HexQuadBytes(x: Xmm)
    ensures ToBytes(HexQuad(x, 0)) + ToBytes(HexQuad(x, 1)) == HexEncode(BeBytes(x))
  {
    hide PshufbOf, PunpckOf, HighDigits, LowDigits, ToBytes, FromBytes, BeBytes;
    var b := PshufbOf(x, FLIP_MASK);
    FlipBytes(x);
    var out := ToBytes(HexQuad(x, 0)) + ToBytes(HexQuad(x, 1));
    forall i | 0 <= i < 32 ensures out[i] == HexEncode(BeBytes(x))[i] {
      var h := i / 16;
      PunpckAt(h, HighDigits(b), LowDigits(b), i % 16);
      var k := 8 * h + i % 16 / 2;
      assert k == i / 2 && i % 16 % 2 == i % 2;
      HighDigitsAt(b, k);
      LowDigitsAt(b, k);
    }
  }
}
