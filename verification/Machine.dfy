/** The part of an x86 core that the generated SHA-NI routines use: sixteen XMM registers,
    a flat memory of 16-byte cells, and the instructions of the listings with the meaning
    the Intel SDM gives them.  Operands keep the listings' order, source before destination. */
module Machine {
  import opened Bits
  import opened Sha256

  // ---------------------------------------------------------------------------------
  // XMM values
  // ---------------------------------------------------------------------------------

  /** A 128-bit value as four doublewords, lowest first. */
  datatype Xmm = Xmm(d0: Word, d1: Word, d2: Word, d3: Word) {
    function Dword(i: nat): Word
      requires i < 4
    {
      if i == 0 then d0 else if i == 1 then d1 else if i == 2 then d2 else d3
    }
  }

  type Bytes16 = s: seq<Byte> | |s| == 16 witness seq(16, _ => 0)

  /** Byte i of a doubleword, lowest first. */
  function ByteOf(w: Word, i: nat): Byte
    requires i < 4
  {
    if i == 0 then w % 256 else if i == 1 then w / 256 % 256 else if i == 2 then w / 0x1_0000 % 256 else w / 0x100_0000
  }

  function LeWord(b0: Byte, b1: Byte, b2: Byte, b3: Byte): Word {
    b0 + 256 * b1 + 0x1_0000 * b2 + 0x100_0000 * b3
  }

  function ToBytes(x: Xmm): Bytes16 {
    seq(16, i requires 0 <= i < 16 => ByteOf(x.Dword(i / 4), i % 4))
  }

  function FromBytes(s: Bytes16): Xmm {
    Xmm(LeWord(s[0], s[1], s[2], s[3]), LeWord(s[4], s[5], s[6], s[7]),
        LeWord(s[8], s[9], s[10], s[11]), LeWord(s[12], s[13], s[14], s[15]))
  }

  lemma LeWordBytes(b0: Byte, b1: Byte, b2: Byte, b3: Byte)
    ensures var w := LeWord(b0, b1, b2, b3);
            ByteOf(w, 0) == b0 && ByteOf(w, 1) == b1 && ByteOf(w, 2) == b2 && ByteOf(w, 3) == b3
  {
    var w: int := LeWord(b0, b1, b2, b3);
    var (q1, q2) := (b1 + 256 * b2 + 0x1_0000 * b3, b2 + 256 * b3);
    ModUnique(w, 256, q1, b0);
    ModUnique(w, 0x1_0000, q2, b0 + 256 * b1);
    ModUnique(w, 0x100_0000, b3, b0 + 256 * b1 + 0x1_0000 * b2);
    ModUnique(q1, 256, q2, b1);
    ModUnique(q2, 256, b3, b2);
  }

  lemma BytesLeWord(w: Word)
    ensures LeWord(ByteOf(w, 0), ByteOf(w, 1), ByteOf(w, 2), ByteOf(w, 3)) == w
  {
    var q := w / 0x1_0000;
    assert w == 0x1_0000 * q + w % 0x1_0000;
    assert q == 256 * (q / 256) + q % 256 && q / 256 == w / 0x100_0000;
    var r := w % 0x1_0000;
    assert r == 256 * (r / 256) + r % 256 && r / 256 == w / 256 % 256 && r % 256 == w % 256;
  }

  /** Sixteen bytes survive a load into a register. */
  lemma ToFromBytes(s: Bytes16)
    ensures ToBytes(FromBytes(s)) == s
  {
    hide LeWord, ByteOf;
    LeWordBytes(s[0], s[1], s[2], s[3]);
    LeWordBytes(s[4], s[5], s[6], s[7]);
    LeWordBytes(s[8], s[9], s[10], s[11]);
    LeWordBytes(s[12], s[13], s[14], s[15]);
    var t := ToBytes(FromBytes(s));
    assert t[0] == s[0] && t[1] == s[1] && t[2] == s[2] && t[3] == s[3];
    assert t[4] == s[4] && t[5] == s[5] && t[6] == s[6] && t[7] == s[7];
    assert t[8] == s[8] && t[9] == s[9] && t[10] == s[10] && t[11] == s[11];
    assert t[12] == s[12] && t[13] == s[13] && t[14] == s[14] && t[15] == s[15];
  }

  lemma FromToBytes(x: Xmm)
    ensures FromBytes(ToBytes(x)) == x
  {
    hide LeWord, ByteOf;
    BytesLeWord(x.d0);
    BytesLeWord(x.d1);
    BytesLeWord(x.d2);
    BytesLeWord(x.d3);
  }

  // ---------------------------------------------------------------------------------
  // Instruction meanings
  // ---------------------------------------------------------------------------------

  function PadddOf(x: Xmm, y: Xmm): Xmm {
    Xmm(Add(x.d0, y.d0), Add(x.d1, y.d1), Add(x.d2, y.d2), Add(x.d3, y.d3))
  }

  function PshufdOf(imm: Byte, x: Xmm): Xmm {
    Xmm(x.Dword(imm % 4), x.Dword(imm / 4 % 4), x.Dword(imm / 16 % 4), x.Dword(imm / 64))
  }

  /** PALIGNR by whole doublewords: the 256-bit value dst:src shifted right by 4*n bytes. */
  function PalignrOf(n: nat, dst: Xmm, src: Xmm): Xmm
    requires n <= 4
  {
    var q := [src.d0, src.d1, src.d2, src.d3, dst.d0, dst.d1, dst.d2, dst.d3];
    Xmm(q[n], q[n + 1], q[n + 2], q[n + 3])
  }

  /** One doubleword of PBLENDW: each 16-bit half comes from src when its mask bit is set. */
  function BlendHalves(lo: bool, hi: bool, dst: Word, src: Word): Word {
    (if lo then src else dst) % 0x1_0000 + (if hi then src else dst) / 0x1_0000 * 0x1_0000
  }

  predicate Bit(imm: Byte, i: nat)
    requires i < 8
  {
    imm / [1, 2, 4, 8, 16, 32, 64, 128][i] % 2 == 1
  }

  function PblendwOf(imm: Byte, dst: Xmm, src: Xmm): Xmm {
    Xmm(BlendHalves(Bit(imm, 0), Bit(imm, 1), dst.d0, src.d0), BlendHalves(Bit(imm, 2), Bit(imm, 3), dst.d1, src.d1),
        BlendHalves(Bit(imm, 4), Bit(imm, 5), dst.d2, src.d2), BlendHalves(Bit(imm, 6), Bit(imm, 7), dst.d3, src.d3))
  }

  function PshufbOf(dst: Xmm, mask: Xmm): Xmm {
    var (d, m) := (ToBytes(dst), ToBytes(mask));
    FromBytes(seq(16, i requires 0 <= i < 16 => if m[i] >= 128 then 0 else d[m[i] % 16]))
  }

  /** PSRLW by four bits, on the two 16-bit halves of each doubleword. */
  function Psrlw4Of(x: Xmm): Xmm {
    Xmm(ShiftHalves(x.d0), ShiftHalves(x.d1), ShiftHalves(x.d2), ShiftHalves(x.d3))
  }

  function ShiftHalves(w: Word): Word {
    w % 0x1_0000 / 16 + w / 0x1_0000 / 16 * 0x1_0000
  }

  function PandOf(x: Xmm, y: Xmm): Xmm {
    var (a, b) := (ToBytes(x), ToBytes(y));
    FromBytes(seq(16, i requires 0 <= i < 16 => And(a[i], b[i])))
  }

  /** PUNPCKLBW (half 0) and PUNPCKHBW (half 1): interleave eight bytes of dst and src. */
  function PunpckOf(half: nat, dst: Xmm, src: Xmm): Xmm
    requires half < 2
  {
    var (d, s) := (ToBytes(dst), ToBytes(src));
    FromBytes(seq(16, i requires 0 <= i < 16 => if i % 2 == 0 then d[8 * half + i / 2] else s[8 * half + i / 2]))
  }

  /** The sum both halves of a SHA256RNDS2 round share. */
  function SdmSum(e: Word, f: Word, g: Word, h: Word, wk: Word): Word {
    Add(Add(Add(Ch(e, f, g), BigSigma1(e)), wk), h)
  }

  function SdmA(t: Word, a: Word, b: Word, c: Word): Word {
    Add(Add(t, Maj(a, b, c)), BigSigma0(a))
  }

  /** SHA256RNDS2: dst holds C,D,G,H and src A,B,E,F, highest doubleword first; the two
      low doublewords of wk are the message words with their round constants added. */
  function Rnds2Of(dst: Xmm, src: Xmm, wk: Xmm): Xmm {
    var (a, b, e, f) := (src.d3, src.d2, src.d1, src.d0);
    var (c, d, g, h) := (dst.d3, dst.d2, dst.d1, dst.d0);
    var t := SdmSum(e, f, g, h, wk.d0);
    var a1 := SdmA(t, a, b, c);
    var e1 := Add(t, d);
    var u := SdmSum(e1, e, f, g, wk.d1);
    Xmm(e1, Add(u, c), a1, SdmA(u, a1, a, b))
  }

  function Msg1Of(dst: Xmm, src: Xmm): Xmm {
    Xmm(Add(dst.d0, SmallSigma0(dst.d1)), Add(dst.d1, SmallSigma0(dst.d2)),
        Add(dst.d2, SmallSigma0(dst.d3)), Add(dst.d3, SmallSigma0(src.d0)))
  }

  function Msg2Of(dst: Xmm, src: Xmm): Xmm {
    var w16 := Add(dst.d0, SmallSigma1(src.d2));
    var w17 := Add(dst.d1, SmallSigma1(src.d3));
    Xmm(w16, w17, Add(dst.d2, SmallSigma1(w16)), Add(dst.d3, SmallSigma1(w17)))
  }

  // ---------------------------------------------------------------------------------
  // Machine states, operands and execution
  // ---------------------------------------------------------------------------------

  const MEM := 24

  /** Registers and memory cells.  Cells 0..7 are the stack frame (cell i is 16*i(SP)),
      8..11, 12..15, 16..19 and 20..23 the lanes' 64-byte buffers. */
  datatype State = State(x: seq<Xmm>, m: seq<Xmm>) {
    predicate Valid() {
      |x| == 16 && |m| == MEM
    }
  }

  const ZERO := Xmm(0, 0, 0, 0)

  type Core = s: State | s.Valid() witness State(seq(16, _ => ZERO), seq(MEM, _ => ZERO))

  type RegIx = r: nat | r < 16
  type MemIx = i: nat | i < MEM

  /** X(r) is register Xr, M(i) a memory cell, C(v) a 16-byte read-only constant. */
  datatype Operand = X(r: RegIx) | M(i: MemIx) | C(v: Xmm)

  datatype Op =
    | Mov | Paddd | Pshufd(imm: Byte) | Palignr(dwords: nat) | Pblendw(imm: Byte)
    | Pshufb | Psrlw4 | Pand | Punpcklbw | Punpckhbw | Rnds2 | Msg1 | Msg2

  datatype Instr = Instr(op: Op, src: Operand, dst: Operand)

  function Read(o: Operand, s: Core): Xmm {
    match o
    case X(r) => s.x[r]
    case M(i) => s.m[i]
    case C(v) => v
  }

  function Write(o: Operand, v: Xmm, s: Core): Core {
    match o
    case X(r) => s.(x := s.x[r := v])
    case M(i) => s.(m := s.m[i := v])
    case C(_) => s
  }

  /** The value an instruction computes from its destination, its source and X0. */
  function Alu(op: Op, dst: Xmm, src: Xmm, x0: Xmm): Xmm {
    match op
    case Mov => src
    case Paddd => PadddOf(dst, src)
    case Pshufd(imm) => PshufdOf(imm, src)
    case Palignr(n) => if n <= 4 then PalignrOf(n, dst, src) else ZERO
    case Pblendw(imm) => PblendwOf(imm, dst, src)
    case Pshufb => PshufbOf(dst, src)
    case Psrlw4 => Psrlw4Of(dst)
    case Pand => PandOf(dst, src)
    case Punpcklbw => PunpckOf(0, dst, src)
    case Punpckhbw => PunpckOf(1, dst, src)
    case Rnds2 => Rnds2Of(dst, src, x0)
    case Msg1 => Msg1Of(dst, src)
    case Msg2 => Msg2Of(dst, src)
  }

  function Exec(i: Instr, s: Core): Core {
    Write(i.dst, Alu(i.op, Read(i.dst, s), Read(i.src, s), s.x[0]), s)
  }

  /** Straight-line code, first instruction first. */
  datatype Code = End | Then(head: Instr, tail: Code)

  function Run(c: Code, s: Core): Core {
    match c
    case End => s
    case Then(i, rest) => Run(rest, Exec(i, s))
  }

  function Append(c: Code, d: Code): Code {
    match c
    case End => d
    case Then(i, rest) => Then(i, Append(rest, d))
  }

  lemma {:induction false} RunAppend(c: Code, d: Code, s: Core)
    ensures Run(Append(c, d), s) == Run(d, Run(c, s))
  {
    match c
    case End =>
    case Then(i, rest) => RunAppend(rest, d, Exec(i, s));
  }
}
