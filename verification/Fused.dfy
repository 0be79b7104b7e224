/** The fused single-shot routines: hashHex1 and pairHashHex replace 64-byte buffers by the
    lowercase hex of their SHA-256, entirely in registers. */
module Fused {
  import opened Sha256
  import opened Machine
  import opened Gen2Lane
  import opened Refine
  import opened Lanes
  import opened HexRegs

  // ---------------------------------------------------------------------------------
  // Buffers in memory cells
  // ---------------------------------------------------------------------------------

  function Cell(p: Message, i: nat): Xmm
    requires i < 4
  {
    FromBytes(p[16 * i..16 * i + 16])
  }

  /** The lane's buffer holds the 64 bytes p. */
  predicate Holds(r: LaneRegs, s: Core, p: Message) {
    forall i | 0 <= i < 4 :: s.m[r.data + i] == Cell(p, i)
  }

  lemma LeBeWord(b0: Byte, b1: Byte, b2: Byte, b3: Byte)
    ensures var w := LeWord(b0, b1, b2, b3);
            LeWord(ByteOf(w, 3), ByteOf(w, 2), ByteOf(w, 1), ByteOf(w, 0)) == BeWord(b0, b1, b2, b3)
  {
    LeWordBytes(b0, b1, b2, b3);
    hide ByteOf;
  }

  /** A flipped cell is the corresponding quad of the parsed message block. */
  lemma FlippedCell(p: Message, i: nat)
    requires i < 4
    ensures PshufbOf(Cell(p, i), FLIP_MASK) == Quad(ParseBlock(p), i)
  {
    hide PshufbOf, ByteOf, LeWord, BeWord, BeBytes;
    var x := Cell(p, i);
    var y := PshufbOf(x, FLIP_MASK);
    FlipBytes(x);
    FromToBytes(y);
    FlippedDword(p, i, 0, y);
    FlippedDword(p, i, 1, y);
    FlippedDword(p, i, 2, y);
    FlippedDword(p, i, 3, y);
    hide Add, SmallSigma0, SmallSigma1;
  }

  lemma FlippedDword(p: Message, i: nat, j: nat, y: Xmm)
    requires i < 4 && j < 4
    requires ToBytes(y) == BeBytes(Cell(p, i))
    ensures y.Dword(j) == BeWord(p[16 * i + 4 * j], p[16 * i + 4 * j + 1], p[16 * i + 4 * j + 2], p[16 * i + 4 * j + 3])
  {
    hide ByteOf, LeWord, BeWord, BeBytes, FromBytes, ToBytes;
    var x := Cell(p, i);
    var k := 4 * j;
    CellDword(p, i, j);
    BeBytesAt(x, k);
    BeBytesAt(x, k + 1);
    BeBytesAt(x, k + 2);
    BeBytesAt(x, k + 3);
    ToBytesAt(y, k);
    ToBytesAt(y, k + 1);
    ToBytesAt(y, k + 2);
    ToBytesAt(y, k + 3);
    BytesLeWord(y.Dword(j));
    LeBeWord(p[16 * i + k], p[16 * i + k + 1], p[16 * i + k + 2], p[16 * i + k + 3]);
  }

  lemma CellDword(p: Message, i: nat, j: nat)
    requires i < 4 && j < 4
    ensures Cell(p, i).Dword(j) == LeWord(p[16 * i + 4 * j], p[16 * i + 4 * j + 1], p[16 * i + 4 * j + 2], p[16 * i + 4 * j + 3])
  {
    hide LeWord;
  }

  lemma HexEncodeConcat(a: seq<Byte>, b: seq<Byte>)
    ensures HexEncode(a + b) == HexEncode(a) + HexEncode(b)
  {
  }

  /** The four quads of hex digits of a digest are the cells of its hex text. */
  lemma DigestCells(h: Vars)
    ensures var t := HexEncode(DigestBytes(h));
            var (x, y) := (Xmm(h.a, h.b, h.c, h.d), Xmm(h.e, h.f, h.g, h.h));
            [HexQuad(x, 0), HexQuad(x, 1), HexQuad(y, 0), HexQuad(y, 1)] == [Cell(t, 0), Cell(t, 1), Cell(t, 2), Cell(t, 3)]
  {
    hide HexQuad, HexEncode, FromBytes, ToBytes, Bytes;
    var (x, y) := (Xmm(h.a, h.b, h.c, h.d), Xmm(h.e, h.f, h.g, h.h));
    assert DigestBytes(h) == BeBytes(x) + BeBytes(y);
    HexEncodeConcat(BeBytes(x), BeBytes(y));
    HexQuadBytes(x);
    HexQuadBytes(y);
    FromToBytes(HexQuad(x, 0));
    FromToBytes(HexQuad(x, 1));
    FromToBytes(HexQuad(y, 0));
    FromToBytes(HexQuad(y, 1));
    hide BeBytes, DigestBytes;
    var t := HexEncode(DigestBytes(h));
    assert t == ToBytes(HexQuad(x, 0)) + ToBytes(HexQuad(x, 1)) + ToBytes(HexQuad(y, 0)) + ToBytes(HexQuad(y, 1));
    assert t[0..16] == ToBytes(HexQuad(x, 0));
    assert t[16..32] == ToBytes(HexQuad(x, 1));
    assert t[32..48] == ToBytes(HexQuad(y, 0));
    assert t[48..64] == ToBytes(HexQuad(y, 1));
  }

  // ---------------------------------------------------------------------------------
  // Entry: shuffle the initial value into both lanes' state registers
  // ---------------------------------------------------------------------------------

  /** s' agrees with s on memory and on every register outside regs. */
  ghost predicate Others(s: Core, s': Core, regs: set<nat>) {
    s'.m == s.m && forall i: RegIx | i !in regs :: s'.x[i] == s.x[i]
  }

  const IV_LO := Xmm(IV.a, IV.b, IV.c, IV.d)
  const IV_HI := Xmm(IV.e, IV.f, IV.g, IV.h)

  /** The four doubleword permutations of the listings. */
  lemma Permutations(x: Xmm, y: Xmm)
    ensures PblendwOf(0xf0, x, y) == Xmm(x.d0, x.d1, y.d2, y.d3)
    ensures PshufdOf(0xb1, x) == Xmm(x.d1, x.d0, x.d3, x.d2)
    ensures PshufdOf(0x1b, x) == Xmm(x.d3, x.d2, x.d1, x.d0)
    ensures PalignrOf(2, x, y) == Xmm(y.d2, y.d3, x.d0, x.d1)
  {
  }

  /** From a,b,c,d / e,f,g,h order to the order SHA256RNDS2 wants. */
  function Shuffle(r: LaneRegs, rest: Code): Code {
    Then3(Instr(Pshufd(0xb1), X(r.s1), X(r.s1)), Instr(Pshufd(0x1b), X(r.s2), X(r.s2)), Instr(Mov, X(r.s1), X(r.t)),
    Then(Instr(Palignr(2), X(r.s2), X(r.s1)), Then(Instr(Pblendw(0xf0), X(r.t), X(r.s2)), rest)))
  }

  lemma RunShuffle(r: LaneRegs, h: Vars, rest: Code, s: Core) returns (s': Core)
    requires s.x[r.s1] == Xmm(h.a, h.b, h.c, h.d) && s.x[r.s2] == Xmm(h.e, h.f, h.g, h.h)
    ensures Run(Shuffle(r, rest), s) == Run(rest, s')
    ensures s'.x[r.s1] == Abef(h) && s'.x[r.s2] == Cdgh(h)
    ensures Others(s, s', {r.s1, r.s2, r.t})
  {
    hide Run, PblendwOf, PshufdOf, PalignrOf;
    var i1, i2, i3 := Instr(Pshufd(0xb1), X(r.s1), X(r.s1)), Instr(Pshufd(0x1b), X(r.s2), X(r.s2)), Instr(Mov, X(r.s1), X(r.t));
    var i4, i5 := Instr(Palignr(2), X(r.s2), X(r.s1)), Instr(Pblendw(0xf0), X(r.t), X(r.s2));
    Run3(i1, i2, i3, Then(i4, Then(i5, rest)), s);
    var t := Exec(i3, Exec(i2, Exec(i1, s)));
    s' := Exec(i5, Exec(i4, t));
    Run2(i4, i5, rest, t);
    Permutations(s.x[r.s1], s.x[r.s2]);
    Permutations(s.x[r.s2], s.x[r.s1]);
    Permutations(t.x[r.s1], t.x[r.s2]);
    Permutations(t.x[r.s2], t.x[r.t]);
  }

  /** Loads flip mask and initial value, and saves the shuffled value in cells 0 and 1. */
  function Entry(rest: Code): Code {
    Then3(Instr(Mov, C(FLIP_MASK), X(FLIP)), Instr(Mov, C(IV_LO), X(1)), Instr(Mov, C(IV_HI), X(2)),
    Shuffle(RegsOf(A), Then(Instr(Mov, X(1), M(0)), Then(Instr(Mov, X(2), M(1)), rest))))
  }

  lemma RunEntry(rest: Code, s: Core) returns (s': Core)
    ensures Run(Entry(rest), s) == Run(rest, s')
    ensures s'.x[FLIP] == FLIP_MASK && s'.x[1] == Abef(IV) && s'.x[2] == Cdgh(IV)
    ensures s'.m[0] == Abef(IV) && s'.m[1] == Cdgh(IV)
    ensures forall i: MemIx | i >= 2 :: s'.m[i] == s.m[i]
  {
    hide Shuffle, FromBytes, Abef, Cdgh;
    var i1, i2, i3 := Instr(Mov, C(FLIP_MASK), X(FLIP)), Instr(Mov, C(IV_LO), X(1)), Instr(Mov, C(IV_HI), X(2));
    var i4, i5 := Instr(Mov, X(1), M(0)), Instr(Mov, X(2), M(1));
    Run3(i1, i2, i3, Shuffle(RegsOf(A), Then(i4, Then(i5, rest))), s);
    var t := RunShuffle(RegsOf(A), IV, Then(i4, Then(i5, rest)), Exec(i3, Exec(i2, Exec(i1, s))));
    s' := Exec(i5, Exec(i4, t));
    Run2(i4, i5, rest, t);
  }

  // ---------------------------------------------------------------------------------
  // Feedforward: add the chaining value saved in two cells, through a temporary
  // ---------------------------------------------------------------------------------

  function Feedforward(r: LaneRegs, t: RegIx, lo: MemIx, hi: MemIx, rest: Code): Code {
    Then3(Instr(Mov, M(lo), X(t)), Instr(Paddd, X(t), X(r.s1)), Instr(Mov, M(hi), X(t)),
    Then(Instr(Paddd, X(t), X(r.s2)), rest))
  }

  lemma FeedQuads(x: Vars, y: Vars)
    ensures PadddOf(Abef(y), Abef(x)) == Abef(Feed(x, y)) && PadddOf(Cdgh(y), Cdgh(x)) == Cdgh(Feed(x, y))
  {
    hide Add;
    AddComm(x.a, y.a);
    AddComm(x.b, y.b);
    AddComm(x.c, y.c);
    AddComm(x.d, y.d);
    AddComm(x.e, y.e);
    AddComm(x.f, y.f);
    AddComm(x.g, y.g);
    AddComm(x.h, y.h);
  }

  /** Chaining value h saved in cells lo and hi. */
  predicate Saved(s: Core, lo: MemIx, hi: MemIx, h: Vars) {
    s.m[lo] == Abef(h) && s.m[hi] == Cdgh(h)
  }

  lemma RunFeedforward(r: LaneRegs, t: RegIx, lo: MemIx, hi: MemIx, h: Vars, y: Vars, rest: Code, s: Core)
    returns (s': Core)
    requires r.s1 != t && r.s2 != t
    requires Saved(s, lo, hi, h)
    requires s.x[r.s1] == Abef(y) && s.x[r.s2] == Cdgh(y)
    ensures Run(Feedforward(r, t, lo, hi, rest), s) == Run(rest, s')
    ensures s'.x[r.s1] == Abef(Feed(h, y)) && s'.x[r.s2] == Cdgh(Feed(h, y))
    ensures Others(s, s', {t, r.s1, r.s2})
  {
    hide Run, PadddOf, Abef, Cdgh, Feed;
    var i1, i2, i3, i4 := Instr(Mov, M(lo), X(t)), Instr(Paddd, X(t), X(r.s1)), Instr(Mov, M(hi), X(t)), Instr(Paddd, X(t), X(r.s2));
    Run3(i1, i2, i3, Then(i4, rest), s);
    var u := Exec(i3, Exec(i2, Exec(i1, s)));
    s' := Exec(i4, u);
    Run1(i4, rest, u);
    FeedQuads(h, y);
  }

  function Save(r: LaneRegs, lo: MemIx, hi: MemIx, rest: Code): Code {
    Then(Instr(Mov, X(r.s1), M(lo)), Then(Instr(Mov, X(r.s2), M(hi)), rest))
  }

  lemma RunSave(r: LaneRegs, lo: MemIx, hi: MemIx, h: Vars, rest: Code, s: Core) returns (s': Core)
    requires lo != hi
    requires s.x[r.s1] == Abef(h) && s.x[r.s2] == Cdgh(h)
    ensures Run(Save(r, lo, hi, rest), s) == Run(rest, s')
    ensures Saved(s', lo, hi, h) && s'.x == s.x
    ensures forall i: MemIx | i != lo && i != hi :: s'.m[i] == s.m[i]
  {
    hide Abef, Cdgh;
    var i, j := Instr(Mov, X(r.s1), M(lo)), Instr(Mov, X(r.s2), M(hi));
    s' := Exec(j, Exec(i, s));
    Run2(i, j, rest, s);
  }

  // ---------------------------------------------------------------------------------
  // Epilogue: back to digest order, then hexadecimal text
  // ---------------------------------------------------------------------------------

  /** Undoes Shuffle, through temporary t. */
  function Unshuffle(r: LaneRegs, t: RegIx, rest: Code): Code {
    Then3(Instr(Pshufd(0x1b), X(r.s1), X(r.s1)), Instr(Pshufd(0xb1), X(r.s2), X(r.s2)), Instr(Mov, X(r.s1), X(t)),
    Then(Instr(Pblendw(0xf0), X(r.s2), X(r.s1)), Then(Instr(Palignr(2), X(t), X(r.s2)), rest)))
  }

  lemma RunUnshuffle(r: LaneRegs, t: RegIx, h: Vars, rest: Code, s: Core) returns (s': Core)
    requires t != r.s1 && t != r.s2
    requires s.x[r.s1] == Abef(h) && s.x[r.s2] == Cdgh(h)
    ensures Run(Unshuffle(r, t, rest), s) == Run(rest, s')
    ensures s'.x[r.s1] == Xmm(h.a, h.b, h.c, h.d) && s'.x[r.s2] == Xmm(h.e, h.f, h.g, h.h)
    ensures Others(s, s', {r.s1, r.s2, t})
  {
    hide Run, PblendwOf, PshufdOf, PalignrOf;
    var i1, i2, i3 := Instr(Pshufd(0x1b), X(r.s1), X(r.s1)), Instr(Pshufd(0xb1), X(r.s2), X(r.s2)), Instr(Mov, X(r.s1), X(t));
    var i4, i5 := Instr(Pblendw(0xf0), X(r.s2), X(r.s1)), Instr(Palignr(2), X(t), X(r.s2));
    Run3(i1, i2, i3, Then(i4, Then(i5, rest)), s);
    var u := Exec(i3, Exec(i2, Exec(i1, s)));
    s' := Exec(i5, Exec(i4, u));
    Run2(i4, i5, rest, u);
    Permutations(s.x[r.s1], s.x[r.s2]);
    Permutations(s.x[r.s2], s.x[r.s1]);
    Permutations(u.x[r.s1], u.x[r.s2]);
    Permutations(u.x[r.s2], u.x[t]);
  }

  ghost predicate HexConstants(s: Core) {
    s.x[3] == FLIP_MASK && s.x[4] == MASK_0F && s.x[5] == HEX_LUT
  }

  /** Splits the byte-swapped register into nibbles: high ones in X6, low ones in place. */
  function Nibbles(reg: RegIx, rest: Code): Code {
    Then3(Instr(Pshufb, X(3), X(reg)), Instr(Mov, X(reg), X(6)), Instr(Psrlw4, X(6), X(6)),
    Then(Instr(Pand, X(4), X(6)), Then(Instr(Pand, X(4), X(reg)), rest)))
  }

  lemma RunNibbles(reg: RegIx, rest: Code, s: Core) returns (s': Core)
    requires reg !in {0, 3, 4, 5, 6, 7} && HexConstants(s)
    ensures Run(Nibbles(reg, rest), s) == Run(rest, s')
    ensures var b := PshufbOf(s.x[reg], FLIP_MASK);
            s'.x[6] == PandOf(Psrlw4Of(b), MASK_0F) && s'.x[reg] == PandOf(b, MASK_0F)
    ensures Others(s, s', {6, reg})
  {
    hide Run, PshufbOf, Psrlw4Of, PandOf, FromBytes;
    var i1, i2, i3 := Instr(Pshufb, X(3), X(reg)), Instr(Mov, X(reg), X(6)), Instr(Psrlw4, X(6), X(6));
    var i4, i5 := Instr(Pand, X(4), X(6)), Instr(Pand, X(4), X(reg));
    Run3(i1, i2, i3, Then(i4, Then(i5, rest)), s);
    var t := Exec(i3, Exec(i2, Exec(i1, s)));
    s' := Exec(i5, Exec(i4, t));
    Run2(i4, i5, rest, t);
  }

  /** Looks both nibble registers up in the digit table: high digits in X7, low in X6. */
  function Digits(reg: RegIx, rest: Code): Code {
    Then(Instr(Mov, X(5), X(7)), Then3(Instr(Pshufb, X(6), X(7)), Instr(Mov, X(5), X(6)), Instr(Pshufb, X(reg), X(6)), rest))
  }

  lemma RunDigits(reg: RegIx, rest: Code, s: Core) returns (s': Core)
    requires reg !in {0, 3, 4, 5, 6, 7} && HexConstants(s)
    ensures Run(Digits(reg, rest), s) == Run(rest, s')
    ensures s'.x[7] == PshufbOf(HEX_LUT, s.x[6]) && s'.x[6] == PshufbOf(HEX_LUT, s.x[reg])
    ensures Others(s, s', {6, 7})
  {
    hide Run, PshufbOf, FromBytes;
    var i1, i2, i3, i4 := Instr(Mov, X(5), X(7)), Instr(Pshufb, X(6), X(7)), Instr(Mov, X(5), X(6)), Instr(Pshufb, X(reg), X(6));
    var t := Exec(i1, s);
    Run1(i1, Then3(i2, i3, i4, rest), s);
    Run3(i2, i3, i4, rest, t);
    s' := Exec(i4, Exec(i3, Exec(i2, t)));
  }

  /** Interleaves the digits of X7 and X6 and stores them in cells out and out + 1. */
  function Interlace(out: MemIx, rest: Code): Code
    requires out + 1 < MEM
  {
    Then3(Instr(Mov, X(7), X(0)), Instr(Punpcklbw, X(6), X(0)), Instr(Punpckhbw, X(6), X(7)),
    Then(Instr(Mov, X(0), M(out)), Then(Instr(Mov, X(7), M(out + 1)), rest)))
  }

  lemma RunInterlace(out: MemIx, rest: Code, s: Core) returns (s': Core)
    requires out + 1 < MEM
    ensures Run(Interlace(out, rest), s) == Run(rest, s')
    ensures s'.m[out] == PunpckOf(0, s.x[7], s.x[6]) && s'.m[out + 1] == PunpckOf(1, s.x[7], s.x[6])
    ensures forall i: MemIx | i != out && i != out + 1 :: s'.m[i] == s.m[i]
    ensures forall i: RegIx | i != 0 && i != 7 :: s'.x[i] == s.x[i]
  {
    hide Run, PunpckOf;
    var i1, i2, i3 := Instr(Mov, X(7), X(0)), Instr(Punpcklbw, X(6), X(0)), Instr(Punpckhbw, X(6), X(7));
    var i4, i5 := Instr(Mov, X(0), M(out)), Instr(Mov, X(7), M(out + 1));
    Run3(i1, i2, i3, Then(i4, Then(i5, rest)), s);
    var t := Exec(i3, Exec(i2, Exec(i1, s)));
    s' := Exec(i5, Exec(i4, t));
    Run2(i4, i5, rest, t);
  }

  /** Sixteen digest bytes in reg become 32 hex digits in cells out and out + 1. */
  function HexHalf(reg: RegIx, out: MemIx, rest: Code): Code
    requires out + 1 < MEM
  {
    Nibbles(reg, Digits(reg, Interlace(out, rest)))
  }

  lemma RunHexHalf(reg: RegIx, out: MemIx, rest: Code, s: Core) returns (s': Core)
    requires out + 1 < MEM && reg !in {0, 3, 4, 5, 6, 7}
    requires HexConstants(s)
    ensures Run(HexHalf(reg, out, rest), s) == Run(rest, s')
    ensures s'.m[out] == HexQuad(s.x[reg], 0) && s'.m[out + 1] == HexQuad(s.x[reg], 1)
    ensures forall i: MemIx | i != out && i != out + 1 :: s'.m[i] == s.m[i]
    ensures forall i: RegIx | i !in {0, 6, 7, reg} :: s'.x[i] == s.x[i]
  {
    hide Run, Nibbles, Digits, Interlace, PshufbOf, Psrlw4Of, PandOf, PunpckOf, FromBytes;
    var t := RunNibbles(reg, Digits(reg, Interlace(out, rest)), s);
    var u := RunDigits(reg, Interlace(out, rest), t);
    s' := RunInterlace(out, rest, u);
  }

  /** The epilogue of one lane: its 64 hex digits go to its buffer. */
  function Epilogue(r: LaneRegs, rest: Code): Code {
    Unshuffle(r, r.t, HexHalf(r.s1, r.data, HexHalf(r.s2, r.data + 2, rest)))
  }

  /** Registers a lane's epilogue may change. */
  predicate EpilogueUses(r: LaneRegs, i: RegIx) {
    i == 0 || i == 6 || i == 7 || i == r.s1 || i == r.s2 || i == r.t
  }

  lemma RunEpilogue(r: LaneRegs, h: Vars, rest: Code, s: Core) returns (s': Core)
    requires r.s1 !in {3, 4, 5, 6, 7} && r.s2 !in {3, 4, 5, 6, 7} && r.t !in {3, 4, 5}
    requires HexConstants(s)
    requires s.x[r.s1] == Abef(h) && s.x[r.s2] == Cdgh(h)
    ensures Run(Epilogue(r, rest), s) == Run(rest, s')
    ensures Holds(r, s', HexEncode(DigestBytes(h)))
    ensures forall i: MemIx | !(r.data <= i < r.data + 4) :: s'.m[i] == s.m[i]
    ensures forall i: RegIx | !EpilogueUses(r, i) :: s'.x[i] == s.x[i]
  {
    hide Run, Unshuffle, HexHalf, HexQuad, Cell, Abef, Cdgh, DigestBytes, HexEncode, FromBytes;
    DigestCells(h);
    var t := RunUnshuffle(r, r.t, h, HexHalf(r.s1, r.data, HexHalf(r.s2, r.data + 2, rest)), s);
    var u := RunHexHalf(r.s1, r.data, HexHalf(r.s2, r.data + 2, rest), t);
    s' := RunHexHalf(r.s2, r.data + 2, rest, u);
  }

  // ---------------------------------------------------------------------------------
  // The two blocks of an iteration, for one lane
  // ---------------------------------------------------------------------------------

  /** Registers hold the working state x in shuffled order. */
  predicate InState(r: LaneRegs, s: Core, x: Vars) {
    s.x[r.s1] == Abef(x) && s.x[r.s2] == Cdgh(x)
  }

  lemma MessageInCells(r: LaneRegs, s: Core, p: Message)
    requires Holds(r, s, p)
    ensures var m := ParseBlock(p);
            Message4(r, s) == [Quad(m, 0), Quad(m, 1), Quad(m, 2), Quad(m, 3)]
  {
    hide PshufbOf, Cell, Quad, ParseBlock;
    FlippedCell(p, 0);
    FlippedCell(p, 1);
    FlippedCell(p, 2);
    FlippedCell(p, 3);
    assert s.m[r.data] == Cell(p, 0);
  }

  /** The view a lane has after the message groups is the state after 64 rounds. */
  lemma AfterMessage(r: LaneRegs, h: Vars, p: Message, s: Core, t: Core)
    requires Holds(r, s, p) && InState(r, s, h)
    requires ViewOf(r, t) == FoldView(MessageGroups(false), ViewOf(r, s), Message4(r, s))
    ensures InState(r, t, Rounds(h, ParseBlock(p), 64))
  {
    hide FoldView, Quad, ParseBlock, Message4, MessageGroups, Rounds, Abef, Cdgh, Cell, Sched;
    MessageInCells(r, s, p);
    MessageBlock(h, ParseBlock(p), false, ViewOf(r, s), Message4(r, s));
  }

  lemma AfterPad(r: LaneRegs, h: Vars, s: Core, t: Core)
    requires InState(r, s, h)
    requires ViewOf(r, t) == FoldView(PadGroups(), ViewOf(r, s), Message4(r, s))
    ensures InState(r, t, Rounds(h, PAD64, 64))
  {
    hide FoldView, PshufbOf, PadGroups, Rounds, Abef, Cdgh;
    PadBlock(h, ViewOf(r, s), Message4(r, s));
  }

  /** X3, X4 and X5 are dead after the rounds and take the epilogue constants. */
  function Constants(rest: Code): Code {
    Then3(Instr(Mov, C(FLIP_MASK), X(3)), Instr(Mov, C(MASK_0F), X(4)), Instr(Mov, C(HEX_LUT), X(5)), rest)
  }

  lemma RunConstants(rest: Code, s: Core) returns (s': Core)
    ensures Run(Constants(rest), s) == Run(rest, s')
    ensures HexConstants(s') && Others(s, s', {3, 4, 5})
  {
    hide Run, FromBytes;
    var i, j, k := Instr(Mov, C(FLIP_MASK), X(3)), Instr(Mov, C(MASK_0F), X(4)), Instr(Mov, C(HEX_LUT), X(5));
    Run3(i, j, k, rest, s);
    s' := Exec(k, Exec(j, Exec(i, s)));
  }

  // ---------------------------------------------------------------------------------
  // hashHex1
  // ---------------------------------------------------------------------------------

  function HashHex1(): Code {
    var r := RegsOf(A);
    Entry(Append(EmitAll(r, MessageGroups(false)), HashHex1Middle()))
  }

  function HashHex1Middle(): Code {
    var r := RegsOf(A);
    Feedforward(r, 7, 0, 1, Save(r, 2, 3, Append(EmitAll(r, PadGroups()), HashHex1End())))
  }

  function HashHex1End(): Code {
    var r := RegsOf(A);
    Feedforward(r, 7, 2, 3, Constants(Epilogue(r, End)))
  }

  lemma RunHashHex1Middle(p: Message, s: Core) returns (s': Core)
    requires Saved(s, 0, 1, IV) && s.x[FLIP] == FLIP_MASK
    requires InState(RegsOf(A), s, Rounds(IV, ParseBlock(p), 64))
    ensures Run(HashHex1Middle(), s) == s'
    ensures Holds(RegsOf(A), s', HexHash(p))
    ensures forall i: MemIx | i >= 12 :: s'.m[i] == s.m[i]
  {
    var r := RegsOf(A);
    hide Run, FoldView, EmitAll, PadGroups, Feedforward, Save, Constants, Epilogue, Rounds, Feed, Abef, Cdgh,
         Message4, Cell, HexEncode, DigestBytes, FromBytes, HashHex1End, Hash, ParseBlock;
    var y := Rounds(IV, ParseBlock(p), 64);
    var h := Feed(IV, y);
    var c1 := Save(r, 2, 3, Append(EmitAll(r, PadGroups()), HashHex1End()));
    var s1 := RunFeedforward(r, 7, 0, 1, IV, y, c1, s);
    var s2 := RunSave(r, 2, 3, h, Append(EmitAll(r, PadGroups()), HashHex1End()), s1);
    var s3 := RunSolo(r, PadGroups(), s2);
    RunAppend(EmitAll(r, PadGroups()), HashHex1End(), s2);
    AfterPad(r, h, s2, s3);
    s' := RunHashHex1End(h, s3);
    HashOf64(p);
  }

  lemma RunHashHex1End(h: Vars, s: Core) returns (s': Core)
    requires Saved(s, 2, 3, h)
    requires InState(RegsOf(A), s, Rounds(h, PAD64, 64))
    ensures Run(HashHex1End(), s) == s'
    ensures Holds(RegsOf(A), s', HexEncode(DigestBytes(Compress(h, PAD64))))
    ensures forall i: MemIx | i >= 12 :: s'.m[i] == s.m[i]
  {
    var r := RegsOf(A);
    hide Run, Feedforward, Constants, Epilogue, Rounds, Feed, Abef, Cdgh, Cell, HexEncode, DigestBytes, FromBytes;
    var y := Rounds(h, PAD64, 64);
    var s1 := RunFeedforward(r, 7, 2, 3, h, y, Constants(Epilogue(r, End)), s);
    var s2 := RunConstants(Epilogue(r, End), s1);
    s' := RunEpilogue(r, Feed(h, y), End, s2);
    RunEnd(s');
  }

  /** For every 64-byte buffer the instruction list of hashHex1 leaves the lowercase hex of
      its SHA-256 in the buffer, and does not touch the other lane's buffer. */
  lemma HashHex1Correct(p: Message, s: Core) returns (s': Core)
    requires Holds(RegsOf(A), s, p)
    ensures s' == Run(HashHex1(), s)
    ensures Holds(RegsOf(A), s', HexHash(p))
    ensures forall i: MemIx | i >= 12 :: s'.m[i] == s.m[i]
  {
    var r := RegsOf(A);
    hide Run, FoldView, EmitAll, MessageGroups, Entry, HashHex1Middle, Rounds, Abef, Cdgh, Message4, Cell,
         HexEncode, DigestBytes, FromBytes, Hash, ParseBlock;
    var code := EmitAll(r, MessageGroups(false));
    var s1 := RunEntry(Append(code, HashHex1Middle()), s);
    var s2 := RunSolo(r, MessageGroups(false), s1);
    RunAppend(code, HashHex1Middle(), s1);
    AfterMessage(r, IV, p, s1, s2);
    s' := RunHashHex1Middle(p, s2);
  }

  // ---------------------------------------------------------------------------------
  // pairHashHex
  // ---------------------------------------------------------------------------------

  function PairHashHex(): Code {
    Entry(Then(Instr(Mov, X(1), X(8)), Then(Instr(Mov, X(2), X(9)),
      Append(Interleave(RegsOf(A), RegsOf(B), MessageGroups(false)), PairMiddle()))))
  }

  function PairMiddle(): Code {
    Feedforward(RegsOf(A), 7, 0, 1, Save(RegsOf(A), 2, 3,
    Feedforward(RegsOf(B), 7, 0, 1, Save(RegsOf(B), 4, 5, Append(Interleave(RegsOf(A), RegsOf(B), PadGroups()), PairEnd())))))
  }

  function PairEnd(): Code {
    Feedforward(RegsOf(A), 7, 2, 3, Feedforward(RegsOf(B), 7, 4, 5,
    Constants(Epilogue(RegsOf(A), Epilogue(RegsOf(B), End)))))
  }

  lemma RunPairEnd(h: Vars, g: Vars, s: Core) returns (s': Core)
    requires Saved(s, 2, 3, h) && Saved(s, 4, 5, g)
    requires InState(RegsOf(A), s, Rounds(h, PAD64, 64)) && InState(RegsOf(B), s, Rounds(g, PAD64, 64))
    ensures Run(PairEnd(), s) == s'
    ensures Holds(RegsOf(A), s', HexEncode(DigestBytes(Compress(h, PAD64))))
    ensures Holds(RegsOf(B), s', HexEncode(DigestBytes(Compress(g, PAD64))))
    ensures forall i: MemIx | i >= 16 :: s'.m[i] == s.m[i]
  {
    hide Run, Feedforward, Constants, Epilogue, Rounds, Feed, Abef, Cdgh, Cell, HexEncode, DigestBytes, FromBytes;
    var (y, z) := (Rounds(h, PAD64, 64), Rounds(g, PAD64, 64));
    var last := Epilogue(RegsOf(B), End);
    var c2 := Constants(Epilogue(RegsOf(A), last));
    var s1 := RunFeedforward(RegsOf(A), 7, 2, 3, h, y, Feedforward(RegsOf(B), 7, 4, 5, c2), s);
    var s2 := RunFeedforward(RegsOf(B), 7, 4, 5, g, z, c2, s1);
    var s3 := RunConstants(Epilogue(RegsOf(A), last), s2);
    var s4 := RunEpilogue(RegsOf(A), Feed(h, y), last, s3);
    s' := RunEpilogue(RegsOf(B), Feed(g, z), End, s4);
    RunEnd(s');
  }

  lemma RunPairMiddle(p: Message, q: Message, s: Core) returns (s': Core)
    requires Saved(s, 0, 1, IV) && s.x[FLIP] == FLIP_MASK
    requires InState(RegsOf(A), s, Rounds(IV, ParseBlock(p), 64)) && InState(RegsOf(B), s, Rounds(IV, ParseBlock(q), 64))
    ensures Run(PairMiddle(), s) == s'
    ensures Holds(RegsOf(A), s', HexHash(p)) && Holds(RegsOf(B), s', HexHash(q))
    ensures forall i: MemIx | i >= 16 :: s'.m[i] == s.m[i]
  {
    hide Run, FoldView, Interleave, PadGroups, Feedforward, Save, Rounds, Feed, Abef, Cdgh, Message4, Cell,
         HexEncode, DigestBytes, FromBytes, PairEnd, Hash, ParseBlock;
    var (y, z) := (Rounds(IV, ParseBlock(p), 64), Rounds(IV, ParseBlock(q), 64));
    var (h, g) := (Feed(IV, y), Feed(IV, z));
    var c4 := Append(Interleave(RegsOf(A), RegsOf(B), PadGroups()), PairEnd());
    var c3 := Save(RegsOf(B), 4, 5, c4);
    var c2 := Feedforward(RegsOf(B), 7, 0, 1, c3);
    var s1 := RunFeedforward(RegsOf(A), 7, 0, 1, IV, y, Save(RegsOf(A), 2, 3, c2), s);
    var s2 := RunSave(RegsOf(A), 2, 3, h, c2, s1);
    var s3 := RunFeedforward(RegsOf(B), 7, 0, 1, IV, z, c3, s2);
    var s4 := RunSave(RegsOf(B), 4, 5, g, c4, s3);
    var s5 := RunInterleaved(RegsOf(A), RegsOf(B), PadGroups(), s4);
    RunAppend(Interleave(RegsOf(A), RegsOf(B), PadGroups()), PairEnd(), s4);
    AfterPad(RegsOf(A), h, s4, s5);
    AfterPad(RegsOf(B), g, s4, s5);
    s' := RunPairEnd(h, g, s5);
    HashOf64(p);
    HashOf64(q);
  }

  /** For every pair of buffers the interleaved routine gives both lanes the result of a
      separate hashHex1 run, and touches no other buffer. */
  lemma PairHashHexCorrect(p: Message, q: Message, s: Core) returns (s': Core)
    requires Holds(RegsOf(A), s, p) && Holds(RegsOf(B), s, q)
    ensures s' == Run(PairHashHex(), s)
    ensures Holds(RegsOf(A), s', HexHash(p)) && Holds(RegsOf(B), s', HexHash(q))
    ensures forall i: MemIx | i >= 16 :: s'.m[i] == s.m[i]
  {
    hide Run, FoldView, Interleave, MessageGroups, Entry, PairMiddle, Rounds, Abef, Cdgh, Message4, Cell,
         HexEncode, DigestBytes, FromBytes, Hash, ParseBlock;
    var code := Interleave(RegsOf(A), RegsOf(B), MessageGroups(false));
    var i, j := Instr(Mov, X(1), X(8)), Instr(Mov, X(2), X(9));
    var s1 := RunEntry(Then(i, Then(j, Append(code, PairMiddle()))), s);
    Run2(i, j, Append(code, PairMiddle()), s1);
    var s2 := Exec(j, Exec(i, s1));
    var s3 := RunInterleaved(RegsOf(A), RegsOf(B), MessageGroups(false), s2);
    RunAppend(code, PairMiddle(), s2);
    AfterMessage(RegsOf(A), IV, p, s2, s3);
    AfterMessage(RegsOf(B), IV, q, s2, s3);
    s' := RunPairMiddle(p, q, s3);
  }
}
