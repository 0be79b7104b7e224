/** The in-memory feedback loops riskChain1x, riskChain2x and riskChain4x: every round
    replaces each buffer by the lowercase hex of its SHA-256.  Stack cells 0..3 hold the
    two lanes' first chaining values, 4 and 5 the shuffled initial value, 6 the digit table
    and 7 the nibble mask. */
module ChainAsm {
  import opened Sha256
  import opened Machine
  import opened Gen2Lane
  import opened Refine
  import opened Lanes
  import opened HexRegs
  import opened Fused

  /** The two lanes of the listing, on the buffer that starts at a given cell; X8 flips. */
  function Lane0(data: MemIx): LaneRegs
    requires data <= MEM - 4
  {
    Regs(1, 2, [3, 4, 5, 6], 7, 8, data)
  }

  function Lane1(data: MemIx): LaneRegs
    requires data <= MEM - 4
  {
    Regs(9, 10, [11, 12, 13, 14], 15, 8, data)
  }

  predicate IsChainLane(r: LaneRegs) {
    8 <= r.data && (r == Lane0(r.data) || r == Lane1(r.data))
  }

  type ChainRegs = r: LaneRegs | IsChainLane(r) witness Regs(1, 2, [3, 4, 5, 6], 7, 8, 8)

  // ---------------------------------------------------------------------------------
  // Epilogue: table and mask come from the stack into the lane's own registers
  // ---------------------------------------------------------------------------------

  function LoadTables(r: LaneRegs, reg: RegIx, rest: Code): Code {
    Then3(Instr(Mov, M(6), X(r.w[2])), Instr(Mov, M(7), X(r.w[3])), Instr(Mov, X(reg), X(r.w[0])), rest)
  }

  function SplitNibbles(r: LaneRegs, reg: RegIx, rest: Code): Code {
    Then3(Instr(Psrlw4, X(r.w[0]), X(r.w[0])), Instr(Pand, X(r.w[3]), X(r.w[0])), Instr(Mov, X(reg), X(r.w[1])),
    Then(Instr(Pand, X(r.w[3]), X(r.w[1])), rest))
  }

  function LookUp(r: LaneRegs, rest: Code): Code {
    Then3(Instr(Mov, X(r.w[2]), X(r.t)), Instr(Pshufb, X(r.w[0]), X(r.w[2])), Instr(Pshufb, X(r.w[1]), X(r.t)), rest)
  }

  function Emit32(r: LaneRegs, out: MemIx, rest: Code): Code
    requires out + 1 < MEM
  {
    Then3(Instr(Mov, X(r.w[2]), X(r.w[3])), Instr(Punpcklbw, X(r.t), X(r.w[2])), Instr(Punpckhbw, X(r.t), X(r.w[3])),
    Then(Instr(Mov, X(r.w[2]), M(out)), Then(Instr(Mov, X(r.w[3]), M(out + 1)), rest)))
  }

  function HalfText(r: LaneRegs, reg: RegIx, out: MemIx, rest: Code): Code
    requires out + 1 < MEM
  {
    LoadTables(r, reg, SplitNibbles(r, reg, LookUp(r, Emit32(r, out, rest))))
  }

  /** Changes only the lane's message registers and temporary. */
  ghost predicate OnlyScratch(r: LaneRegs, s: Core, s': Core) {
    forall i: RegIx | i != r.t && i != r.w[0] && i != r.w[1] && i != r.w[2] && i != r.w[3] :: s'.x[i] == s.x[i]
  }

  ghost predicate Tables(s: Core) {
    s.m[6] == HEX_LUT && s.m[7] == MASK_0F
  }

  lemma RunSplit(r: LaneRegs, reg: RegIx, rest: Code, s: Core) returns (s': Core)
    requires (reg == r.s1 || reg == r.s2) && Tables(s)
    ensures Run(LoadTables(r, reg, SplitNibbles(r, reg, rest)), s) == Run(rest, s')
    ensures s'.x[r.w[0]] == PandOf(Psrlw4Of(s.x[reg]), MASK_0F) && s'.x[r.w[1]] == PandOf(s.x[reg], MASK_0F)
    ensures s'.x[r.w[2]] == HEX_LUT && s'.m == s.m && OnlyScratch(r, s, s')
  {
    hide Run, Psrlw4Of, PandOf, FromBytes;
    assert r.w[0] != r.w[1] && r.w[0] != r.w[2] && r.w[0] != r.w[3] && r.w[1] != r.w[2] && r.w[1] != r.w[3] && r.w[2] != r.w[3];
    var i1, i2, i3 := Instr(Mov, M(6), X(r.w[2])), Instr(Mov, M(7), X(r.w[3])), Instr(Mov, X(reg), X(r.w[0]));
    var i4, i5, i6 := Instr(Psrlw4, X(r.w[0]), X(r.w[0])), Instr(Pand, X(r.w[3]), X(r.w[0])), Instr(Mov, X(reg), X(r.w[1]));
    var i7 := Instr(Pand, X(r.w[3]), X(r.w[1]));
    Run3(i1, i2, i3, SplitNibbles(r, reg, rest), s);
    var t := Exec(i3, Exec(i2, Exec(i1, s)));
    Run3(i4, i5, i6, Then(i7, rest), t);
    var u := Exec(i6, Exec(i5, Exec(i4, t)));
    Run1(i7, rest, u);
    s' := Exec(i7, u);
    assert t.x[r.w[0]] == s.x[reg] == t.x[reg] && t.x[r.w[3]] == MASK_0F && t.x[r.w[2]] == HEX_LUT;
  }

  lemma RunLookUp(r: LaneRegs, out: MemIx, rest: Code, s: Core) returns (s': Core)
    requires out + 1 < MEM && s.x[r.w[2]] == HEX_LUT
    ensures Run(LookUp(r, Emit32(r, out, rest)), s) == Run(rest, s')
    ensures var (hi, lo) := (PshufbOf(HEX_LUT, s.x[r.w[0]]), PshufbOf(HEX_LUT, s.x[r.w[1]]));
            s'.m[out] == PunpckOf(0, hi, lo) && s'.m[out + 1] == PunpckOf(1, hi, lo)
    ensures forall i: MemIx | i != out && i != out + 1 :: s'.m[i] == s.m[i]
    ensures OnlyScratch(r, s, s')
  {
    hide Run, PshufbOf, PunpckOf, FromBytes;
    assert r.w[0] != r.w[1] && r.w[0] != r.w[2] && r.w[0] != r.w[3] && r.w[1] != r.w[2] && r.w[1] != r.w[3] && r.w[2] != r.w[3];
    var i1, i2, i3 := Instr(Mov, X(r.w[2]), X(r.t)), Instr(Pshufb, X(r.w[0]), X(r.w[2])), Instr(Pshufb, X(r.w[1]), X(r.t));
    var i4, i5, i6 := Instr(Mov, X(r.w[2]), X(r.w[3])), Instr(Punpcklbw, X(r.t), X(r.w[2])), Instr(Punpckhbw, X(r.t), X(r.w[3]));
    var i7, i8 := Instr(Mov, X(r.w[2]), M(out)), Instr(Mov, X(r.w[3]), M(out + 1));
    Run3(i1, i2, i3, Emit32(r, out, rest), s);
    var t := Exec(i3, Exec(i2, Exec(i1, s)));
    Run3(i4, i5, i6, Then(i7, Then(i8, rest)), t);
    var u := Exec(i6, Exec(i5, Exec(i4, t)));
    Run2(i7, i8, rest, u);
    s' := Exec(i8, Exec(i7, u));
    assert t.x[r.w[2]] == PshufbOf(HEX_LUT, s.x[r.w[0]]) && t.x[r.t] == PshufbOf(HEX_LUT, s.x[r.w[1]]);
  }

  lemma RunHalfText(r: LaneRegs, reg: RegIx, out: MemIx, x: Xmm, rest: Code, s: Core) returns (s': Core)
    requires out + 1 < MEM && (reg == r.s1 || reg == r.s2) && Tables(s)
    requires s.x[reg] == PshufbOf(x, FLIP_MASK)
    ensures Run(HalfText(r, reg, out, rest), s) == Run(rest, s')
    ensures s'.m[out] == HexQuad(x, 0) && s'.m[out + 1] == HexQuad(x, 1)
    ensures forall i: MemIx | i != out && i != out + 1 :: s'.m[i] == s.m[i]
    ensures OnlyScratch(r, s, s')
  {
    hide Run, LoadTables, SplitNibbles, LookUp, Emit32, PshufbOf, Psrlw4Of, PandOf, PunpckOf, FromBytes;
    var t := RunSplit(r, reg, LookUp(r, Emit32(r, out, rest)), s);
    s' := RunLookUp(r, out, rest, t);
  }

  /** Digest order, byte swap, and the 64 hex digits of one lane. */
  function TextOut(r: LaneRegs, rest: Code): Code {
    Unshuffle(r, r.t, Then(Instr(Pshufb, X(r.f), X(r.s1)), Then(Instr(Pshufb, X(r.f), X(r.s2)),
      HalfText(r, r.s1, r.data, HalfText(r, r.s2, r.data + 2, rest)))))
  }

  lemma RunTextOut(r: ChainRegs, h: Vars, rest: Code, s: Core) returns (s': Core)
    requires InState(r, s, h) && Tables(s) && s.x[r.f] == FLIP_MASK
    ensures Run(TextOut(r, rest), s) == Run(rest, s')
    ensures Holds(r, s', HexEncode(DigestBytes(h)))
    ensures forall i: MemIx | !(r.data <= i < r.data + 4) :: s'.m[i] == s.m[i]
    ensures forall i: RegIx | i != 0 && !r.Uses(i) :: s'.x[i] == s.x[i]
  {
    hide Run, Unshuffle, HalfText, HexQuad, Cell, Abef, Cdgh, DigestBytes, HexEncode, FromBytes, PshufbOf;
    DigestCells(h);
    var (x, y) := (Xmm(h.a, h.b, h.c, h.d), Xmm(h.e, h.f, h.g, h.h));
    var (i, j) := (Instr(Pshufb, X(r.f), X(r.s1)), Instr(Pshufb, X(r.f), X(r.s2)));
    var c3 := HalfText(r, r.s2, r.data + 2, rest);
    var c2 := HalfText(r, r.s1, r.data, c3);
    var s1 := RunUnshuffle(r, r.t, h, Then(i, Then(j, c2)), s);
    Run2(i, j, c2, s1);
    var s2 := Exec(j, Exec(i, s1));
    var s3 := RunHalfText(r, r.s1, r.data, x, c3, s2);
    s' := RunHalfText(r, r.s2, r.data + 2, y, rest, s3);
  }

  // ---------------------------------------------------------------------------------
  // Entry, and one round of one lane or of two interleaved lanes
  // ---------------------------------------------------------------------------------

  function ChainEntry(rest: Code): Code {
    Then3(Instr(Mov, C(FLIP_MASK), X(8)), Instr(Mov, C(HEX_LUT), X(0)), Instr(Mov, X(0), M(6)),
    Then3(Instr(Mov, C(MASK_0F), X(0)), Instr(Mov, X(0), M(7)), Instr(Mov, C(IV_LO), X(1)),
    Then(Instr(Mov, C(IV_HI), X(2)), Shuffle(Lane0(8), Save(Lane0(8), 4, 5, rest)))))
  }

  /** What every round finds besides the buffers. */
  predicate ChainReady(s: Core) {
    s.m[6] == HEX_LUT && s.m[7] == MASK_0F && Saved(s, 4, 5, IV) && s.x[8] == FLIP_MASK
  }

  /** s and s' agree on every buffer cell outside lo..hi. */
  predicate OtherBuffers(lo: nat, hi: nat, s: Core, s': Core) {
    forall i: MemIx | 8 <= i && !(lo <= i < hi) :: s'.m[i] == s.m[i]
  }

  lemma RunChainEntry(rest: Code, s: Core) returns (s': Core)
    ensures Run(ChainEntry(rest), s) == Run(rest, s')
    ensures ChainReady(s') && OtherBuffers(0, 0, s, s')
  {
    hide Run, Shuffle, Save, Abef, Cdgh, FromBytes;
    var i1, i2, i3 := Instr(Mov, C(FLIP_MASK), X(8)), Instr(Mov, C(HEX_LUT), X(0)), Instr(Mov, X(0), M(6));
    var i4, i5, i6 := Instr(Mov, C(MASK_0F), X(0)), Instr(Mov, X(0), M(7)), Instr(Mov, C(IV_LO), X(1));
    var i7 := Instr(Mov, C(IV_HI), X(2));
    var c3 := Save(Lane0(8), 4, 5, rest);
    var c2 := Shuffle(Lane0(8), c3);
    Run3(i1, i2, i3, Then3(i4, i5, i6, Then(i7, c2)), s);
    var t := Exec(i3, Exec(i2, Exec(i1, s)));
    Run3(i4, i5, i6, Then(i7, c2), t);
    var u := Exec(i6, Exec(i5, Exec(i4, t)));
    Run1(i7, c2, u);
    var v := RunShuffle(Lane0(8), IV, c3, Exec(i7, u));
    s' := RunSave(Lane0(8), 4, 5, IV, rest, v);
  }

  function LoadIv(r: LaneRegs, rest: Code): Code {
    Then(Instr(Mov, M(4), X(r.s1)), Then(Instr(Mov, M(5), X(r.s2)), rest))
  }

  lemma RunLoadIv(r: LaneRegs, rest: Code, s: Core) returns (s': Core)
    requires Saved(s, 4, 5, IV)
    ensures Run(LoadIv(r, rest), s) == Run(rest, s')
    ensures InState(r, s', IV) && Others(s, s', {r.s1, r.s2})
  {
    hide Run, Abef, Cdgh;
    var (i, j) := (Instr(Mov, M(4), X(r.s1)), Instr(Mov, M(5), X(r.s2)));
    Run2(i, j, rest, s);
    s' := Exec(j, Exec(i, s));
  }

  function Pass1(rest: Code): Code {
    LoadIv(Lane0(8), Append(EmitAll(Lane0(8), MessageGroups(false)), Pass1Middle(rest)))
  }

  function Pass1Middle(rest: Code): Code {
    Feedforward(Lane0(8), 7, 4, 5, Save(Lane0(8), 0, 1, Append(EmitAll(Lane0(8), PadGroups()), Pass1End(rest))))
  }

  function Pass1End(rest: Code): Code {
    Feedforward(Lane0(8), 7, 0, 1, TextOut(Lane0(8), rest))
  }

  lemma RunPass1Middle(p: Message, rest: Code, s: Core) returns (s': Core)
    requires ChainReady(s) && InState(Lane0(8), s, Rounds(IV, ParseBlock(p), 64))
    ensures Run(Pass1Middle(rest), s) == Run(rest, s')
    ensures ChainReady(s') && Holds(Lane0(8), s', HexHash(p))
  {
    hide Run, FoldView, EmitAll, PadGroups, Feedforward, Save, TextOut, Rounds, Feed, Abef, Cdgh, Message4, Cell,
         HexEncode, DigestBytes, FromBytes, Hash, ParseBlock;
    var r := Lane0(8);
    var y := Rounds(IV, ParseBlock(p), 64);
    var h := Feed(IV, y);
    var c2 := Append(EmitAll(r, PadGroups()), Pass1End(rest));
    var s1 := RunFeedforward(r, 7, 4, 5, IV, y, Save(r, 0, 1, c2), s);
    var s2 := RunSave(r, 0, 1, h, c2, s1);
    var s3 := RunSolo(r, PadGroups(), s2);
    RunAppend(EmitAll(r, PadGroups()), Pass1End(rest), s2);
    AfterPad(r, h, s2, s3);
    var z := Rounds(h, PAD64, 64);
    var s4 := RunFeedforward(r, 7, 0, 1, h, z, TextOut(r, rest), s3);
    s' := RunTextOut(r, Feed(h, z), rest, s4);
    HashOf64(p);
  }

  lemma RunPass1(p: Message, rest: Code, s: Core) returns (s': Core)
    requires ChainReady(s) && Holds(Lane0(8), s, p)
    ensures Run(Pass1(rest), s) == Run(rest, s')
    ensures ChainReady(s') && Holds(Lane0(8), s', HexHash(p))
  {
    hide Run, FoldView, EmitAll, MessageGroups, LoadIv, Pass1Middle, Rounds, Abef, Cdgh, Message4, Cell, FromBytes, Hash, ParseBlock;
    var r := Lane0(8);
    var code := EmitAll(r, MessageGroups(false));
    var s1 := RunLoadIv(r, Append(code, Pass1Middle(rest)), s);
    var s2 := RunSolo(r, MessageGroups(false), s1);
    RunAppend(code, Pass1Middle(rest), s1);
    AfterMessage(r, IV, p, s1, s2);
    s' := RunPass1Middle(p, rest, s2);
  }

  // ---------------------------------------------------------------------------------
  // Two interleaved lanes, on the buffers at cells d and d + 4
  // ---------------------------------------------------------------------------------

  type PairCell = d: nat | d == 8 || d == 16 witness 8

  function Pass2(d: PairCell, rest: Code): Code {
    LoadIv(Lane0(d), LoadIv(Lane1(d + 4),
      Append(Interleave(Lane0(d), Lane1(d + 4), MessageGroups(false)), Pass2Middle(d, rest))))
  }

  function Pass2Middle(d: PairCell, rest: Code): Code {
    Feedforward(Lane0(d), 7, 4, 5, Save(Lane0(d), 0, 1,
    Feedforward(Lane1(d + 4), 15, 4, 5, Save(Lane1(d + 4), 2, 3,
      Append(Interleave(Lane0(d), Lane1(d + 4), PadGroups()), Pass2End(d, rest))))))
  }

  function Pass2End(d: PairCell, rest: Code): Code {
    Feedforward(Lane0(d), 7, 0, 1, TextOut(Lane0(d), Feedforward(Lane1(d + 4), 15, 2, 3, TextOut(Lane1(d + 4), rest))))
  }

  lemma RunPass2End(d: PairCell, h: Vars, g: Vars, rest: Code, s: Core) returns (s': Core)
    requires ChainReady(s) && Saved(s, 0, 1, h) && Saved(s, 2, 3, g)
    requires InState(Lane0(d), s, Rounds(h, PAD64, 64)) && InState(Lane1(d + 4), s, Rounds(g, PAD64, 64))
    ensures Run(Pass2End(d, rest), s) == Run(rest, s')
    ensures ChainReady(s') && OtherBuffers(d, d + 8, s, s')
    ensures Holds(Lane0(d), s', HexEncode(DigestBytes(Compress(h, PAD64))))
    ensures Holds(Lane1(d + 4), s', HexEncode(DigestBytes(Compress(g, PAD64))))
  {
    hide Run, Feedforward, TextOut, Rounds, Feed, Abef, Cdgh, Cell, HexEncode, DigestBytes, FromBytes;
    var (a, b) := (Lane0(d), Lane1(d + 4));
    var (y, z) := (Rounds(h, PAD64, 64), Rounds(g, PAD64, 64));
    var c2 := Feedforward(b, 15, 2, 3, TextOut(b, rest));
    var s1 := RunFeedforward(a, 7, 0, 1, h, y, TextOut(a, c2), s);
    var s2 := RunTextOut(a, Feed(h, y), c2, s1);
    var s3 := RunFeedforward(b, 15, 2, 3, g, z, TextOut(b, rest), s2);
    s' := RunTextOut(b, Feed(g, z), rest, s3);
  }

  lemma LanesApart(d: PairCell)
    ensures Apart(Lane0(d), Lane1(d + 4))
  {
  }

  lemma RunPass2Middle(d: PairCell, p: Message, q: Message, rest: Code, s: Core) returns (s': Core)
    requires ChainReady(s)
    requires InState(Lane0(d), s, Rounds(IV, ParseBlock(p), 64)) && InState(Lane1(d + 4), s, Rounds(IV, ParseBlock(q), 64))
    ensures Run(Pass2Middle(d, rest), s) == Run(rest, s')
    ensures ChainReady(s') && OtherBuffers(d, d + 8, s, s')
    ensures Holds(Lane0(d), s', HexHash(p)) && Holds(Lane1(d + 4), s', HexHash(q))
  {
    hide Run, FoldView, Interleave, PadGroups, Feedforward, Save, Rounds, Feed, Abef, Cdgh, Message4, Cell,
         HexEncode, DigestBytes, FromBytes, Pass2End, Hash, ParseBlock;
    var (a, b) := (Lane0(d), Lane1(d + 4));
    LanesApart(d);
    var (y, z) := (Rounds(IV, ParseBlock(p), 64), Rounds(IV, ParseBlock(q), 64));
    var (h, g) := (Feed(IV, y), Feed(IV, z));
    var c4 := Append(Interleave(a, b, PadGroups()), Pass2End(d, rest));
    var c3 := Save(b, 2, 3, c4);
    var c2 := Feedforward(b, 15, 4, 5, c3);
    var s1 := RunFeedforward(a, 7, 4, 5, IV, y, Save(a, 0, 1, c2), s);
    var s2 := RunSave(a, 0, 1, h, c2, s1);
    var s3 := RunFeedforward(b, 15, 4, 5, IV, z, c3, s2);
    var s4 := RunSave(b, 2, 3, g, c4, s3);
    var s5 := RunInterleaved(a, b, PadGroups(), s4);
    RunAppend(Interleave(a, b, PadGroups()), Pass2End(d, rest), s4);
    AfterPad(a, h, s4, s5);
    AfterPad(b, g, s4, s5);
    s' := RunPass2End(d, h, g, rest, s5);
    HashOf64(p);
    HashOf64(q);
  }

  lemma RunPass2(d: PairCell, p: Message, q: Message, rest: Code, s: Core) returns (s': Core)
    requires ChainReady(s) && Holds(Lane0(d), s, p) && Holds(Lane1(d + 4), s, q)
    ensures Run(Pass2(d, rest), s) == Run(rest, s')
    ensures ChainReady(s') && OtherBuffers(d, d + 8, s, s')
    ensures Holds(Lane0(d), s', HexHash(p)) && Holds(Lane1(d + 4), s', HexHash(q))
  {
    hide Run, FoldView, Interleave, MessageGroups, LoadIv, Pass2Middle, Rounds, Abef, Cdgh, Message4, Cell, FromBytes, Hash, ParseBlock;
    var (a, b) := (Lane0(d), Lane1(d + 4));
    LanesApart(d);
    var code := Interleave(a, b, MessageGroups(false));
    var c2 := Append(code, Pass2Middle(d, rest));
    var s1 := RunLoadIv(a, LoadIv(b, c2), s);
    var s2 := RunLoadIv(b, c2, s1);
    var s3 := RunInterleaved(a, b, MessageGroups(false), s2);
    RunAppend(code, Pass2Middle(d, rest), s2);
    AfterMessage(a, IV, p, s2, s3);
    AfterMessage(b, IV, q, s2, s3);
    s' := RunPass2Middle(d, p, q, rest, s3);
  }

  // ---------------------------------------------------------------------------------
  // The loops
  // ---------------------------------------------------------------------------------

  /** Buffer at cell d holds the bytes p. */
  predicate BufferIs(s: Core, d: nat, p: Message)
    requires d <= MEM - 4
  {
    forall i | 0 <= i < 4 :: s.m[d + i] == Cell(p, i)
  }

  /** riskChain1x: rounds of hex(sha256(.)) in place; zero rounds change nothing. */
  method RiskChain1x(s: Core, rounds: nat, ghost p: Message) returns (s': Core)
    requires BufferIs(s, 8, p)
    ensures BufferIs(s', 8, Chain(p, rounds))
    ensures rounds == 0 ==> s' == s
  {
    hide Run, ChainEntry, Pass1, Abef, Cdgh, Cell, HexHash, FromBytes;
    if rounds == 0 {
      return s;
    }
    ghost var s1 := RunChainEntry(End, s);
    RunEnd(s1);
    s' := Run(ChainEntry(End), s);
    var r9 := rounds;
    ghost var q: Message := p;
    while r9 != 0
      invariant 0 <= r9 <= rounds && q == Chain(p, rounds - r9)
      invariant ChainReady(s') && Holds(Lane0(8), s', q)
      decreases r9
    {
      ghost var t := RunPass1(q, End, s');
      RunEnd(t);
      s' := Run(Pass1(End), s');
      q := HexHash(q);
      r9 := r9 - 1;
    }
  }

  /** riskChain2x: both buffers advance together. */
  method RiskChain2x(s: Core, rounds: nat, ghost p: Message, ghost q: Message) returns (s': Core)
    requires BufferIs(s, 8, p) && BufferIs(s, 12, q)
    ensures BufferIs(s', 8, Chain(p, rounds)) && BufferIs(s', 12, Chain(q, rounds))
    ensures rounds == 0 ==> s' == s
  {
    hide Run, ChainEntry, Pass2, Abef, Cdgh, Cell, HexHash, FromBytes;
    if rounds == 0 {
      return s;
    }
    ghost var s1 := RunChainEntry(End, s);
    RunEnd(s1);
    s' := Run(ChainEntry(End), s);
    var r9 := rounds;
    ghost var (a: Message, b: Message) := (p, q);
    while r9 != 0
      invariant 0 <= r9 <= rounds && a == Chain(p, rounds - r9) && b == Chain(q, rounds - r9)
      invariant ChainReady(s') && Holds(Lane0(8), s', a) && Holds(Lane1(12), s', b)
      decreases r9
    {
      ghost var t := RunPass2(8, a, b, End, s');
      RunEnd(t);
      s' := Run(Pass2(8, End), s');
      a, b := HexHash(a), HexHash(b);
      r9 := r9 - 1;
    }
  }

  ghost predicate FourBuffers(s: Core, a: Message, b: Message, c: Message, d: Message) {
    BufferIs(s, 8, a) && BufferIs(s, 12, b) && BufferIs(s, 16, c) && BufferIs(s, 20, d)
  }

  /** One loop round of riskChain4x: two buffers, then the other two. */
  lemma RunPass4(a: Message, b: Message, c: Message, d: Message, s: Core) returns (s': Core)
    requires ChainReady(s) && FourBuffers(s, a, b, c, d)
    ensures Run(Pass2(8, Pass2(16, End)), s) == s' && ChainReady(s')
    ensures FourBuffers(s', HexHash(a), HexHash(b), HexHash(c), HexHash(d))
  {
    hide Run, Pass2, Abef, Cdgh, Cell, HexHash, FromBytes;
    var t := RunPass2(8, a, b, Pass2(16, End), s);
    assert Holds(Lane0(16), t, c) && Holds(Lane1(20), t, d);
    s' := RunPass2(16, c, d, End, t);
    RunEnd(s');
    assert BufferIs(t, 8, HexHash(a)) && BufferIs(t, 12, HexHash(b));
  }

  method RiskChain4x(s: Core, rounds: nat, ghost p0: Message, ghost p1: Message, ghost p2: Message, ghost p3: Message)
    returns (s': Core)
    requires FourBuffers(s, p0, p1, p2, p3)
    ensures FourBuffers(s', Chain(p0, rounds), Chain(p1, rounds), Chain(p2, rounds), Chain(p3, rounds))
    ensures rounds == 0 ==> s' == s
  {
    hide Run, ChainEntry, Pass2, Abef, Cdgh, Cell, HexHash, FromBytes;
    if rounds == 0 {
      return s;
    }
    ghost var s1 := RunChainEntry(End, s);
    RunEnd(s1);
    s' := Run(ChainEntry(End), s);
    var r9 := rounds;
    ghost var n := 0;
    while r9 != 0
      invariant 0 <= r9 <= rounds && n == rounds - r9
      invariant ChainReady(s') && FourBuffers(s', Chain(p0, n), Chain(p1, n), Chain(p2, n), Chain(p3, n))
      decreases r9
    {
      ghost var t := RunPass4(Chain(p0, n), Chain(p1, n), Chain(p2, n), Chain(p3, n), s');
      s' := Run(Pass2(8, Pass2(16, End)), s');
      n := n + 1;
      r9 := r9 - 1;
    }
  }
}
