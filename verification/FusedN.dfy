/** The looping routines hashHex1N and pairHashHexN: the digest text stays in the message
    registers and is flipped in place into the next message on the back edge. */
module FusedN {
  import opened Sha256
  import opened Machine
  import opened Gen2Lane
  import opened Refine
  import opened Lanes
  import opened HexRegs
  import opened Fused

  /** The message registers hold the text p. */
  predicate TextInRegs(r: LaneRegs, s: Core, p: Message) {
    forall i | 0 <= i < 4 :: s.x[r.w[i]] == Cell(p, i)
  }

  /** The message registers hold the words of p, ready for the rounds. */
  predicate WordsInRegs(r: LaneRegs, s: Core, p: Message) {
    forall i | 0 <= i < 4 :: s.x[r.w[i]] == Quad(ParseBlock(p), i)
  }

  // ---------------------------------------------------------------------------------
  // Loads, flips and stores of the four message registers
  // ---------------------------------------------------------------------------------

  function LoadText(r: LaneRegs, rest: Code): Code {
    Then3(Instr(Mov, M(r.data), X(r.w[0])), Instr(Mov, M(r.data + 1), X(r.w[1])), Instr(Mov, M(r.data + 2), X(r.w[2])),
    Then(Instr(Mov, M(r.data + 3), X(r.w[3])), rest))
  }

  function FlipText(r: LaneRegs, rest: Code): Code {
    Then3(Instr(Pshufb, X(r.f), X(r.w[0])), Instr(Pshufb, X(r.f), X(r.w[1])), Instr(Pshufb, X(r.f), X(r.w[2])),
    Then(Instr(Pshufb, X(r.f), X(r.w[3])), rest))
  }

  function StoreText(r: LaneRegs, rest: Code): Code {
    Then3(Instr(Mov, X(r.w[0]), M(r.data)), Instr(Mov, X(r.w[1]), M(r.data + 1)), Instr(Mov, X(r.w[2]), M(r.data + 2)),
    Then(Instr(Mov, X(r.w[3]), M(r.data + 3)), rest))
  }

  /** Only lane r's message registers differ. */
  ghost predicate OnlyText(r: LaneRegs, s: Core, s': Core) {
    s'.m == s.m && forall i: RegIx | i != r.w[0] && i != r.w[1] && i != r.w[2] && i != r.w[3] :: s'.x[i] == s.x[i]
  }

  lemma RunLoadText(r: LaneRegs, p: Message, rest: Code, s: Core) returns (s': Core)
    requires Holds(r, s, p)
    ensures Run(LoadText(r, rest), s) == Run(rest, s')
    ensures TextInRegs(r, s', p) && OnlyText(r, s, s')
  {
    hide Run, Cell;
    var i, j, k, l := Instr(Mov, M(r.data), X(r.w[0])), Instr(Mov, M(r.data + 1), X(r.w[1])),
                      Instr(Mov, M(r.data + 2), X(r.w[2])), Instr(Mov, M(r.data + 3), X(r.w[3]));
    Run3(i, j, k, Then(l, rest), s);
    var t := Exec(k, Exec(j, Exec(i, s)));
    Run1(l, rest, t);
    s' := Exec(l, t);
    assert s.m[r.data] == Cell(p, 0) && s.m[r.data + 1] == Cell(p, 1);
  }

  /** The back edge: the digest text, flipped, is exactly the message the next iteration
      would have loaded from memory. */
  lemma RunFlipText(r: LaneRegs, p: Message, rest: Code, s: Core) returns (s': Core)
    requires TextInRegs(r, s, p) && s.x[r.f] == FLIP_MASK
    ensures Run(FlipText(r, rest), s) == Run(rest, s')
    ensures WordsInRegs(r, s', p) && OnlyText(r, s, s')
  {
    hide Run, Cell, PshufbOf, Quad, ParseBlock, FromBytes;
    var i, j, k, l := Instr(Pshufb, X(r.f), X(r.w[0])), Instr(Pshufb, X(r.f), X(r.w[1])),
                      Instr(Pshufb, X(r.f), X(r.w[2])), Instr(Pshufb, X(r.f), X(r.w[3]));
    Run3(i, j, k, Then(l, rest), s);
    var t := Exec(k, Exec(j, Exec(i, s)));
    Run1(l, rest, t);
    s' := Exec(l, t);
    FlippedCell(p, 0);
    FlippedCell(p, 1);
    FlippedCell(p, 2);
    FlippedCell(p, 3);
  }

  lemma RunStoreText(r: LaneRegs, p: Message, rest: Code, s: Core) returns (s': Core)
    requires TextInRegs(r, s, p)
    ensures Run(StoreText(r, rest), s) == Run(rest, s')
    ensures Holds(r, s', p) && s'.x == s.x
    ensures forall i: MemIx | !(r.data <= i < r.data + 4) :: s'.m[i] == s.m[i]
  {
    hide Run, Cell;
    var i, j, k, l := Instr(Mov, X(r.w[0]), M(r.data)), Instr(Mov, X(r.w[1]), M(r.data + 1)),
                      Instr(Mov, X(r.w[2]), M(r.data + 2)), Instr(Mov, X(r.w[3]), M(r.data + 3));
    Run3(i, j, k, Then(l, rest), s);
    var t := Exec(k, Exec(j, Exec(i, s)));
    Run1(l, rest, t);
    s' := Exec(l, t);
  }

  // ---------------------------------------------------------------------------------
  // Register epilogue: X14 swaps bytes, X15 masks nibbles, X0 and X7 are scratch
  // ---------------------------------------------------------------------------------

  function NibblesN(reg: RegIx, rest: Code): Code {
    Then3(Instr(Pshufb, X(FLIP), X(reg)), Instr(Mov, X(reg), X(0)), Instr(Psrlw4, X(0), X(0)),
    Then(Instr(Pand, X(15), X(0)), Then(Instr(Pand, X(15), X(reg)), rest)))
  }

  function DigitsN(reg: RegIx, rest: Code): Code {
    Then(Instr(Mov, C(HEX_LUT), X(7)), Then3(Instr(Pshufb, X(0), X(7)), Instr(Mov, C(HEX_LUT), X(0)), Instr(Pshufb, X(reg), X(0)), rest))
  }

  function InterlaceN(lo: RegIx, hi: RegIx, rest: Code): Code {
    Then3(Instr(Mov, X(7), X(lo)), Instr(Punpcklbw, X(0), X(lo)), Instr(Punpckhbw, X(0), X(7)),
    Then(Instr(Mov, X(7), X(hi)), rest))
  }

  function HexHalfN(reg: RegIx, lo: RegIx, hi: RegIx, rest: Code): Code {
    NibblesN(reg, DigitsN(reg, InterlaceN(lo, hi, rest)))
  }

  lemma RunNibblesN(reg: RegIx, rest: Code, s: Core) returns (s': Core)
    requires reg !in {0, 7, FLIP, 15} && s.x[FLIP] == FLIP_MASK && s.x[15] == MASK_0F
    ensures Run(NibblesN(reg, rest), s) == Run(rest, s')
    ensures var b := PshufbOf(s.x[reg], FLIP_MASK);
            s'.x[0] == PandOf(Psrlw4Of(b), MASK_0F) && s'.x[reg] == PandOf(b, MASK_0F)
    ensures Others(s, s', {0, reg})
  {
    hide Run, PshufbOf, Psrlw4Of, PandOf, FromBytes;
    var i1, i2, i3 := Instr(Pshufb, X(FLIP), X(reg)), Instr(Mov, X(reg), X(0)), Instr(Psrlw4, X(0), X(0));
    var i4, i5 := Instr(Pand, X(15), X(0)), Instr(Pand, X(15), X(reg));
    Run3(i1, i2, i3, Then(i4, Then(i5, rest)), s);
    var t := Exec(i3, Exec(i2, Exec(i1, s)));
    s' := Exec(i5, Exec(i4, t));
    Run2(i4, i5, rest, t);
  }

  lemma RunDigitsN(reg: RegIx, rest: Code, s: Core) returns (s': Core)
    requires reg !in {0, 7, FLIP, 15}
    ensures Run(DigitsN(reg, rest), s) == Run(rest, s')
    ensures s'.x[7] == PshufbOf(HEX_LUT, s.x[0]) && s'.x[0] == PshufbOf(HEX_LUT, s.x[reg])
    ensures Others(s, s', {0, 7})
  {
    hide Run, PshufbOf, FromBytes;
    var i1, i2, i3, i4 := Instr(Mov, C(HEX_LUT), X(7)), Instr(Pshufb, X(0), X(7)), Instr(Mov, C(HEX_LUT), X(0)), Instr(Pshufb, X(reg), X(0));
    var t := Exec(i1, s);
    Run1(i1, Then3(i2, i3, i4, rest), s);
    Run3(i2, i3, i4, rest, t);
    s' := Exec(i4, Exec(i3, Exec(i2, t)));
  }

  lemma RunInterlaceN(lo: RegIx, hi: RegIx, rest: Code, s: Core) returns (s': Core)
    requires lo !in {0, 7} && hi !in {0, 7} && lo != hi
    ensures Run(InterlaceN(lo, hi, rest), s) == Run(rest, s')
    ensures s'.x[lo] == PunpckOf(0, s.x[7], s.x[0]) && s'.x[hi] == PunpckOf(1, s.x[7], s.x[0])
    ensures Others(s, s', {7, lo, hi})
  {
    hide Run, PunpckOf;
    var i1, i2, i3, i4 := Instr(Mov, X(7), X(lo)), Instr(Punpcklbw, X(0), X(lo)), Instr(Punpckhbw, X(0), X(7)), Instr(Mov, X(7), X(hi));
    Run3(i1, i2, i3, Then(i4, rest), s);
    var t := Exec(i3, Exec(i2, Exec(i1, s)));
    Run1(i4, rest, t);
    s' := Exec(i4, t);
  }

  lemma RunHexHalfN(reg: RegIx, lo: RegIx, hi: RegIx, rest: Code, s: Core) returns (s': Core)
    requires reg !in {0, 7, FLIP, 15} && lo !in {0, 7, FLIP, 15, reg} && hi !in {0, 7, FLIP, 15, reg} && lo != hi
    requires s.x[FLIP] == FLIP_MASK && s.x[15] == MASK_0F
    ensures Run(HexHalfN(reg, lo, hi, rest), s) == Run(rest, s')
    ensures s'.x[lo] == HexQuad(s.x[reg], 0) && s'.x[hi] == HexQuad(s.x[reg], 1)
    ensures Others(s, s', {0, 7, reg, lo, hi})
  {
    hide Run, NibblesN, DigitsN, InterlaceN, PshufbOf, Psrlw4Of, PandOf, PunpckOf, FromBytes;
    var t := RunNibblesN(reg, DigitsN(reg, InterlaceN(lo, hi, rest)), s);
    var u := RunDigitsN(reg, InterlaceN(lo, hi, rest), t);
    s' := RunInterlaceN(lo, hi, rest, u);
  }

  function EpilogueN(r: LaneRegs, rest: Code): Code {
    Unshuffle(r, 0, HexHalfN(r.s1, r.w[0], r.w[1], HexHalfN(r.s2, r.w[2], r.w[3], rest)))
  }

  lemma RunEpilogueN(r: LaneRegs, h: Vars, rest: Code, s: Core) returns (s': Core)
    requires r.f == FLIP && r.s1 !in {7, 15} && r.s2 !in {7, 15} && forall i | 0 <= i < 4 :: r.w[i] !in {7, 15}
    requires s.x[FLIP] == FLIP_MASK && s.x[15] == MASK_0F
    requires InState(r, s, h)
    ensures Run(EpilogueN(r, rest), s) == Run(rest, s')
    ensures TextInRegs(r, s', HexEncode(DigestBytes(h)))
    ensures s'.m == s.m && forall i: RegIx | i != 0 && i != 7 && !r.Uses(i) :: s'.x[i] == s.x[i]
  {
    hide Run, Unshuffle, HexHalfN, HexQuad, Cell, Abef, Cdgh, DigestBytes, HexEncode, FromBytes;
    DigestCells(h);
    var t := RunUnshuffle(r, 0, h, HexHalfN(r.s1, r.w[0], r.w[1], HexHalfN(r.s2, r.w[2], r.w[3], rest)), s);
    assert r.w[0] != r.w[1] && r.w[2] != r.w[3];
    var u := RunHexHalfN(r.s1, r.w[0], r.w[1], HexHalfN(r.s2, r.w[2], r.w[3], rest), t);
    s' := RunHexHalfN(r.s2, r.w[2], r.w[3], rest, u);
  }

  // ---------------------------------------------------------------------------------
  // One iteration inside the loop
  // ---------------------------------------------------------------------------------

  lemma AfterMessageN(r: LaneRegs, h: Vars, p: Message, s: Core, t: Core)
    requires WordsInRegs(r, s, p) && InState(r, s, h)
    requires ViewOf(r, t) == FoldView(MessageGroups(true), ViewOf(r, s), Message4(r, s))
    ensures InState(r, t, Rounds(h, ParseBlock(p), 64))
  {
    hide FoldView, Quad, ParseBlock, PshufbOf, MessageGroups, Rounds, Abef, Cdgh, Sched;
    var m := ParseBlock(p);
    var v := ViewOf(r, s);
    assert v.w == [Quad(m, 0), Quad(m, 1), Quad(m, 2), Quad(m, 3)];
    MessageBlock(h, m, true, v, Message4(r, s));
  }

  /** What every loop head of the single-lane routine finds besides the message. */
  predicate LoopReady(s: Core) {
    Saved(s, 0, 1, IV) && s.x[FLIP] == FLIP_MASK
  }

  function Loop1(): Code {
    Then(Instr(Mov, M(0), X(1)), Then(Instr(Mov, M(1), X(2)),
      Append(EmitAll(RegsOf(A), MessageGroups(true)), Loop1Middle())))
  }

  function Loop1Middle(): Code {
    Feedforward(RegsOf(A), 7, 0, 1, Save(RegsOf(A), 2, 3, Append(EmitAll(RegsOf(A), PadGroups()), Loop1End())))
  }

  function Loop1End(): Code {
    Feedforward(RegsOf(A), 7, 2, 3, Then(Instr(Mov, C(MASK_0F), X(15)), EpilogueN(RegsOf(A), End)))
  }

  lemma RunLoop1End(h: Vars, s: Core) returns (s': Core)
    requires LoopReady(s) && Saved(s, 2, 3, h) && InState(RegsOf(A), s, Rounds(h, PAD64, 64))
    ensures Run(Loop1End(), s) == s'
    ensures LoopReady(s') && TextInRegs(RegsOf(A), s', HexEncode(DigestBytes(Compress(h, PAD64))))
    ensures s'.m == s.m
  {
    hide Run, Feedforward, EpilogueN, Rounds, Feed, Abef, Cdgh, Cell, HexEncode, DigestBytes, FromBytes;
    var y := Rounds(h, PAD64, 64);
    var i := Instr(Mov, C(MASK_0F), X(15));
    var s1 := RunFeedforward(RegsOf(A), 7, 2, 3, h, y, Then(i, EpilogueN(RegsOf(A), End)), s);
    Run1(i, EpilogueN(RegsOf(A), End), s1);
    s' := RunEpilogueN(RegsOf(A), Feed(h, y), End, Exec(i, s1));
    RunEnd(s');
  }

  /** One pass through the loop body turns the words of p into the text of HexHash(p). */
  lemma RunLoop1(p: Message, s: Core) returns (s': Core)
    requires LoopReady(s) && WordsInRegs(RegsOf(A), s, p)
    ensures Run(Loop1(), s) == s'
    ensures LoopReady(s') && TextInRegs(RegsOf(A), s', HexHash(p))
    ensures forall i: MemIx | i >= 12 :: s'.m[i] == s.m[i]
  {
    var r := RegsOf(A);
    hide Run, FoldView, EmitAll, MessageGroups, PadGroups, Feedforward, Save, Rounds, Feed, Abef, Cdgh, Message4, Cell,
         Quad, HexEncode, DigestBytes, FromBytes, Loop1End, Hash, ParseBlock;
    var (i, j) := (Instr(Mov, M(0), X(1)), Instr(Mov, M(1), X(2)));
    var code := EmitAll(r, MessageGroups(true));
    Run2(i, j, Append(code, Loop1Middle()), s);
    var s1 := Exec(j, Exec(i, s));
    var s2 := RunSolo(r, MessageGroups(true), s1);
    RunAppend(code, Loop1Middle(), s1);
    AfterMessageN(r, IV, p, s1, s2);
    var y := Rounds(IV, ParseBlock(p), 64);
    var h := Feed(IV, y);
    var c2 := Append(EmitAll(r, PadGroups()), Loop1End());
    var s3 := RunFeedforward(r, 7, 0, 1, IV, y, Save(r, 2, 3, c2), s2);
    var s4 := RunSave(r, 2, 3, h, c2, s3);
    var s5 := RunSolo(r, PadGroups(), s4);
    RunAppend(EmitAll(r, PadGroups()), Loop1End(), s4);
    AfterPad(r, h, s4, s5);
    s' := RunLoop1End(h, s5);
    HashOf64(p);
  }

  lemma RunFlipOne(p: Message, s: Core) returns (s': Core)
    requires TextInRegs(RegsOf(A), s, p) && LoopReady(s)
    ensures Run(FlipText(RegsOf(A), End), s) == s' && LoopReady(s')
    ensures WordsInRegs(RegsOf(A), s', p) && s'.m == s.m
  {
    hide Run, FlipText, Abef, Cdgh, Cell, Quad, ParseBlock, FromBytes;
    s' := RunFlipText(RegsOf(A), p, End, s);
    RunEnd(s');
  }

  /** hashHex1N: n fused iterations in place; nothing happens when n <= 0. */
  method HashHex1N(s: Core, n: int, ghost p: Message) returns (s': Core)
    requires Holds(RegsOf(A), s, p)
    ensures Holds(RegsOf(A), s', Chain(p, if n > 0 then n else 0))
    ensures forall i: MemIx | i >= 12 :: s'.m[i] == s.m[i]
    ensures n <= 0 ==> s' == s
  {
    hide Run, Entry, LoadText, FlipText, StoreText, Loop1, Abef, Cdgh, Cell, Quad, HexHash, ParseBlock, FromBytes;
    if n <= 0 {
      return s;
    }
    var r := RegsOf(A);
    s' := Run(Entry(LoadText(r, FlipText(r, End))), s);
    ghost var s1 := RunEntry(LoadText(r, FlipText(r, End)), s);
    ghost var s2 := RunLoadText(r, p, FlipText(r, End), s1);
    ghost var s3 := RunFlipText(r, p, End, s2);
    RunEnd(s3);
    var cx := n;
    ghost var q: Message := p;
    while true
      invariant 1 <= cx <= n && q == Chain(p, n - cx)
      invariant LoopReady(s') && WordsInRegs(r, s', q)
      invariant forall i: MemIx | i >= 12 :: s'.m[i] == s.m[i]
      decreases cx
    {
      ghost var t := RunLoop1(q, s');
      s' := Run(Loop1(), s');
      q := HexHash(q);
      cx := cx - 1;
      if cx == 0 {
        break;
      }
      ghost var u := RunFlipOne(q, s');
      s' := Run(FlipText(r, End), s');
    }
    ghost var v := RunStoreText(r, q, End, s');
    RunEnd(v);
    s' := Run(StoreText(r, End), s');
  }

  // ---------------------------------------------------------------------------------
  // Two lanes
  // ---------------------------------------------------------------------------------

  function Loop2(): Code {
    Then3(Instr(Mov, M(0), X(1)), Instr(Mov, M(1), X(2)), Instr(Mov, X(1), X(8)), Then(Instr(Mov, X(2), X(9)),
      Append(Interleave(RegsOf(A), RegsOf(B), MessageGroups(true)), Loop2Middle())))
  }

  function Loop2Middle(): Code {
    Feedforward(RegsOf(A), 7, 0, 1, Save(RegsOf(A), 2, 3,
    Feedforward(RegsOf(B), 7, 0, 1, Save(RegsOf(B), 4, 5, Append(Interleave(RegsOf(A), RegsOf(B), PadGroups()), Loop2End())))))
  }

  function Loop2End(): Code {
    Feedforward(RegsOf(A), 7, 2, 3, Feedforward(RegsOf(B), 7, 4, 5, TextBoth()))
  }

  lemma RunFeedBoth(h: Vars, g: Vars, rest: Code, s: Core) returns (s': Core)
    requires LoopReady(s) && Saved(s, 2, 3, h) && Saved(s, 4, 5, g)
    requires InState(RegsOf(A), s, Rounds(h, PAD64, 64)) && InState(RegsOf(B), s, Rounds(g, PAD64, 64))
    ensures Run(Feedforward(RegsOf(A), 7, 2, 3, Feedforward(RegsOf(B), 7, 4, 5, rest)), s) == Run(rest, s')
    ensures LoopReady(s') && InState(RegsOf(A), s', Compress(h, PAD64)) && InState(RegsOf(B), s', Compress(g, PAD64))
    ensures s'.m == s.m
  {
    hide Run, Feedforward, Rounds, Feed, Abef, Cdgh, FromBytes;
    var (y, z) := (Rounds(h, PAD64, 64), Rounds(g, PAD64, 64));
    var s1 := RunFeedforward(RegsOf(A), 7, 2, 3, h, y, Feedforward(RegsOf(B), 7, 4, 5, rest), s);
    s' := RunFeedforward(RegsOf(B), 7, 4, 5, g, z, rest, s1);
  }

  function TextBoth(): Code {
    Then(Instr(Mov, C(MASK_0F), X(15)), EpilogueN(RegsOf(A), EpilogueN(RegsOf(B), End)))
  }

  lemma RunTextBoth(x: Vars, y: Vars, s: Core) returns (s': Core)
    requires LoopReady(s) && InState(RegsOf(A), s, x) && InState(RegsOf(B), s, y)
    ensures Run(TextBoth(), s) == s' && LoopReady(s')
    ensures TextInRegs(RegsOf(A), s', HexEncode(DigestBytes(x))) && TextInRegs(RegsOf(B), s', HexEncode(DigestBytes(y)))
    ensures s'.m == s.m
  {
    hide Run, EpilogueN, Abef, Cdgh, Cell, HexEncode, DigestBytes, FromBytes;
    var i := Instr(Mov, C(MASK_0F), X(15));
    var last := EpilogueN(RegsOf(B), End);
    Run1(i, EpilogueN(RegsOf(A), last), s);
    var t := RunEpilogueN(RegsOf(A), x, last, Exec(i, s));
    s' := RunEpilogueN(RegsOf(B), y, End, t);
    RunEnd(s');
  }

  lemma RunLoop2End(h: Vars, g: Vars, s: Core) returns (s': Core)
    requires LoopReady(s) && Saved(s, 2, 3, h) && Saved(s, 4, 5, g)
    requires InState(RegsOf(A), s, Rounds(h, PAD64, 64)) && InState(RegsOf(B), s, Rounds(g, PAD64, 64))
    ensures Run(Loop2End(), s) == s' && LoopReady(s')
    ensures TextInRegs(RegsOf(A), s', HexEncode(DigestBytes(Compress(h, PAD64))))
    ensures TextInRegs(RegsOf(B), s', HexEncode(DigestBytes(Compress(g, PAD64))))
    ensures s'.m == s.m
  {
    hide Run, Feedforward, TextBoth, Rounds, Compress, Abef, Cdgh, Cell, HexEncode, DigestBytes, FromBytes, InState,
         LoopReady, TextInRegs, Saved;
    var t := RunFeedBoth(h, g, TextBoth(), s);
    s' := RunTextBoth(Compress(h, PAD64), Compress(g, PAD64), t);
  }

  lemma RunLoop2Middle(p: Message, q: Message, s: Core) returns (s': Core)
    requires LoopReady(s)
    requires InState(RegsOf(A), s, Rounds(IV, ParseBlock(p), 64)) && InState(RegsOf(B), s, Rounds(IV, ParseBlock(q), 64))
    ensures Run(Loop2Middle(), s) == s' && LoopReady(s')
    ensures TextInRegs(RegsOf(A), s', HexHash(p)) && TextInRegs(RegsOf(B), s', HexHash(q))
    ensures forall i: MemIx | i >= 16 :: s'.m[i] == s.m[i]
  {
    hide Run, FoldView, Interleave, PadGroups, Feedforward, Save, Rounds, Feed, Abef, Cdgh, Message4, Cell,
         HexEncode, DigestBytes, FromBytes, Loop2End, Hash, ParseBlock;
    var (y, z) := (Rounds(IV, ParseBlock(p), 64), Rounds(IV, ParseBlock(q), 64));
    var (h, g) := (Feed(IV, y), Feed(IV, z));
    var c4 := Append(Interleave(RegsOf(A), RegsOf(B), PadGroups()), Loop2End());
    var c3 := Save(RegsOf(B), 4, 5, c4);
    var c2 := Feedforward(RegsOf(B), 7, 0, 1, c3);
    var s1 := RunFeedforward(RegsOf(A), 7, 0, 1, IV, y, Save(RegsOf(A), 2, 3, c2), s);
    var s2 := RunSave(RegsOf(A), 2, 3, h, c2, s1);
    var s3 := RunFeedforward(RegsOf(B), 7, 0, 1, IV, z, c3, s2);
    var s4 := RunSave(RegsOf(B), 4, 5, g, c4, s3);
    var s5 := RunInterleaved(RegsOf(A), RegsOf(B), PadGroups(), s4);
    RunAppend(Interleave(RegsOf(A), RegsOf(B), PadGroups()), Loop2End(), s4);
    AfterPad(RegsOf(A), h, s4, s5);
    AfterPad(RegsOf(B), g, s4, s5);
    s' := RunLoop2End(h, g, s5);
    HashOf64(p);
    HashOf64(q);
  }

  lemma RunLoop2(p: Message, q: Message, s: Core) returns (s': Core)
    requires LoopReady(s) && WordsInRegs(RegsOf(A), s, p) && WordsInRegs(RegsOf(B), s, q)
    ensures Run(Loop2(), s) == s' && LoopReady(s')
    ensures TextInRegs(RegsOf(A), s', HexHash(p)) && TextInRegs(RegsOf(B), s', HexHash(q))
    ensures forall i: MemIx | i >= 16 :: s'.m[i] == s.m[i]
  {
    hide Run, FoldView, Interleave, MessageGroups, Loop2Middle, Rounds, Abef, Cdgh, Message4, Cell, Quad,
         HexEncode, FromBytes, Hash, ParseBlock;
    var (i, j, k, l) := (Instr(Mov, M(0), X(1)), Instr(Mov, M(1), X(2)), Instr(Mov, X(1), X(8)), Instr(Mov, X(2), X(9)));
    var rest := Append(Interleave(RegsOf(A), RegsOf(B), MessageGroups(true)), Loop2Middle());
    Run3(i, j, k, Then(l, rest), s);
    var t := Exec(k, Exec(j, Exec(i, s)));
    Run1(l, rest, t);
    var s1 := Exec(l, t);
    var s2 := RunInterleaved(RegsOf(A), RegsOf(B), MessageGroups(true), s1);
    RunAppend(Interleave(RegsOf(A), RegsOf(B), MessageGroups(true)), Loop2Middle(), s1);
    AfterMessageN(RegsOf(A), IV, p, s1, s2);
    AfterMessageN(RegsOf(B), IV, q, s1, s2);
    s' := RunLoop2Middle(p, q, s2);
  }

  /** LoadText and FlipText for lane A, then for lane B. */
  function LoadBoth(rest: Code): Code {
    LoadText(RegsOf(A), FlipText(RegsOf(A), LoadText(RegsOf(B), FlipText(RegsOf(B), rest))))
  }

  lemma RunLoadBoth(p: Message, q: Message, s: Core) returns (s': Core)
    requires Holds(RegsOf(A), s, p) && Holds(RegsOf(B), s, q) && LoopReady(s)
    ensures Run(LoadBoth(End), s) == s' && LoopReady(s')
    ensures WordsInRegs(RegsOf(A), s', p) && WordsInRegs(RegsOf(B), s', q)
    ensures s'.m == s.m
  {
    hide Run, LoadText, FlipText, Abef, Cdgh, Cell, Quad, ParseBlock, FromBytes;
    var cb := FlipText(RegsOf(B), End);
    var s1 := RunLoadText(RegsOf(A), p, FlipText(RegsOf(A), LoadText(RegsOf(B), cb)), s);
    var s2 := RunFlipText(RegsOf(A), p, LoadText(RegsOf(B), cb), s1);
    var s3 := RunLoadText(RegsOf(B), q, cb, s2);
    s' := RunFlipText(RegsOf(B), q, End, s3);
    RunEnd(s');
  }

  lemma RunFlipBoth(p: Message, q: Message, s: Core) returns (s': Core)
    requires TextInRegs(RegsOf(A), s, p) && TextInRegs(RegsOf(B), s, q) && LoopReady(s)
    ensures Run(FlipText(RegsOf(A), FlipText(RegsOf(B), End)), s) == s' && LoopReady(s')
    ensures WordsInRegs(RegsOf(A), s', p) && WordsInRegs(RegsOf(B), s', q)
    ensures s'.m == s.m
  {
    hide Run, FlipText, Abef, Cdgh, Cell, Quad, ParseBlock, FromBytes;
    var s1 := RunFlipText(RegsOf(A), p, FlipText(RegsOf(B), End), s);
    s' := RunFlipText(RegsOf(B), q, End, s1);
    RunEnd(s');
  }

  lemma RunStoreBoth(p: Message, q: Message, s: Core) returns (s': Core)
    requires TextInRegs(RegsOf(A), s, p) && TextInRegs(RegsOf(B), s, q)
    ensures Run(StoreText(RegsOf(A), StoreText(RegsOf(B), End)), s) == s'
    ensures Holds(RegsOf(A), s', p) && Holds(RegsOf(B), s', q)
    ensures forall i: MemIx | i >= 16 :: s'.m[i] == s.m[i]
  {
    hide Run, StoreText, Cell;
    var s1 := RunStoreText(RegsOf(A), p, StoreText(RegsOf(B), End), s);
    s' := RunStoreText(RegsOf(B), q, End, s1);
    RunEnd(s');
  }

  /** pairHashHexN: n fused iterations of both lanes and of no other buffer; nothing happens
      when n <= 0. */
  method PairHashHexN(s: Core, n: int, ghost p: Message, ghost q: Message) returns (s': Core)
    requires Holds(RegsOf(A), s, p) && Holds(RegsOf(B), s, q)
    ensures Holds(RegsOf(A), s', Chain(p, if n > 0 then n else 0))
    ensures Holds(RegsOf(B), s', Chain(q, if n > 0 then n else 0))
    ensures forall i: MemIx | i >= 16 :: s'.m[i] == s.m[i]
    ensures n <= 0 ==> s' == s
  {
    hide Run, Entry, LoadBoth, FlipText, StoreText, Loop2, Abef, Cdgh, Cell, Quad, HexHash, ParseBlock, FromBytes;
    if n <= 0 {
      return s;
    }
    s' := Run(Entry(LoadBoth(End)), s);
    ghost var s1 := RunEntry(LoadBoth(End), s);
    ghost var s2 := RunLoadBoth(p, q, s1);
    var cx := n;
    ghost var (a: Message, b: Message) := (p, q);
    while true
      invariant 1 <= cx <= n && a == Chain(p, n - cx) && b == Chain(q, n - cx)
      invariant LoopReady(s') && WordsInRegs(RegsOf(A), s', a) && WordsInRegs(RegsOf(B), s', b)
      invariant forall i: MemIx | i >= 16 :: s'.m[i] == s.m[i]
      decreases cx
    {
      ghost var t := RunLoop2(a, b, s');
      s' := Run(Loop2(), s');
      a, b := HexHash(a), HexHash(b);
      cx := cx - 1;
      if cx == 0 {
        break;
      }
      ghost var u := RunFlipBoth(a, b, s');
      s' := Run(FlipText(RegsOf(A), FlipText(RegsOf(B), End)), s');
    }
    ghost var v := RunStoreBoth(a, b, s');
    s' := Run(StoreText(RegsOf(A), StoreText(RegsOf(B), End)), s');
  }
}
