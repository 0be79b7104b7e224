/** The rest of gen2lane.py's routines as they are emitted: the two-lane block compression and
    the looping routines, whose straight-line parts are their start, one pass of the loop, the
    back edge and the final store. */
module GeneratorLoops {
  import opened Sha256
  import opened Machine
  import opened Gen2Lane
  import opened Lanes
  import opened Fused
  import opened FusedN
  import opened Block2
  import opened Generator

  // ---------------------------------------------------------------------------------
  // Listings
  // ---------------------------------------------------------------------------------

  function StateLoadList(r: LaneRegs, dig: MemIx, save: MemIx): Listing
    requires dig + 1 < MEM && save + 1 < MEM
  {
    [Instr(Mov, M(dig), X(r.s1)), Instr(Mov, M(dig + 1), X(r.s2))] + ShuffleList(r) + SaveList(r, save, save + 1)
  }

  function UnshuffleList(r: LaneRegs, t: RegIx): Listing {
    [Instr(Pshufd(0x1b), X(r.s1), X(r.s1)), Instr(Pshufd(0xb1), X(r.s2), X(r.s2)), Instr(Mov, X(r.s1), X(t)),
     Instr(Pblendw(0xf0), X(r.s2), X(r.s1)), Instr(Palignr(2), X(t), X(r.s2))]
  }

  function StateStoreList(r: LaneRegs, dig: MemIx, save: MemIx): Listing
    requires dig + 1 < MEM && save + 1 < MEM
  {
    FeedList(r, r.t, save, save + 1) + UnshuffleList(r, r.t)
    + [Instr(Mov, X(r.s1), M(dig)), Instr(Mov, X(r.s2), M(dig + 1))]
  }

  function LoadTextList(r: LaneRegs): Listing {
    [Instr(Mov, M(r.data), X(r.w[0])), Instr(Mov, M(r.data + 1), X(r.w[1])), Instr(Mov, M(r.data + 2), X(r.w[2])),
     Instr(Mov, M(r.data + 3), X(r.w[3]))]
  }

  function FlipTextList(r: LaneRegs): Listing {
    [Instr(Pshufb, X(r.f), X(r.w[0])), Instr(Pshufb, X(r.f), X(r.w[1])), Instr(Pshufb, X(r.f), X(r.w[2])),
     Instr(Pshufb, X(r.f), X(r.w[3]))]
  }

  function StoreTextList(r: LaneRegs): Listing {
    [Instr(Mov, X(r.w[0]), M(r.data)), Instr(Mov, X(r.w[1]), M(r.data + 1)), Instr(Mov, X(r.w[2]), M(r.data + 2)),
     Instr(Mov, X(r.w[3]), M(r.data + 3))]
  }

  function NibblesNList(reg: RegIx): Listing {
    [Instr(Pshufb, X(FLIP), X(reg)), Instr(Mov, X(reg), X(0)), Instr(Psrlw4, X(0), X(0)), Instr(Pand, X(15), X(0)),
     Instr(Pand, X(15), X(reg))]
  }

  function HalfNList(reg: RegIx, lo: RegIx, hi: RegIx): Listing {
    NibblesNList(reg)
    + [Instr(Mov, C(HEX_LUT), X(7)), Instr(Pshufb, X(0), X(7)), Instr(Mov, C(HEX_LUT), X(0)), Instr(Pshufb, X(reg), X(0)),
       Instr(Mov, X(7), X(lo)), Instr(Punpcklbw, X(0), X(lo)), Instr(Punpckhbw, X(0), X(7)), Instr(Mov, X(7), X(hi))]
  }

  function EpilogueNList(r: LaneRegs): Listing {
    UnshuffleList(r, 0) + HalfNList(r.s1, r.w[0], r.w[1]) + HalfNList(r.s2, r.w[2], r.w[3])
  }

  lemma ListThen4(i: Instr, j: Instr, k: Instr, l: Instr, rest: Code)
    ensures ListOf(Then3(i, j, k, Then(l, rest))) == [i, j, k, l] + ListOf(rest)
  {
    hide ListOf;
    ListThen(l, rest);
    ListThen3(i, j, k, Then(l, rest));
  }

  lemma ListThen5(i: Instr, j: Instr, k: Instr, l: Instr, m: Instr, rest: Code)
    ensures ListOf(Then3(i, j, k, Then(l, Then(m, rest)))) == [i, j, k, l, m] + ListOf(rest)
  {
    hide ListOf;
    ListThen(m, rest);
    ListThen4(i, j, k, l, Then(m, rest));
  }

  lemma FlatStateLoad(r: LaneRegs, dig: MemIx, save: MemIx, rest: Code)
    requires dig + 1 < MEM && save + 1 < MEM
    ensures ListOf(StateLoad(r, dig, save, rest)) == StateLoadList(r, dig, save) + ListOf(rest)
  {
    hide ListOf, Shuffle, Save, ShuffleList, SaveList;
    var (i, j) := (Instr(Mov, M(dig), X(r.s1)), Instr(Mov, M(dig + 1), X(r.s2)));
    var c := Save(r, save, save + 1, rest);
    FlatSave(r, save, save + 1, rest);
    FlatShuffle(r, c);
    ListThen(j, Shuffle(r, c));
    ListThen(i, Then(j, Shuffle(r, c)));
  }

  lemma FlatUnshuffle(r: LaneRegs, t: RegIx, rest: Code)
    ensures ListOf(Unshuffle(r, t, rest)) == UnshuffleList(r, t) + ListOf(rest)
  {
    hide ListOf;
    ListThen5(Instr(Pshufd(0x1b), X(r.s1), X(r.s1)), Instr(Pshufd(0xb1), X(r.s2), X(r.s2)), Instr(Mov, X(r.s1), X(t)),
              Instr(Pblendw(0xf0), X(r.s2), X(r.s1)), Instr(Palignr(2), X(t), X(r.s2)), rest);
  }

  lemma FlatStateStore(r: LaneRegs, dig: MemIx, save: MemIx, rest: Code)
    requires dig + 1 < MEM && save + 1 < MEM
    ensures ListOf(StateStore(r, dig, save, rest)) == StateStoreList(r, dig, save) + ListOf(rest)
  {
    hide ListOf, Feedforward, Unshuffle, FeedList, UnshuffleList;
    var (i, j) := (Instr(Mov, X(r.s1), M(dig)), Instr(Mov, X(r.s2), M(dig + 1)));
    var c := Then(i, Then(j, rest));
    ListThen(j, rest);
    ListThen(i, Then(j, rest));
    FlatUnshuffle(r, r.t, c);
    FlatFeed(r, r.t, save, save + 1, Unshuffle(r, r.t, c));
  }

  lemma FlatLoadText(r: LaneRegs, rest: Code)
    ensures ListOf(LoadText(r, rest)) == LoadTextList(r) + ListOf(rest)
  {
    hide ListOf;
    ListThen4(Instr(Mov, M(r.data), X(r.w[0])), Instr(Mov, M(r.data + 1), X(r.w[1])), Instr(Mov, M(r.data + 2), X(r.w[2])),
              Instr(Mov, M(r.data + 3), X(r.w[3])), rest);
  }

  lemma FlatFlipText(r: LaneRegs, rest: Code)
    ensures ListOf(FlipText(r, rest)) == FlipTextList(r) + ListOf(rest)
  {
    hide ListOf;
    ListThen4(Instr(Pshufb, X(r.f), X(r.w[0])), Instr(Pshufb, X(r.f), X(r.w[1])), Instr(Pshufb, X(r.f), X(r.w[2])),
              Instr(Pshufb, X(r.f), X(r.w[3])), rest);
  }

  lemma FlatStoreText(r: LaneRegs, rest: Code)
    ensures ListOf(StoreText(r, rest)) == StoreTextList(r) + ListOf(rest)
  {
    hide ListOf;
    ListThen4(Instr(Mov, X(r.w[0]), M(r.data)), Instr(Mov, X(r.w[1]), M(r.data + 1)), Instr(Mov, X(r.w[2]), M(r.data + 2)),
              Instr(Mov, X(r.w[3]), M(r.data + 3)), rest);
  }

  lemma FlatHalfN(reg: RegIx, lo: RegIx, hi: RegIx, rest: Code)
    ensures ListOf(HexHalfN(reg, lo, hi, rest)) == HalfNList(reg, lo, hi) + ListOf(rest)
  {
    hide ListOf, FromBytes;
    var c := InterlaceN(lo, hi, rest);
    ListThen4(Instr(Mov, X(7), X(lo)), Instr(Punpcklbw, X(0), X(lo)), Instr(Punpckhbw, X(0), X(7)), Instr(Mov, X(7), X(hi)), rest);
    var (i, j, k, l) := (Instr(Mov, C(HEX_LUT), X(7)), Instr(Pshufb, X(0), X(7)), Instr(Mov, C(HEX_LUT), X(0)), Instr(Pshufb, X(reg), X(0)));
    ListThen3(j, k, l, c);
    ListThen(i, Then3(j, k, l, c));
    ListThen5(Instr(Pshufb, X(FLIP), X(reg)), Instr(Mov, X(reg), X(0)), Instr(Psrlw4, X(0), X(0)), Instr(Pand, X(15), X(0)),
              Instr(Pand, X(15), X(reg)), DigitsN(reg, c));
  }

  lemma FlatEpilogueN(r: LaneRegs, rest: Code)
    ensures ListOf(EpilogueN(r, rest)) == EpilogueNList(r) + ListOf(rest)
  {
    hide ListOf, Unshuffle, UnshuffleList, HexHalfN, HalfNList;
    var c := HexHalfN(r.s2, r.w[2], r.w[3], rest);
    FlatHalfN(r.s2, r.w[2], r.w[3], rest);
    FlatHalfN(r.s1, r.w[0], r.w[1], c);
    FlatUnshuffle(r, 0, HexHalfN(r.s1, r.w[0], r.w[1], c));
  }

  // ---------------------------------------------------------------------------------
  // Emit functions
  // ---------------------------------------------------------------------------------

  method EmitStateLoad(e: Emitter, r: LaneRegs, dig: MemIx, save: MemIx)
    requires dig + 1 < MEM && save + 1 < MEM
    modifies e
    ensures e.out == old(e.out) + StateLoadList(r, dig, save)
  {
    hide SaveList;
    e.Add1(Instr(Mov, M(dig), X(r.s1)));
    e.Add1(Instr(Mov, M(dig + 1), X(r.s2)));
    e.Add1(Instr(Pshufd(0xb1), X(r.s1), X(r.s1)));
    e.Add1(Instr(Pshufd(0x1b), X(r.s2), X(r.s2)));
    e.Add1(Instr(Mov, X(r.s1), X(r.t)));
    e.Add1(Instr(Palignr(2), X(r.s2), X(r.s1)));
    e.Add1(Instr(Pblendw(0xf0), X(r.t), X(r.s2)));
    e.EmitSave(r, save, save + 1);
  }

  method EmitUnshuffle(e: Emitter, r: LaneRegs, t: RegIx)
    modifies e
    ensures e.out == old(e.out) + UnshuffleList(r, t)
  {
    e.Add1(Instr(Pshufd(0x1b), X(r.s1), X(r.s1)));
    e.Add1(Instr(Pshufd(0xb1), X(r.s2), X(r.s2)));
    e.Add1(Instr(Mov, X(r.s1), X(t)));
    e.Add1(Instr(Pblendw(0xf0), X(r.s2), X(r.s1)));
    e.Add1(Instr(Palignr(2), X(t), X(r.s2)));
  }

  method EmitStateStore(e: Emitter, r: LaneRegs, dig: MemIx, save: MemIx)
    requires dig + 1 < MEM && save + 1 < MEM
    modifies e
    ensures e.out == old(e.out) + StateStoreList(r, dig, save)
  {
    hide FeedList, UnshuffleList;
    e.EmitFeedforward(r, r.t, save, save + 1);
    EmitUnshuffle(e, r, r.t);
    e.Add1(Instr(Mov, X(r.s1), M(dig)));
    e.Add1(Instr(Mov, X(r.s2), M(dig + 1)));
  }

  /** emit_msg_load_flip, its first half. */
  method EmitLoadText(e: Emitter, r: LaneRegs)
    modifies e
    ensures e.out == old(e.out) + LoadTextList(r)
  {
    ghost var was := e.out;
    for q := 0 to 4
      invariant e.out == was + LoadTextList(r)[..q]
    {
      e.Add1(Instr(Mov, M(r.data + q), X(r.w[q])));
    }
    assert LoadTextList(r)[..4] == LoadTextList(r);
  }

  /** emit_msg_flip. */
  method EmitFlipText(e: Emitter, r: LaneRegs)
    modifies e
    ensures e.out == old(e.out) + ListOf(FlipText(r, End))
  {
    hide ListOf, FlipText;
    ListNone();
    FlatFlipText(r, End);
    ghost var was := e.out;
    for q := 0 to 4
      invariant e.out == was + FlipTextList(r)[..q]
    {
      e.Add1(Instr(Pshufb, X(r.f), X(r.w[q])));
    }
    assert FlipTextList(r)[..4] == FlipTextList(r);
  }

  /** emit_msg_store. */
  method EmitStoreText(e: Emitter, r: LaneRegs)
    modifies e
    ensures e.out == old(e.out) + ListOf(StoreText(r, End))
  {
    hide ListOf, StoreText;
    ListNone();
    FlatStoreText(r, End);
    ghost var was := e.out;
    for q := 0 to 4
      invariant e.out == was + StoreTextList(r)[..q]
    {
      e.Add1(Instr(Mov, X(r.w[q]), M(r.data + q)));
    }
    assert StoreTextList(r)[..4] == StoreTextList(r);
  }

  method EmitNibblesN(e: Emitter, reg: RegIx)
    modifies e
    ensures e.out == old(e.out) + NibblesNList(reg)
  {
    e.Add1(Instr(Pshufb, X(FLIP), X(reg)));
    e.Add1(Instr(Mov, X(reg), X(0)));
    e.Add1(Instr(Psrlw4, X(0), X(0)));
    e.Add1(Instr(Pand, X(15), X(0)));
    e.Add1(Instr(Pand, X(15), X(reg)));
  }

  /** One half of emit_hex_epilogue_reg. */
  method EmitHalfN(e: Emitter, reg: RegIx, lo: RegIx, hi: RegIx)
    modifies e
    ensures e.out == old(e.out) + HalfNList(reg, lo, hi)
  {
    hide FromBytes, NibblesNList;
    EmitNibblesN(e, reg);
    e.Add1(Instr(Mov, C(HEX_LUT), X(7)));
    e.Add1(Instr(Pshufb, X(0), X(7)));
    e.Add1(Instr(Mov, C(HEX_LUT), X(0)));
    e.Add1(Instr(Pshufb, X(reg), X(0)));
    e.Add1(Instr(Mov, X(7), X(lo)));
    e.Add1(Instr(Punpcklbw, X(0), X(lo)));
    e.Add1(Instr(Punpckhbw, X(0), X(7)));
    e.Add1(Instr(Mov, X(7), X(hi)));
  }

  /** emit_hex_epilogue_reg. */
  method EmitEpilogueN(e: Emitter, r: LaneRegs)
    modifies e
    ensures e.out == old(e.out) + EpilogueNList(r)
  {
    hide UnshuffleList, HalfNList;
    EmitUnshuffle(e, r, 0);
    EmitHalfN(e, r.s1, r.w[0], r.w[1]);
    EmitHalfN(e, r.s2, r.w[2], r.w[3]);
  }

  // ---------------------------------------------------------------------------------
  // blockSHANI2
  // ---------------------------------------------------------------------------------

  lemma FlatStores()
    ensures ListOf(Stores()) == StateStoreList(RegsOf(A), 16, 0) + StateStoreList(RegsOf(B), 20, 2)
  {
    hide ListOf, StateStore, StateStoreList;
    ListNone();
    FlatStateStore(RegsOf(B), 20, 2, End);
    FlatStateStore(RegsOf(A), 16, 0, StateStore(RegsOf(B), 20, 2, End));
  }

  lemma FlatBlockShani2()
    ensures ListOf(BlockShani2())
         == [Instr(Mov, C(FLIP_MASK), X(FLIP))] + StateLoadList(RegsOf(A), 16, 0) + StateLoadList(RegsOf(B), 20, 2)
            + ListOf(Interleave(RegsOf(A), RegsOf(B), MessageGroups(false))) + ListOf(Stores())
  {
    hide ListOf, StateLoad, StateLoadList, Interleave, MessageGroups, Stores, FromBytes;
    var code := Interleave(RegsOf(A), RegsOf(B), MessageGroups(false));
    var c := Append(code, Stores());
    ListAppend(code, Stores());
    FlatStateLoad(RegsOf(B), 20, 2, c);
    FlatStateLoad(RegsOf(A), 16, 0, StateLoad(RegsOf(B), 20, 2, c));
    ListThen(Instr(Mov, C(FLIP_MASK), X(FLIP)), StateLoad(RegsOf(A), 16, 0, StateLoad(RegsOf(B), 20, 2, c)));
  }

  /** The whole of blockSHANI2. */
  method EmitBlockShani2(e: Emitter)
    modifies e
    ensures e.out == old(e.out) + ListOf(BlockShani2())
  {
    hide ListOf, BlockShani2, Interleave, MessageGroups, Stores, StateLoadList, StateStoreList, FromBytes;
    e.Add1(Instr(Mov, C(FLIP_MASK), X(FLIP)));
    EmitStateLoad(e, RegsOf(A), 16, 0);
    EmitStateLoad(e, RegsOf(B), 20, 2);
    e.EmitMessageGroups(RegsOf(A), RegsOf(B), false);
    EmitStateStore(e, RegsOf(A), 16, 0);
    EmitStateStore(e, RegsOf(B), 20, 2);
    FlatStores();
    FlatBlockShani2();
  }

  // ---------------------------------------------------------------------------------
  // hashHex1N
  // ---------------------------------------------------------------------------------

  lemma FlatStart1()
    ensures ListOf(Entry(LoadText(RegsOf(A), FlipText(RegsOf(A), End))))
         == EntryList() + LoadTextList(RegsOf(A)) + ListOf(FlipText(RegsOf(A), End))
  {
    hide ListOf, Entry, LoadText, FlipText, EntryList, LoadTextList;
    FlatLoadText(RegsOf(A), FlipText(RegsOf(A), End));
    FlatEntry(LoadText(RegsOf(A), FlipText(RegsOf(A), End)));
  }

  /** Everything before the loop. */
  method EmitStart1(e: Emitter)
    modifies e
    ensures e.out == old(e.out) + ListOf(Entry(LoadText(RegsOf(A), FlipText(RegsOf(A), End))))
  {
    hide ListOf, Entry, FlipText, EntryList, LoadTextList;
    e.EmitEntry();
    EmitLoadText(e, RegsOf(A));
    EmitFlipText(e, RegsOf(A));
    FlatStart1();
  }

  lemma FlatLoop1End()
    ensures ListOf(Loop1End()) == FeedList(RegsOf(A), 7, 2, 3) + [Instr(Mov, C(MASK_0F), X(15))] + EpilogueNList(RegsOf(A))
  {
    hide ListOf, Feedforward, FeedList, EpilogueN, EpilogueNList, FromBytes;
    var i := Instr(Mov, C(MASK_0F), X(15));
    ListNone();
    FlatEpilogueN(RegsOf(A), End);
    ListThen(i, EpilogueN(RegsOf(A), End));
    FlatFeed(RegsOf(A), 7, 2, 3, Then(i, EpilogueN(RegsOf(A), End)));
  }

  lemma FlatLoop1()
    ensures ListOf(Loop1())
         == [Instr(Mov, M(0), X(1))] + [Instr(Mov, M(1), X(2))] + ListOf(EmitAll(RegsOf(A), MessageGroups(true)))
            + FeedList(RegsOf(A), 7, 0, 1) + SaveList(RegsOf(A), 2, 3) + ListOf(EmitAll(RegsOf(A), PadGroups())) + ListOf(Loop1End())
  {
    hide ListOf, EmitAll, Feedforward, FeedList, Save, SaveList, MessageGroups, PadGroups, Loop1End;
    var (i, j) := (Instr(Mov, M(0), X(1)), Instr(Mov, M(1), X(2)));
    var (c1, c2) := (EmitAll(RegsOf(A), MessageGroups(true)), EmitAll(RegsOf(A), PadGroups()));
    ListAppend(c2, Loop1End());
    FlatSave(RegsOf(A), 2, 3, Append(c2, Loop1End()));
    FlatFeed(RegsOf(A), 7, 0, 1, Save(RegsOf(A), 2, 3, Append(c2, Loop1End())));
    ListAppend(c1, Loop1Middle());
    ListThen(j, Append(c1, Loop1Middle()));
    ListThen(i, Then(j, Append(c1, Loop1Middle())));
  }

  method EmitLoop1End(e: Emitter)
    modifies e
    ensures e.out == old(e.out) + ListOf(Loop1End())
  {
    hide ListOf, Loop1End, FeedList, EpilogueNList, FromBytes;
    e.EmitFeedforward(RegsOf(A), 7, 2, 3);
    e.Add1(Instr(Mov, C(MASK_0F), X(15)));
    EmitEpilogueN(e, RegsOf(A));
    FlatLoop1End();
  }

  /** The loop of hashHex1N, up to the decrement. */
  method EmitLoop1(e: Emitter)
    modifies e
    ensures e.out == old(e.out) + ListOf(Loop1())
  {
    hide ListOf, EmitAll, Loop1, Loop1End, FeedList, SaveList, MessageGroups, PadGroups;
    e.Add1(Instr(Mov, M(0), X(1)));
    e.Add1(Instr(Mov, M(1), X(2)));
    e.EmitSoloMessage(RegsOf(A), true);
    e.EmitFeedforward(RegsOf(A), 7, 0, 1);
    e.EmitSave(RegsOf(A), 2, 3);
    e.EmitSoloPad(RegsOf(A));
    EmitLoop1End(e);
    FlatLoop1();
  }

  // ---------------------------------------------------------------------------------
  // pairHashHexN
  // ---------------------------------------------------------------------------------

  lemma FlatStart2()
    ensures ListOf(Entry(LoadBoth(End)))
         == EntryList() + LoadTextList(RegsOf(A)) + ListOf(FlipText(RegsOf(A), End))
            + LoadTextList(RegsOf(B)) + ListOf(FlipText(RegsOf(B), End))
  {
    hide ListOf, Entry, LoadText, FlipText, EntryList, LoadTextList, FlipTextList;
    ListNone();
    var c := LoadText(RegsOf(B), FlipText(RegsOf(B), End));
    FlatLoadText(RegsOf(B), FlipText(RegsOf(B), End));
    FlatFlipText(RegsOf(A), End);
    FlatFlipText(RegsOf(A), c);
    FlatLoadText(RegsOf(A), FlipText(RegsOf(A), c));
    FlatEntry(LoadBoth(End));
  }

  /** Everything before the loop. */
  method EmitStart2(e: Emitter)
    modifies e
    ensures e.out == old(e.out) + ListOf(Entry(LoadBoth(End)))
  {
    hide ListOf, Entry, LoadBoth, FlipText, EntryList, LoadTextList;
    e.EmitEntry();
    EmitLoadText(e, RegsOf(A));
    EmitFlipText(e, RegsOf(A));
    EmitLoadText(e, RegsOf(B));
    EmitFlipText(e, RegsOf(B));
    FlatStart2();
  }

  lemma FlatLoop2End()
    ensures ListOf(Loop2End())
         == FeedList(RegsOf(A), 7, 2, 3) + FeedList(RegsOf(B), 7, 4, 5) + [Instr(Mov, C(MASK_0F), X(15))]
            + EpilogueNList(RegsOf(A)) + EpilogueNList(RegsOf(B))
  {
    hide ListOf, Feedforward, FeedList, EpilogueN, EpilogueNList, FromBytes;
    var i := Instr(Mov, C(MASK_0F), X(15));
    var last := EpilogueN(RegsOf(B), End);
    ListNone();
    FlatEpilogueN(RegsOf(B), End);
    FlatEpilogueN(RegsOf(A), last);
    ListThen(i, EpilogueN(RegsOf(A), last));
    FlatFeed(RegsOf(B), 7, 4, 5, TextBoth());
    FlatFeed(RegsOf(A), 7, 2, 3, Feedforward(RegsOf(B), 7, 4, 5, TextBoth()));
  }

  lemma FlatLoop2Middle()
    ensures ListOf(Loop2Middle())
         == FeedList(RegsOf(A), 7, 0, 1) + SaveList(RegsOf(A), 2, 3) + FeedList(RegsOf(B), 7, 0, 1) + SaveList(RegsOf(B), 4, 5)
            + ListOf(Interleave(RegsOf(A), RegsOf(B), PadGroups())) + ListOf(Loop2End())
  {
    hide ListOf, Interleave, Feedforward, FeedList, Save, SaveList, PadGroups, Loop2End;
    var c := Append(Interleave(RegsOf(A), RegsOf(B), PadGroups()), Loop2End());
    var d := Feedforward(RegsOf(B), 7, 0, 1, Save(RegsOf(B), 4, 5, c));
    ListAppend(Interleave(RegsOf(A), RegsOf(B), PadGroups()), Loop2End());
    FlatSave(RegsOf(B), 4, 5, c);
    FlatFeed(RegsOf(B), 7, 0, 1, Save(RegsOf(B), 4, 5, c));
    FlatSave(RegsOf(A), 2, 3, d);
    FlatFeed(RegsOf(A), 7, 0, 1, Save(RegsOf(A), 2, 3, d));
  }

  lemma FlatLoop2()
    ensures ListOf(Loop2())
         == [Instr(Mov, M(0), X(1)), Instr(Mov, M(1), X(2)), Instr(Mov, X(1), X(8)), Instr(Mov, X(2), X(9))]
            + ListOf(Interleave(RegsOf(A), RegsOf(B), MessageGroups(true))) + ListOf(Loop2Middle())
  {
    hide ListOf, Interleave, MessageGroups, Loop2Middle;
    var c := Interleave(RegsOf(A), RegsOf(B), MessageGroups(true));
    ListAppend(c, Loop2Middle());
    ListThen4(Instr(Mov, M(0), X(1)), Instr(Mov, M(1), X(2)), Instr(Mov, X(1), X(8)), Instr(Mov, X(2), X(9)), Append(c, Loop2Middle()));
  }

  method EmitLoop2End(e: Emitter)
    modifies e
    ensures e.out == old(e.out) + ListOf(Loop2End())
  {
    hide ListOf, Loop2End, FeedList, EpilogueNList, FromBytes;
    e.EmitFeedforward(RegsOf(A), 7, 2, 3);
    e.EmitFeedforward(RegsOf(B), 7, 4, 5);
    e.Add1(Instr(Mov, C(MASK_0F), X(15)));
    EmitEpilogueN(e, RegsOf(A));
    EmitEpilogueN(e, RegsOf(B));
    FlatLoop2End();
  }

  method EmitLoop2Middle(e: Emitter)
    modifies e
    ensures e.out == old(e.out) + ListOf(Loop2Middle())
  {
    hide ListOf, Interleave, Loop2Middle, Loop2End, FeedList, SaveList, PadGroups;
    e.EmitFeedforward(RegsOf(A), 7, 0, 1);
    e.EmitSave(RegsOf(A), 2, 3);
    e.EmitFeedforward(RegsOf(B), 7, 0, 1);
    e.EmitSave(RegsOf(B), 4, 5);
    e.EmitPadGroups(RegsOf(A), RegsOf(B));
    EmitLoop2End(e);
    FlatLoop2Middle();
  }

  /** The loop of pairHashHexN, up to the decrement. */
  method EmitLoop2(e: Emitter)
    modifies e
    ensures e.out == old(e.out) + ListOf(Loop2())
  {
    hide ListOf, Interleave, Loop2, Loop2Middle, MessageGroups;
    e.Add1(Instr(Mov, M(0), X(1)));
    e.Add1(Instr(Mov, M(1), X(2)));
    e.Add1(Instr(Mov, X(1), X(8)));
    e.Add1(Instr(Mov, X(2), X(9)));
    e.EmitMessageGroups(RegsOf(A), RegsOf(B), true);
    EmitLoop2Middle(e);
    FlatLoop2();
  }

  // ---------------------------------------------------------------------------------
  // What the listings do
  // ---------------------------------------------------------------------------------

  /** Run on any core, the listing emitted for blockSHANI2 compresses both digests with their
      own block. */
  lemma ListedBlockShani2(h: Vars, g: Vars, p: Message, q: Message, s: Core)
    requires DigestAt(s, 16, h) && DigestAt(s, 20, g)
    requires Holds(RegsOf(A), s, p) && Holds(RegsOf(B), s, q)
    ensures var s' := RunList(ListOf(BlockShani2()), s);
      && DigestAt(s', 16, Compress(h, ParseBlock(p))) && DigestAt(s', 20, Compress(g, ParseBlock(q)))
      && Holds(RegsOf(A), s', p) && Holds(RegsOf(B), s', q)
  {
    hide Run, RunList, ListOf, BlockShani2, Cell, Compress, ParseBlock;
    RunListOf(BlockShani2(), s);
    var s' := BlockShani2Correct(h, g, p, q, s);
  }

  /** One pass of the emitted loop of hashHex1N, and the emitted back edge, take the message
      registers from the words of p to the words of its hash. */
  lemma ListedLoop1(p: Message, s: Core)
    requires LoopReady(s) && WordsInRegs(RegsOf(A), s, p)
    ensures var s' := RunList(ListOf(FlipText(RegsOf(A), End)), RunList(ListOf(Loop1()), s));
      LoopReady(s') && WordsInRegs(RegsOf(A), s', HexHash(p))
  {
    hide Run, RunList, ListOf, Loop1, FlipText, LoopReady, TextInRegs, WordsInRegs, HexHash;
    RunListOf(Loop1(), s);
    var t := RunLoop1(p, s);
    RunListOf(FlipText(RegsOf(A), End), t);
    var u := RunFlipOne(HexHash(p), t);
  }

  /** The same for both lanes of pairHashHexN. */
  lemma ListedLoop2(p: Message, q: Message, s: Core)
    requires LoopReady(s) && WordsInRegs(RegsOf(A), s, p) && WordsInRegs(RegsOf(B), s, q)
    ensures var s' := RunList(ListOf(FlipText(RegsOf(A), FlipText(RegsOf(B), End))), RunList(ListOf(Loop2()), s));
      LoopReady(s') && WordsInRegs(RegsOf(A), s', HexHash(p)) && WordsInRegs(RegsOf(B), s', HexHash(q))
  {
    hide Run, RunList, ListOf, Loop2, FlipText, LoopReady, TextInRegs, WordsInRegs, HexHash;
    RunListOf(Loop2(), s);
    var t := RunLoop2(p, q, s);
    RunListOf(FlipText(RegsOf(A), FlipText(RegsOf(B), End)), t);
    var u := RunFlipBoth(HexHash(p), HexHash(q), t);
  }
}
