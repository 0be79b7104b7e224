/** blockSHANI2: the two-lane single-block compression.  Cells 16,17 and 20,21 hold the two
    chaining values in digest order, cells 0,1 and 2,3 are the lanes' save slots. */
module Block2 {
  import opened Sha256
  import opened Machine
  import opened Gen2Lane
  import opened Refine
  import opened Lanes
  import opened Fused

  /** The chaining value h as the eight words of a digest in memory. */
  predicate DigestAt(s: Core, dig: MemIx, h: Vars)
    requires dig + 1 < MEM
  {
    s.m[dig] == Xmm(h.a, h.b, h.c, h.d) && s.m[dig + 1] == Xmm(h.e, h.f, h.g, h.h)
  }

  function StateLoad(r: LaneRegs, dig: MemIx, save: MemIx, rest: Code): Code
    requires dig + 1 < MEM && save + 1 < MEM
  {
    Then(Instr(Mov, M(dig), X(r.s1)), Then(Instr(Mov, M(dig + 1), X(r.s2)), Shuffle(r, Save(r, save, save + 1, rest))))
  }

  function StateStore(r: LaneRegs, dig: MemIx, save: MemIx, rest: Code): Code
    requires dig + 1 < MEM && save + 1 < MEM
  {
    Feedforward(r, r.t, save, save + 1, Unshuffle(r, r.t,
      Then(Instr(Mov, X(r.s1), M(dig)), Then(Instr(Mov, X(r.s2), M(dig + 1)), rest))))
  }

  lemma RunStateLoad(r: LaneRegs, dig: MemIx, save: MemIx, h: Vars, rest: Code, s: Core) returns (s': Core)
    requires dig + 1 < MEM && save + 1 < MEM && DigestAt(s, dig, h)
    ensures Run(StateLoad(r, dig, save, rest), s) == Run(rest, s')
    ensures InState(r, s', h) && Saved(s', save, save + 1, h)
    ensures forall i: MemIx | i != save && i != save + 1 :: s'.m[i] == s.m[i]
    ensures forall i: RegIx | i != r.s1 && i != r.s2 && i != r.t :: s'.x[i] == s.x[i]
  {
    hide Run, Shuffle, Save, Abef, Cdgh;
    var i, j := Instr(Mov, M(dig), X(r.s1)), Instr(Mov, M(dig + 1), X(r.s2));
    Run2(i, j, Shuffle(r, Save(r, save, save + 1, rest)), s);
    var t := RunShuffle(r, h, Save(r, save, save + 1, rest), Exec(j, Exec(i, s)));
    s' := RunSave(r, save, save + 1, h, rest, t);
  }

  lemma RunStateStore(r: LaneRegs, dig: MemIx, save: MemIx, h: Vars, y: Vars, rest: Code, s: Core) returns (s': Core)
    requires dig + 1 < MEM && save + 1 < MEM
    requires InState(r, s, y) && Saved(s, save, save + 1, h)
    ensures Run(StateStore(r, dig, save, rest), s) == Run(rest, s')
    ensures DigestAt(s', dig, Feed(h, y))
    ensures forall i: MemIx | i != dig && i != dig + 1 :: s'.m[i] == s.m[i]
    ensures forall i: RegIx | i != r.s1 && i != r.s2 && i != r.t :: s'.x[i] == s.x[i]
  {
    hide Run, Feedforward, Unshuffle, Abef, Cdgh, Feed;
    var (i, j) := (Instr(Mov, X(r.s1), M(dig)), Instr(Mov, X(r.s2), M(dig + 1)));
    var c := Then(i, Then(j, rest));
    var t := RunFeedforward(r, r.t, save, save + 1, h, y, Unshuffle(r, r.t, c), s);
    var u := RunUnshuffle(r, r.t, Feed(h, y), c, t);
    Run2(i, j, rest, u);
    s' := Exec(j, Exec(i, u));
  }

  function Stores(): Code {
    StateStore(RegsOf(A), 16, 0, StateStore(RegsOf(B), 20, 2, End))
  }

  function BlockShani2(): Code {
    Then(Instr(Mov, C(FLIP_MASK), X(FLIP)), StateLoad(RegsOf(A), 16, 0, StateLoad(RegsOf(B), 20, 2,
      Append(Interleave(RegsOf(A), RegsOf(B), MessageGroups(false)), Stores()))))
  }

  lemma RunStores(h: Vars, g: Vars, p: Message, q: Message, s: Core) returns (s': Core)
    requires InState(RegsOf(A), s, Rounds(h, ParseBlock(p), 64)) && InState(RegsOf(B), s, Rounds(g, ParseBlock(q), 64))
    requires Saved(s, 0, 1, h) && Saved(s, 2, 3, g)
    ensures Run(Stores(), s) == s'
    ensures DigestAt(s', 16, Compress(h, ParseBlock(p))) && DigestAt(s', 20, Compress(g, ParseBlock(q)))
    ensures forall i: MemIx | i >= 4 && i !in {16, 17, 20, 21} :: s'.m[i] == s.m[i]
  {
    hide Run, StateStore, Abef, Cdgh, Feed, Rounds, ParseBlock;
    var (y, z) := (Rounds(h, ParseBlock(p), 64), Rounds(g, ParseBlock(q), 64));
    var t := RunStateStore(RegsOf(A), 16, 0, h, y, StateStore(RegsOf(B), 20, 2, End), s);
    s' := RunStateStore(RegsOf(B), 20, 2, g, z, End, t);
    RunEnd(s');
  }

  /** Both digests are compressed with their own message block; the blocks stay as they are. */
  lemma BlockShani2Correct(h: Vars, g: Vars, p: Message, q: Message, s: Core) returns (s': Core)
    requires DigestAt(s, 16, h) && DigestAt(s, 20, g)
    requires Holds(RegsOf(A), s, p) && Holds(RegsOf(B), s, q)
    ensures s' == Run(BlockShani2(), s)
    ensures DigestAt(s', 16, Compress(h, ParseBlock(p))) && DigestAt(s', 20, Compress(g, ParseBlock(q)))
    ensures Holds(RegsOf(A), s', p) && Holds(RegsOf(B), s', q)
    ensures forall i: MemIx | i >= 4 && i !in {16, 17, 20, 21} :: s'.m[i] == s.m[i]
  {
    hide Run, FoldView, Interleave, MessageGroups, StateLoad, Stores, Rounds, Abef, Cdgh, Message4, Cell, FromBytes,
         ParseBlock, Compress;
    var code := Interleave(RegsOf(A), RegsOf(B), MessageGroups(false));
    var i := Instr(Mov, C(FLIP_MASK), X(FLIP));
    var c2 := Append(code, Stores());
    var c1 := StateLoad(RegsOf(B), 20, 2, c2);
    Run1(i, StateLoad(RegsOf(A), 16, 0, c1), s);
    var s0 := Exec(i, s);
    var s1 := RunStateLoad(RegsOf(A), 16, 0, h, c1, s0);
    assert DigestAt(s1, 20, g);
    var s2 := RunStateLoad(RegsOf(B), 20, 2, g, c2, s1);
    assert InState(RegsOf(A), s2, h);
    var s3 := RunInterleaved(RegsOf(A), RegsOf(B), MessageGroups(false), s2);
    RunAppend(code, Stores(), s2);
    AfterMessage(RegsOf(A), h, p, s2, s3);
    AfterMessage(RegsOf(B), g, q, s2, s3);
    s' := RunStores(h, g, p, q, s3);
  }
}
