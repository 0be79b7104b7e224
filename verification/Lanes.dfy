/** Sequences of groups: one lane alone, and two lanes interleaved group by group. */
module Lanes {
  import opened Sha256
  import opened Machine
  import opened Gen2Lane
  import opened Refine
  import PadTable

  type Groups = seq<ValidGroup>

  /** What a sequence of groups does to one lane. */
  function FoldView(gs: Groups, v: LaneView, msg: seq<Xmm>): LaneView
    requires |msg| == 4
  {
    if gs == [] then v else StepView(gs[|gs| - 1], FoldView(gs[..|gs| - 1], v, msg), msg)
  }

  function EmitAll(r: LaneRegs, gs: Groups): Code {
    if gs == [] then End else Append(EmitAll(r, gs[..|gs| - 1]), Emit(r, gs[|gs| - 1]))
  }

  /** Lanes that share no register but X0 and the flip register. */
  predicate Apart(a: LaneRegs, b: LaneRegs) {
    a.f == b.f && forall i: RegIx :: !(a.Uses(i) && b.Uses(i))
  }

  /** Lane a's group, then the same group of lane b, for every group in turn. */
  function Interleave(a: LaneRegs, b: LaneRegs, gs: Groups): Code {
    if gs == [] then End else
      var g := gs[|gs| - 1];
      Append(Append(Interleave(a, b, gs[..|gs| - 1]), Emit(a, g)), Emit(b, g))
  }

  lemma {:induction false} RunSolo(r: LaneRegs, gs: Groups, s: Core) returns (s': Core)
    requires s.x[r.f] == FLIP_MASK
    ensures s' == Run(EmitAll(r, gs), s)
    ensures ViewOf(r, s') == FoldView(gs, ViewOf(r, s), Message4(r, s))
    ensures OnlyLane(r, s, s')
  {
    hide Emit, StepView, Run, PshufbOf;
    if gs == [] {
      s' := s;
      RunEnd(s);
    } else {
      var n := |gs| - 1;
      var t := RunSolo(r, gs[..n], s);
      RunAppend(EmitAll(r, gs[..n]), Emit(r, gs[n]), s);
      s' := RunEmit(r, gs[n], t);
    }
  }

  lemma RunEnd(s: Core)
    ensures Run(End, s) == s
  {
  }

  /** Nothing outside the two lanes and X0 changes. */
  ghost predicate OnlyLanes(a: LaneRegs, b: LaneRegs, s: Core, s': Core) {
    s'.m == s.m && forall i: RegIx | i != 0 && !a.Uses(i) && !b.Uses(i) :: s'.x[i] == s.x[i]
  }

  /** Interleaving two lanes group by group gives each lane what it would compute alone:
      every group reloads X0 before using it and the lanes share no other register. */
  lemma {:induction false} RunInterleaved(a: LaneRegs, b: LaneRegs, gs: Groups, s: Core) returns (s': Core)
    requires Apart(a, b) && s.x[a.f] == FLIP_MASK
    ensures s' == Run(Interleave(a, b, gs), s)
    ensures ViewOf(a, s') == FoldView(gs, ViewOf(a, s), Message4(a, s))
    ensures ViewOf(b, s') == FoldView(gs, ViewOf(b, s), Message4(b, s))
    ensures OnlyLanes(a, b, s, s')
  {
    hide Emit, StepView, Run, PshufbOf, FromBytes;
    if gs == [] {
      s' := s;
      RunEnd(s);
    } else {
      var n := |gs| - 1;
      var t := RunInterleaved(a, b, gs[..n], s);
      RunAppend(Interleave(a, b, gs[..n]), Emit(a, gs[n]), s);
      RunAppend(Append(Interleave(a, b, gs[..n]), Emit(a, gs[n])), Emit(b, gs[n]), s);
      assert !a.Uses(a.f) && !b.Uses(b.f);
      s' := RunBothLanes(a, b, gs[n], t);
    }
  }

  lemma RunBothLanes(a: LaneRegs, b: LaneRegs, g: ValidGroup, s: Core) returns (s': Core)
    requires Apart(a, b) && s.x[a.f] == FLIP_MASK
    ensures s' == Run(Emit(b, g), Run(Emit(a, g), s))
    ensures ViewOf(a, s') == StepView(g, ViewOf(a, s), Message4(a, s))
    ensures ViewOf(b, s') == StepView(g, ViewOf(b, s), Message4(b, s))
    ensures OnlyLanes(a, b, s, s')
  {
    hide Emit, StepView, Run, PshufbOf, FromBytes;
    var t := RunEmit(a, g, s);
    assert !a.Uses(a.f);
    s' := RunEmit(b, g, t);
    OtherLane(a, b, s, t);
    OtherLane(b, a, t, s');
  }

  lemma OtherLane(a: LaneRegs, b: LaneRegs, s: Core, s': Core)
    requires Apart(a, b) && OnlyLane(a, s, s')
    ensures ViewOf(b, s') == ViewOf(b, s)
  {
    assert b.Uses(b.s1) && b.Uses(b.s2) && b.Uses(b.w[0]) && b.Uses(b.w[1]) && b.Uses(b.w[2]) && b.Uses(b.w[3]);
  }

  // ---------------------------------------------------------------------------------
  // The two blocks of a fused iteration
  // ---------------------------------------------------------------------------------

  function MessageGroups(fromReg: bool): (gs: Groups)
    ensures |gs| == 16
  {
    seq(16, k requires 0 <= k < 16 => GroupAt(k, fromReg))
  }

  function PadGroups(): (gs: Groups)
    ensures |gs| == 16
  {
    seq(16, g requires 0 <= g < 16 => Pad(g))
  }

  lemma FoldNext(gs: Groups, k: nat, v: LaneView, msg: seq<Xmm>)
    requires k < |gs| && |msg| == 4
    ensures FoldView(gs[..k + 1], v, msg) == StepView(gs[k], FoldView(gs[..k], v, msg), msg)
  {
    hide StepView;
    assert gs[..k + 1][..k] == gs[..k];
  }

  lemma FoldNone(v: LaneView, msg: seq<Xmm>)
    requires |msg| == 4
    ensures FoldView([], v, msg) == v
  {
    hide StepView;
  }

  lemma BeforeGroups(h: Vars, m: Block, fromReg: bool, v: LaneView, msg: seq<Xmm>)
    requires (if fromReg then v.w else msg) == [Quad(m, 0), Quad(m, 1), Quad(m, 2), Quad(m, 3)]
    ensures Rounds(h, m, 0) == h && Window(m, 0, fromReg, v.w)
  {
    hide Quad, Half, Round;
  }

  lemma {:induction false} MessagePrefix(h: Vars, m: Block, k: nat, fromReg: bool, v: LaneView, msg: seq<Xmm>)
    requires k <= 16 && |msg| == 4
    requires StateIs(v, h)
    requires (if fromReg then v.w else msg) == [Quad(m, 0), Quad(m, 1), Quad(m, 2), Quad(m, 3)]
    ensures var v' := FoldView(MessageGroups(fromReg)[..k], v, msg);
            StateIs(v', Rounds(h, m, 4 * k)) && Window(m, k, fromReg, v'.w)
  {
    hide Quad, Half, FoldView, StepView, StateIs, GroupAt, Rounds, Window;
    var gs := MessageGroups(fromReg);
    if k == 0 {
      FoldNone(v, msg);
      BeforeGroups(h, m, fromReg, v, msg);
      assert gs[..0] == [];
    } else {
      MessagePrefix(h, m, k - 1, fromReg, v, msg);
      FoldNext(gs, k - 1, v, msg);
      GroupRefine(h, m, k - 1, fromReg, FoldView(gs[..k - 1], v, msg), msg);
    }
  }

  /** Sixteen groups carry a lane through all 64 rounds of its message block. */
  lemma MessageBlock(h: Vars, m: Block, fromReg: bool, v: LaneView, msg: seq<Xmm>)
    requires |msg| == 4
    requires StateIs(v, h)
    requires (if fromReg then v.w else msg) == [Quad(m, 0), Quad(m, 1), Quad(m, 2), Quad(m, 3)]
    ensures StateIs(FoldView(MessageGroups(fromReg), v, msg), Rounds(h, m, 64))
  {
    hide Quad, Half, StateIs, Rounds, FoldView, GroupAt;
    MessagePrefix(h, m, 16, fromReg, v, msg);
    assert MessageGroups(fromReg)[..16] == MessageGroups(fromReg);
  }

  lemma {:induction false} PadPrefix(h: Vars, k: nat, v: LaneView, msg: seq<Xmm>)
    requires k <= 16 && |msg| == 4
    requires StateIs(v, h)
    ensures StateIs(FoldView(PadGroups()[..k], v, msg), Rounds(h, PAD64, 4 * k))
  {
    hide StateIs, FoldView, FourRounds, PadQuad, PadddOf, Quad, KQuadAt, Round, Sched;
    var gs := PadGroups();
    if k == 0 {
      FoldNone(v, msg);
      assert gs[..0] == [];
    } else {
      PadPrefix(h, k - 1, v, msg);
      FoldNext(gs, k - 1, v, msg);
      PadQuadIs(k - 1);
      FourRoundsRefine(h, PAD64, k - 1, FoldView(gs[..k - 1], v, msg), PadQuad(k - 1));
    }
  }

  lemma PadQuadIs(g: nat)
    requires g < 16
    ensures PadQuad(g) == PadddOf(Quad(PAD64, g), KQuadAt(g))
  {
    hide WkPad, Add, Sched, K;
    PadTable.TableIsSchedule(4 * g);
    PadTable.TableIsSchedule(4 * g + 1);
    PadTable.TableIsSchedule(4 * g + 2);
    PadTable.TableIsSchedule(4 * g + 3);
  }

  /** Sixteen groups straight from the precomputed table equal the 64 rounds, full
      schedule included, of the constant padding block. */
  lemma PadBlock(h: Vars, v: LaneView, msg: seq<Xmm>)
    requires |msg| == 4
    requires StateIs(v, h)
    ensures StateIs(FoldView(PadGroups(), v, msg), Rounds(h, PAD64, 64))
  {
    hide StateIs, Rounds, FoldView;
    PadPrefix(h, 16, v, msg);
    assert PadGroups()[..16] == PadGroups();
  }
}
