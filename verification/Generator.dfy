/** gen2lane.py as it runs: emit functions that append instructions to a growing listing,
    driven by the group tables, and the loop that precomputes the padding schedule. */
module Generator {
  import opened Sha256
  import opened Machine
  import opened Gen2Lane
  import opened Lanes
  import opened Fused
  import PadTable

  // ---------------------------------------------------------------------------------
  // Listings
  // ---------------------------------------------------------------------------------

  type Listing = seq<Instr>

  function ListOf(c: Code): Listing {
    match c case End => [] case Then(i, rest) => [i] + ListOf(rest)
  }

  function RunList(l: Listing, s: Core): Core {
    if l == [] then s else RunList(l[1..], Exec(l[0], s))
  }

  /** Running the listing of some code is running the code. */
  lemma {:induction false} RunListOf(c: Code, s: Core)
    ensures RunList(ListOf(c), s) == Run(c, s)
    decreases c
  {
    hide Exec;
    match c
    case End =>
    case Then(i, rest) => RunListOf(rest, Exec(i, s));
  }

  lemma {:induction false} ListAppend(c: Code, d: Code)
    ensures ListOf(Append(c, d)) == ListOf(c) + ListOf(d)
  {
    match c
    case End =>
    case Then(i, rest) => ListAppend(rest, d);
  }

  // ---------------------------------------------------------------------------------
  // Tables
  // ---------------------------------------------------------------------------------

  /** LOAD_GROUPS: data cell, offset into K256, target register, the pair of a trailing
      SHA256MSG1 (destination, source), and whether the group schedules W0. */
  datatype LoadRow = LoadRow(cell: nat, koff: nat, target: nat, msg1: seq<nat>, mid: bool)

  const LOAD_GROUPS: seq<LoadRow> := [
    LoadRow(0, 0, 0, [], false), LoadRow(1, 32, 1, [0, 1], false),
    LoadRow(2, 64, 2, [1, 2], false), LoadRow(3, 96, 3, [2, 3], true)]

  const FINAL_K := 480

  // ---------------------------------------------------------------------------------
  // Emit functions
  // ---------------------------------------------------------------------------------

  class Emitter {
    var out: Listing

    constructor ()
      ensures out == []
    {
      out := [];
    }

    method Add1(i: Instr)
      modifies this
      ensures out == old(out) + [i]
    {
      out := out + [i];
    }

    /** rnds2_pair. */
    method EmitRnds2Pair(r: LaneRegs)
      modifies this
      ensures out == old(out) + PairList(r)
    {
      Add1(Instr(Rnds2, X(r.s1), X(r.s2)));
      Add1(Instr(Pshufd(0x0e), X(0), X(0)));
      Add1(Instr(Rnds2, X(r.s2), X(r.s1)));
    }

    /** First SHA256RNDS2, schedule update, second SHA256RNDS2. */
    method EmitSchedule(r: LaneRegs, src: RegIx, dst: RegIx, align: RegIx)
      modifies this
      ensures out == old(out) + ScheduleList(r, src, dst, align)
    {
      Add1(Instr(Rnds2, X(r.s1), X(r.s2)));
      Add1(Instr(Mov, X(src), X(r.t)));
      Add1(Instr(Palignr(1), X(align), X(r.t)));
      Add1(Instr(Paddd, X(r.t), X(dst)));
      Add1(Instr(Msg2, X(src), X(dst)));
      Add1(Instr(Pshufd(0x0e), X(0), X(0)));
      Add1(Instr(Rnds2, X(r.s2), X(r.s1)));
    }

    /** The load group up to its rounds: the message words plus their constants. */
    method EmitLoadHead(r: LaneRegs, idx: nat, fromReg: bool)
      requires idx < 4
      modifies this
      ensures out == old(out) + LoadHead(r, idx, fromReg)
    {
      hide KQuad;
      var row := LOAD_GROUPS[idx];
      var w := r.w[row.target];
      if fromReg {
        Add1(Instr(Mov, X(w), X(0)));
      } else {
        Add1(Instr(Mov, M(r.data + row.cell), X(0)));
        Add1(Instr(Pshufb, X(r.f), X(0)));
        Add1(Instr(Mov, X(0), X(w)));
      }
      Add1(Instr(Paddd, C(KQuad(row.koff)), X(0)));
    }

    /** emit_load_group. */
    method EmitLoadGroup(r: LaneRegs, idx: nat, fromReg: bool)
      requires idx < 4
      modifies this
      ensures out == old(out) + ListOf(EmitLoad(r, idx, fromReg))
    {
      hide ListOf, EmitLoad, ScheduleList, PairList, KQuad, LoadHead;
      var row := LOAD_GROUPS[idx];
      EmitLoadHead(r, idx, fromReg);
      if !row.mid {
        EmitRnds2Pair(r);
      } else {
        EmitSchedule(r, r.w[3], r.w[0], r.w[2]);
      }
      assert out == old(out) + LoadHead(r, idx, fromReg) + LoadMiddle(r, idx);
      if row.msg1 != [] {
        Add1(Instr(Msg1, X(r.w[row.msg1[1]]), X(r.w[row.msg1[0]])));
      }
      assert out == old(out) + LoadHead(r, idx, fromReg) + LoadMiddle(r, idx) + LoadMsg1(r, idx);
      hide LoadMiddle, LoadMsg1;
      FlatLoad(r, idx, fromReg);
    }

    /** emit_mid_group. */
    method EmitMidGroup(r: LaneRegs, g: nat)
      requires g < 11
      modifies this
      ensures out == old(out) + ListOf(EmitMid(r, g))
    {
      hide ListOf, EmitMid, ScheduleList, KQuad;
      MidRowShape(g);
      var row := MID_GROUPS[g];
      Add1(Instr(Mov, X(r.w[row.src]), X(0)));
      Add1(Instr(Paddd, C(KQuad(row.koff)), X(0)));
      EmitSchedule(r, r.w[row.src], r.w[row.dst], r.w[row.align]);
      if row.msg1 {
        Add1(Instr(Msg1, X(r.w[row.src]), X(r.w[row.align])));
      }
      FlatMid(r, row, g);
    }

    /** emit_final_group. */
    method EmitFinalGroup(r: LaneRegs)
      modifies this
      ensures out == old(out) + ListOf(Emit(r, Final))
    {
      hide ListOf, Emit, PairList, KQuad;
      Add1(Instr(Mov, X(r.w[3]), X(0)));
      Add1(Instr(Paddd, C(KQuad(FINAL_K)), X(0)));
      EmitRnds2Pair(r);
      FlatFinal(r);
    }

    /** emit_pad_group. */
    method EmitPadGroup(r: LaneRegs, g: nat)
      requires g < 16
      modifies this
      ensures out == old(out) + ListOf(Emit(r, Pad(g)))
    {
      hide ListOf, Emit, PairList, PadQuad;
      Add1(Instr(Mov, C(PadQuad(g)), X(0)));
      EmitRnds2Pair(r);
      FlatPad(r, g);
    }

    /** The loops over the load, middle and final groups, lane A then lane B each time. */
    method EmitMessageGroups(a: LaneRegs, b: LaneRegs, fromReg: bool)
      modifies this
      ensures out == old(out) + ListOf(Interleave(a, b, MessageGroups(fromReg)))
    {
      hide ListOf, Emit, EmitMid, EmitLoad, Interleave, MessageGroups;
      NoGroups(a, b, fromReg);
      for i := 0 to 4
        invariant out == old(out) + ListOf(Interleave(a, b, MessageGroups(fromReg)[..i]))
      {
        EmitLoadGroup(a, i, fromReg);
        EmitLoadGroup(b, i, fromReg);
        NextLoad(a, b, fromReg, i);
      }
      for g := 0 to 11
        invariant out == old(out) + ListOf(Interleave(a, b, MessageGroups(fromReg)[..4 + g]))
      {
        EmitMidGroup(a, g);
        EmitMidGroup(b, g);
        NextMid(a, b, fromReg, g);
      }
      EmitFinalGroup(a);
      EmitFinalGroup(b);
      NextFinal(a, b, fromReg);
    }

    /** The loop over the padding groups. */
    method EmitPadGroups(a: LaneRegs, b: LaneRegs)
      modifies this
      ensures out == old(out) + ListOf(Interleave(a, b, PadGroups()))
    {
      hide ListOf, Emit, Interleave, PadGroups;
      NoPads(a, b);
      for g := 0 to 16
        invariant out == old(out) + ListOf(Interleave(a, b, PadGroups()[..g]))
      {
        EmitPadGroup(a, g);
        EmitPadGroup(b, g);
        NextPad(a, b, g);
      }
      assert PadGroups()[..16] == PadGroups();
    }

    /** The same loops for a single lane. */
    method EmitSoloMessage(r: LaneRegs, fromReg: bool)
      modifies this
      ensures out == old(out) + ListOf(EmitAll(r, MessageGroups(fromReg)))
    {
      hide ListOf, Emit, EmitMid, EmitLoad, EmitAll, MessageGroups;
      SoloNone(r, MessageGroups(fromReg));
      for i := 0 to 4
        invariant out == old(out) + ListOf(EmitAll(r, MessageGroups(fromReg)[..i]))
      {
        EmitLoadGroup(r, i, fromReg);
        SoloLoad(r, i, fromReg);
      }
      for g := 0 to 11
        invariant out == old(out) + ListOf(EmitAll(r, MessageGroups(fromReg)[..4 + g]))
      {
        EmitMidGroup(r, g);
        SoloMid(r, g, fromReg);
      }
      EmitFinalGroup(r);
      SoloFinal(r, fromReg);
    }

    method EmitSoloPad(r: LaneRegs)
      modifies this
      ensures out == old(out) + ListOf(EmitAll(r, PadGroups()))
    {
      hide ListOf, Emit, EmitAll, PadGroups;
      SoloNone(r, PadGroups());
      for g := 0 to 16
        invariant out == old(out) + ListOf(EmitAll(r, PadGroups()[..g]))
      {
        EmitPadGroup(r, g);
        SoloPad(r, g);
      }
      assert PadGroups()[..16] == PadGroups();
    }

    /** The prologue: flip mask, shuffled initial value, saved in the first two slots. */
    method EmitEntry()
      modifies this
      ensures out == old(out) + EntryList()
    {
      hide FromBytes;
      Add1(Instr(Mov, C(FLIP_MASK), X(FLIP)));
      Add1(Instr(Mov, C(IV_LO), X(1)));
      Add1(Instr(Mov, C(IV_HI), X(2)));
      Add1(Instr(Pshufd(0xb1), X(1), X(1)));
      Add1(Instr(Pshufd(0x1b), X(2), X(2)));
      Add1(Instr(Mov, X(1), X(7)));
      Add1(Instr(Palignr(2), X(2), X(1)));
      Add1(Instr(Pblendw(0xf0), X(7), X(2)));
      Add1(Instr(Mov, X(1), M(0)));
      Add1(Instr(Mov, X(2), M(1)));
    }

    method EmitFeedforward(r: LaneRegs, t: RegIx, lo: MemIx, hi: MemIx)
      modifies this
      ensures out == old(out) + FeedList(r, t, lo, hi)
    {
      Add1(Instr(Mov, M(lo), X(t)));
      Add1(Instr(Paddd, X(t), X(r.s1)));
      Add1(Instr(Mov, M(hi), X(t)));
      Add1(Instr(Paddd, X(t), X(r.s2)));
    }

    method EmitSave(r: LaneRegs, lo: MemIx, hi: MemIx)
      modifies this
      ensures out == old(out) + SaveList(r, lo, hi)
    {
      Add1(Instr(Mov, X(r.s1), M(lo)));
      Add1(Instr(Mov, X(r.s2), M(hi)));
    }

    method EmitConstants()
      modifies this
      ensures out == old(out) + ConstantList()
    {
      hide FromBytes;
      Add1(Instr(Mov, C(FLIP_MASK), X(3)));
      Add1(Instr(Mov, C(MASK_0F), X(4)));
      Add1(Instr(Mov, C(HEX_LUT), X(5)));
    }

    /** One half of emit_hex_epilogue: sixteen digest bytes to 32 hex characters. */
    method EmitHalf(reg: RegIx, cell: MemIx)
      requires cell + 1 < MEM
      modifies this
      ensures out == old(out) + HalfList(reg, cell)
    {
      hide DigitsList, InterlaceList;
      EmitDigits(reg);
      EmitInterlace(cell);
    }

    method EmitDigits(reg: RegIx)
      modifies this
      ensures out == old(out) + DigitsList(reg)
    {
      Add1(Instr(Pshufb, X(3), X(reg)));
      Add1(Instr(Mov, X(reg), X(6)));
      Add1(Instr(Psrlw4, X(6), X(6)));
      Add1(Instr(Pand, X(4), X(6)));
      Add1(Instr(Pand, X(4), X(reg)));
      Add1(Instr(Mov, X(5), X(7)));
      Add1(Instr(Pshufb, X(6), X(7)));
      Add1(Instr(Mov, X(5), X(6)));
      Add1(Instr(Pshufb, X(reg), X(6)));
    }

    method EmitInterlace(cell: MemIx)
      requires cell + 1 < MEM
      modifies this
      ensures out == old(out) + InterlaceList(cell)
    {
      Add1(Instr(Mov, X(7), X(0)));
      Add1(Instr(Punpcklbw, X(6), X(0)));
      Add1(Instr(Punpckhbw, X(6), X(7)));
      Add1(Instr(Mov, X(0), M(cell)));
      Add1(Instr(Mov, X(7), M(cell + 1)));
    }

    /** emit_hex_epilogue. */
    method EmitHexEpilogue(r: LaneRegs)
      modifies this
      ensures out == old(out) + EpilogueList(r)
    {
      hide HalfList;
      Add1(Instr(Pshufd(0x1b), X(r.s1), X(r.s1)));
      Add1(Instr(Pshufd(0xb1), X(r.s2), X(r.s2)));
      Add1(Instr(Mov, X(r.s1), X(r.t)));
      Add1(Instr(Pblendw(0xf0), X(r.s2), X(r.s1)));
      Add1(Instr(Palignr(2), X(r.t), X(r.s2)));
      EmitHalf(r.s1, r.data);
      EmitHalf(r.s2, r.data + 2);
    }

    /** The whole of hashHex1. */
    method EmitHashHex1()
      modifies this
      ensures out == old(out) + ListOf(HashHex1())
    {
      hide ListOf, EmitAll, HashHex1, EntryList, FeedList, SaveList, ConstantList, EpilogueList, MessageGroups, PadGroups;
      var r := RegsOf(A);
      EmitEntry();
      EmitSoloMessage(r, false);
      EmitFeedforward(r, 7, 0, 1);
      EmitSave(r, 2, 3);
      EmitSoloPad(r);
      EmitFeedforward(r, 7, 2, 3);
      EmitConstants();
      EmitHexEpilogue(r);
      FlatHashHex1();
    }

    /** The end of pairHashHex: the second digests and their hexadecimal. */
    method EmitPairEnd()
      modifies this
      ensures out == old(out) + ListOf(PairEnd())
    {
      hide ListOf, PairEnd, FeedList, ConstantList, EpilogueList;
      var (a, b) := (RegsOf(A), RegsOf(B));
      EmitFeedforward(a, 7, 2, 3);
      EmitFeedforward(b, 7, 4, 5);
      EmitConstants();
      EmitHexEpilogue(a);
      EmitHexEpilogue(b);
      FlatPairEnd();
    }

    /** The first digests and the padding block. */
    method EmitPairMiddle()
      modifies this
      ensures out == old(out) + ListOf(PairMiddle())
    {
      hide ListOf, Interleave, PairMiddle, PairEnd, FeedList, SaveList, PadGroups;
      var (a, b) := (RegsOf(A), RegsOf(B));
      EmitFeedforward(a, 7, 0, 1);
      EmitSave(a, 2, 3);
      EmitFeedforward(b, 7, 0, 1);
      EmitSave(b, 4, 5);
      EmitPadGroups(a, b);
      EmitPairEnd();
      FlatPairMiddle();
    }

    /** The whole of pairHashHex. */
    method EmitPairHashHex()
      modifies this
      ensures out == old(out) + ListOf(PairHashHex())
    {
      hide ListOf, Interleave, PairHashHex, PairMiddle, EntryList, MessageGroups;
      EmitEntry();
      Add1(Instr(Mov, X(1), X(8)));
      Add1(Instr(Mov, X(2), X(9)));
      EmitMessageGroups(RegsOf(A), RegsOf(B), false);
      EmitPairMiddle();
      FlatPairHashHex();
    }
  }

  // ---------------------------------------------------------------------------------
  // What the pieces of a listing are
  // ---------------------------------------------------------------------------------

  function PairList(r: LaneRegs): Listing {
    [Instr(Rnds2, X(r.s1), X(r.s2)), Instr(Pshufd(0x0e), X(0), X(0)), Instr(Rnds2, X(r.s2), X(r.s1))]
  }

  function ScheduleList(r: LaneRegs, src: RegIx, dst: RegIx, align: RegIx): Listing {
    [Instr(Rnds2, X(r.s1), X(r.s2)), Instr(Mov, X(src), X(r.t)), Instr(Palignr(1), X(align), X(r.t)),
     Instr(Paddd, X(r.t), X(dst)), Instr(Msg2, X(src), X(dst)), Instr(Pshufd(0x0e), X(0), X(0)),
     Instr(Rnds2, X(r.s2), X(r.s1))]
  }

  function Msg1List(on: bool, src: RegIx, dst: RegIx): Listing {
    if on then [Instr(Msg1, X(src), X(dst))] else []
  }

  function LoadHead(r: LaneRegs, idx: nat, fromReg: bool): Listing
    requires idx < 4
  {
    (if fromReg then [Instr(Mov, X(r.w[idx]), X(0))]
     else [Instr(Mov, M(r.data + idx), X(0)), Instr(Pshufb, X(r.f), X(0)), Instr(Mov, X(0), X(r.w[idx]))])
    + [LoadAdd(idx)]
  }

  function LoadAdd(idx: nat): Instr
    requires idx < 4
  {
    Instr(Paddd, C(KQuad(32 * idx)), X(0))
  }

  function LoadMiddle(r: LaneRegs, idx: nat): Listing {
    if idx < 3 then PairList(r) else ScheduleList(r, r.w[3], r.w[0], r.w[2])
  }

  function LoadMsg1(r: LaneRegs, idx: nat): Listing
    requires idx < 4
  {
    Msg1List(idx > 0, r.w[idx], r.w[if idx > 0 then idx - 1 else 0])
  }

  lemma ListThen(i: Instr, c: Code)
    ensures ListOf(Then(i, c)) == [i] + ListOf(c) && ListOf(End) == []
  {
  }

  lemma ListThen3(i: Instr, j: Instr, k: Instr, c: Code)
    ensures ListOf(Then3(i, j, k, c)) == [i, j, k] + ListOf(c)
  {
    hide ListOf;
    ListThen(k, c);
    ListThen(j, Then(k, c));
    ListThen(i, Then(j, Then(k, c)));
  }

  lemma FlatPair(r: LaneRegs, rest: Code)
    ensures ListOf(Rnds2Pair(r, rest)) == PairList(r) + ListOf(rest)
  {
    hide ListOf;
    ListThen3(Instr(Rnds2, X(r.s1), X(r.s2)), Instr(Pshufd(0x0e), X(0), X(0)), Instr(Rnds2, X(r.s2), X(r.s1)), rest);
  }

  lemma FlatMsg1(on: bool, src: RegIx, dst: RegIx)
    ensures ListOf(Msg1If(on, src, dst)) == Msg1List(on, src, dst)
  {
    ListThen(Instr(Msg1, X(src), X(dst)), End);
  }

  lemma FlatTail(r: LaneRegs, src: RegIx, dst: RegIx, align: RegIx, msg1: bool)
    ensures ListOf(ScheduleTail(r, src, dst, align, msg1)) == ScheduleList(r, src, dst, align) + Msg1List(msg1, src, align)
  {
    hide ListOf, Msg1If, Msg1List;
    var last := Msg1If(msg1, src, align);
    var c3 := Then(Instr(Rnds2, X(r.s2), X(r.s1)), last);
    var c2 := Then3(Instr(Paddd, X(r.t), X(dst)), Instr(Msg2, X(src), X(dst)), Instr(Pshufd(0x0e), X(0), X(0)), c3);
    FlatMsg1(msg1, src, align);
    ListThen(Instr(Rnds2, X(r.s2), X(r.s1)), last);
    ListThen3(Instr(Paddd, X(r.t), X(dst)), Instr(Msg2, X(src), X(dst)), Instr(Pshufd(0x0e), X(0), X(0)), c3);
    ListThen3(Instr(Rnds2, X(r.s1), X(r.s2)), Instr(Mov, X(src), X(r.t)), Instr(Palignr(1), X(align), X(r.t)), c2);
  }

  lemma FlatLoadTail(r: LaneRegs, idx: nat)
    requires idx < 4
    ensures ListOf(LoadTail(r, idx)) == [LoadAdd(idx)] + (LoadMiddle(r, idx) + LoadMsg1(r, idx))
  {
    hide ListOf, Rnds2Pair, ScheduleTail, Msg1If, KQuad, PairList, ScheduleList;
    var i := LoadAdd(idx);
    if idx < 3 {
      var m := Msg1If(idx > 0, r.w[idx], r.w[if idx > 0 then idx - 1 else 0]);
      FlatMsg1(idx > 0, r.w[idx], r.w[if idx > 0 then idx - 1 else 0]);
      FlatPair(r, m);
      ListThen(i, Rnds2Pair(r, m));
    } else {
      FlatTail(r, r.w[3], r.w[0], r.w[2], true);
      ListThen(i, ScheduleTail(r, r.w[3], r.w[0], r.w[2], true));
    }
  }

  lemma FlatLoad(r: LaneRegs, idx: nat, fromReg: bool)
    requires idx < 4
    ensures ListOf(EmitLoad(r, idx, fromReg)) == LoadHead(r, idx, fromReg) + LoadMiddle(r, idx) + LoadMsg1(r, idx)
  {
    hide ListOf, LoadTail, KQuad, LoadMiddle, LoadMsg1;
    FlatLoadTail(r, idx);
    ListThen(Instr(Mov, X(r.w[idx]), X(0)), LoadTail(r, idx));
    ListThen3(Instr(Mov, M(r.data + idx), X(0)), Instr(Pshufb, X(r.f), X(0)), Instr(Mov, X(0), X(r.w[idx])), LoadTail(r, idx));
  }

  function MidAdd(koff: nat): Instr
    requires koff % 4 == 0 && koff <= 496
  {
    Instr(Paddd, C(KQuad(koff)), X(0))
  }

  predicate RowFits(row: MidRow) {
    row.src < 4 && row.dst < 4 && row.align < 4 && row.koff % 4 == 0 && row.koff <= 496
  }

  function MidList(r: LaneRegs, row: MidRow): Listing
    requires RowFits(row)
  {
    [Instr(Mov, X(r.w[row.src]), X(0)), MidAdd(row.koff)]
    + ScheduleList(r, r.w[row.src], r.w[row.dst], r.w[row.align])
    + Msg1List(row.msg1, r.w[row.src], r.w[row.align])
  }

  lemma FlatMid(r: LaneRegs, row: MidRow, g: nat)
    requires g < 11 && row == MID_GROUPS[g] && RowFits(row)
    ensures ListOf(EmitMid(r, g)) == MidList(r, row)
  {
    hide ListOf, ScheduleTail, ScheduleList, Msg1List, KQuad;
    var t := ScheduleTail(r, r.w[row.src], r.w[row.dst], r.w[row.align], row.msg1);
    var (i, j) := (Instr(Mov, X(r.w[row.src]), X(0)), MidAdd(row.koff));
    FlatTail(r, r.w[row.src], r.w[row.dst], r.w[row.align], row.msg1);
    ListThen(j, t);
    ListThen(i, Then(j, t));
  }

  lemma FlatFinal(r: LaneRegs)
    ensures ListOf(Emit(r, Final)) == [Instr(Mov, X(r.w[3]), X(0)), Instr(Paddd, C(KQuad(480)), X(0))] + PairList(r)
  {
    hide ListOf, Rnds2Pair, KQuad;
    var (i, j) := (Instr(Mov, X(r.w[3]), X(0)), Instr(Paddd, C(KQuad(480)), X(0)));
    FlatPair(r, End);
    ListThen(j, Rnds2Pair(r, End));
    ListThen(i, Then(j, Rnds2Pair(r, End)));
  }

  lemma FlatPad(r: LaneRegs, g: nat)
    requires g < 16
    ensures ListOf(Emit(r, Pad(g))) == [Instr(Mov, C(PadQuad(g)), X(0))] + PairList(r)
  {
    hide ListOf, Rnds2Pair, PadQuad;
    FlatPair(r, End);
    ListThen(Instr(Mov, C(PadQuad(g)), X(0)), Rnds2Pair(r, End));
  }

  // ---------------------------------------------------------------------------------
  // Loops over groups
  // ---------------------------------------------------------------------------------

  lemma NextGroup(a: LaneRegs, b: LaneRegs, gs: Groups, k: nat)
    requires k < |gs|
    ensures ListOf(Interleave(a, b, gs[..k + 1]))
         == ListOf(Interleave(a, b, gs[..k])) + ListOf(Emit(a, gs[k])) + ListOf(Emit(b, gs[k]))
  {
    hide Emit;
    assert gs[..k + 1][..k] == gs[..k];
    var c := Interleave(a, b, gs[..k]);
    ListAppend(c, Emit(a, gs[k]));
    ListAppend(Append(c, Emit(a, gs[k])), Emit(b, gs[k]));
  }

  lemma NoGroups(a: LaneRegs, b: LaneRegs, fromReg: bool)
    ensures ListOf(Interleave(a, b, MessageGroups(fromReg)[..0])) == []
  {
    hide Emit, MessageGroups;
    assert MessageGroups(fromReg)[..0] == [];
  }

  lemma NoPads(a: LaneRegs, b: LaneRegs)
    ensures ListOf(Interleave(a, b, PadGroups()[..0])) == []
  {
    hide Emit, PadGroups;
    assert PadGroups()[..0] == [];
  }

  lemma NextLoad(a: LaneRegs, b: LaneRegs, fromReg: bool, i: nat)
    requires i < 4
    ensures ListOf(Interleave(a, b, MessageGroups(fromReg)[..i + 1]))
         == ListOf(Interleave(a, b, MessageGroups(fromReg)[..i])) + ListOf(EmitLoad(a, i, fromReg)) + ListOf(EmitLoad(b, i, fromReg))
  {
    hide ListOf, EmitLoad, Interleave;
    NextGroup(a, b, MessageGroups(fromReg), i);
  }

  lemma NextMid(a: LaneRegs, b: LaneRegs, fromReg: bool, g: nat)
    requires g < 11
    ensures ListOf(Interleave(a, b, MessageGroups(fromReg)[..4 + g + 1]))
         == ListOf(Interleave(a, b, MessageGroups(fromReg)[..4 + g])) + ListOf(EmitMid(a, g)) + ListOf(EmitMid(b, g))
  {
    hide ListOf, EmitMid, Interleave;
    NextGroup(a, b, MessageGroups(fromReg), 4 + g);
  }

  lemma NextFinal(a: LaneRegs, b: LaneRegs, fromReg: bool)
    ensures ListOf(Interleave(a, b, MessageGroups(fromReg)))
         == ListOf(Interleave(a, b, MessageGroups(fromReg)[..15])) + ListOf(Emit(a, Final)) + ListOf(Emit(b, Final))
  {
    hide ListOf, Emit, Interleave;
    NextGroup(a, b, MessageGroups(fromReg), 15);
    assert MessageGroups(fromReg)[..16] == MessageGroups(fromReg);
  }

  lemma NextPad(a: LaneRegs, b: LaneRegs, g: nat)
    requires g < 16
    ensures ListOf(Interleave(a, b, PadGroups()[..g + 1]))
         == ListOf(Interleave(a, b, PadGroups()[..g])) + ListOf(Emit(a, Pad(g))) + ListOf(Emit(b, Pad(g)))
  {
    hide ListOf, Emit, Interleave;
    NextGroup(a, b, PadGroups(), g);
  }

  lemma SoloNext(r: LaneRegs, gs: Groups, k: nat)
    requires k < |gs|
    ensures ListOf(EmitAll(r, gs[..k + 1])) == ListOf(EmitAll(r, gs[..k])) + ListOf(Emit(r, gs[k]))
  {
    hide Emit;
    assert gs[..k + 1][..k] == gs[..k];
    ListAppend(EmitAll(r, gs[..k]), Emit(r, gs[k]));
  }

  lemma SoloNone(r: LaneRegs, gs: Groups)
    ensures ListOf(EmitAll(r, gs[..0])) == []
  {
    hide Emit;
    assert gs[..0] == [];
  }

  lemma SoloLoad(r: LaneRegs, i: nat, fromReg: bool)
    requires i < 4
    ensures ListOf(EmitAll(r, MessageGroups(fromReg)[..i + 1]))
         == ListOf(EmitAll(r, MessageGroups(fromReg)[..i])) + ListOf(EmitLoad(r, i, fromReg))
  {
    hide ListOf, EmitLoad, EmitAll;
    SoloNext(r, MessageGroups(fromReg), i);
  }

  lemma SoloMid(r: LaneRegs, g: nat, fromReg: bool)
    requires g < 11
    ensures ListOf(EmitAll(r, MessageGroups(fromReg)[..4 + g + 1]))
         == ListOf(EmitAll(r, MessageGroups(fromReg)[..4 + g])) + ListOf(EmitMid(r, g))
  {
    hide ListOf, EmitMid, EmitAll;
    SoloNext(r, MessageGroups(fromReg), 4 + g);
  }

  lemma SoloFinal(r: LaneRegs, fromReg: bool)
    ensures ListOf(EmitAll(r, MessageGroups(fromReg)))
         == ListOf(EmitAll(r, MessageGroups(fromReg)[..15])) + ListOf(Emit(r, Final))
  {
    hide ListOf, Emit, EmitAll;
    SoloNext(r, MessageGroups(fromReg), 15);
    assert MessageGroups(fromReg)[..16] == MessageGroups(fromReg);
  }

  lemma SoloPad(r: LaneRegs, g: nat)
    requires g < 16
    ensures ListOf(EmitAll(r, PadGroups()[..g + 1])) == ListOf(EmitAll(r, PadGroups()[..g])) + ListOf(Emit(r, Pad(g)))
  {
    hide ListOf, Emit, EmitAll;
    SoloNext(r, PadGroups(), g);
  }

  // ---------------------------------------------------------------------------------
  // Whole routines
  // ---------------------------------------------------------------------------------

  function EntryList(): Listing {
    [Instr(Mov, C(FLIP_MASK), X(FLIP)), Instr(Mov, C(IV_LO), X(1)), Instr(Mov, C(IV_HI), X(2)),
     Instr(Pshufd(0xb1), X(1), X(1)), Instr(Pshufd(0x1b), X(2), X(2)), Instr(Mov, X(1), X(7)),
     Instr(Palignr(2), X(2), X(1)), Instr(Pblendw(0xf0), X(7), X(2)), Instr(Mov, X(1), M(0)), Instr(Mov, X(2), M(1))]
  }

  function ShuffleList(r: LaneRegs): Listing {
    [Instr(Pshufd(0xb1), X(r.s1), X(r.s1)), Instr(Pshufd(0x1b), X(r.s2), X(r.s2)), Instr(Mov, X(r.s1), X(r.t)),
     Instr(Palignr(2), X(r.s2), X(r.s1)), Instr(Pblendw(0xf0), X(r.t), X(r.s2))]
  }

  function FeedList(r: LaneRegs, t: RegIx, lo: MemIx, hi: MemIx): Listing {
    [Instr(Mov, M(lo), X(t)), Instr(Paddd, X(t), X(r.s1)), Instr(Mov, M(hi), X(t)), Instr(Paddd, X(t), X(r.s2))]
  }

  function SaveList(r: LaneRegs, lo: MemIx, hi: MemIx): Listing {
    [Instr(Mov, X(r.s1), M(lo)), Instr(Mov, X(r.s2), M(hi))]
  }

  function ConstantList(): Listing {
    [Instr(Mov, C(FLIP_MASK), X(3)), Instr(Mov, C(MASK_0F), X(4)), Instr(Mov, C(HEX_LUT), X(5))]
  }

  function DigitsList(reg: RegIx): Listing {
    [Instr(Pshufb, X(3), X(reg)), Instr(Mov, X(reg), X(6)), Instr(Psrlw4, X(6), X(6)), Instr(Pand, X(4), X(6)),
     Instr(Pand, X(4), X(reg)), Instr(Mov, X(5), X(7)), Instr(Pshufb, X(6), X(7)), Instr(Mov, X(5), X(6)),
     Instr(Pshufb, X(reg), X(6))]
  }

  function InterlaceList(cell: MemIx): Listing
    requires cell + 1 < MEM
  {
    [Instr(Mov, X(7), X(0)), Instr(Punpcklbw, X(6), X(0)), Instr(Punpckhbw, X(6), X(7)),
     Instr(Mov, X(0), M(cell)), Instr(Mov, X(7), M(cell + 1))]
  }

  function HalfList(reg: RegIx, cell: MemIx): Listing
    requires cell + 1 < MEM
  {
    DigitsList(reg) + InterlaceList(cell)
  }

  function EpilogueList(r: LaneRegs): Listing {
    [Instr(Pshufd(0x1b), X(r.s1), X(r.s1)), Instr(Pshufd(0xb1), X(r.s2), X(r.s2)), Instr(Mov, X(r.s1), X(r.t)),
     Instr(Pblendw(0xf0), X(r.s2), X(r.s1)), Instr(Palignr(2), X(r.t), X(r.s2))]
    + HalfList(r.s1, r.data) + HalfList(r.s2, r.data + 2)
  }

  lemma FlatShuffle(r: LaneRegs, rest: Code)
    ensures ListOf(Shuffle(r, rest)) == ShuffleList(r) + ListOf(rest)
  {
    hide ListOf;
    var (i, j) := (Instr(Palignr(2), X(r.s2), X(r.s1)), Instr(Pblendw(0xf0), X(r.t), X(r.s2)));
    ListThen(j, rest);
    ListThen(i, Then(j, rest));
    ListThen3(Instr(Pshufd(0xb1), X(r.s1), X(r.s1)), Instr(Pshufd(0x1b), X(r.s2), X(r.s2)), Instr(Mov, X(r.s1), X(r.t)),
              Then(i, Then(j, rest)));
  }

  lemma FlatEntry(rest: Code)
    ensures ListOf(Entry(rest)) == EntryList() + ListOf(rest)
  {
    hide ListOf, Shuffle, FromBytes;
    var (i, j) := (Instr(Mov, X(1), M(0)), Instr(Mov, X(2), M(1)));
    var c := Then(i, Then(j, rest));
    ListThen(j, rest);
    ListThen(i, Then(j, rest));
    FlatShuffle(RegsOf(A), c);
    ListThen3(Instr(Mov, C(FLIP_MASK), X(FLIP)), Instr(Mov, C(IV_LO), X(1)), Instr(Mov, C(IV_HI), X(2)), Shuffle(RegsOf(A), c));
  }

  lemma FlatFeed(r: LaneRegs, t: RegIx, lo: MemIx, hi: MemIx, rest: Code)
    ensures ListOf(Feedforward(r, t, lo, hi, rest)) == FeedList(r, t, lo, hi) + ListOf(rest)
  {
    hide ListOf;
    var i := Instr(Paddd, X(t), X(r.s2));
    ListThen(i, rest);
    ListThen3(Instr(Mov, M(lo), X(t)), Instr(Paddd, X(t), X(r.s1)), Instr(Mov, M(hi), X(t)), Then(i, rest));
  }

  lemma FlatSave(r: LaneRegs, lo: MemIx, hi: MemIx, rest: Code)
    ensures ListOf(Save(r, lo, hi, rest)) == SaveList(r, lo, hi) + ListOf(rest)
  {
    hide ListOf;
    ListThen(Instr(Mov, X(r.s2), M(hi)), rest);
    ListThen(Instr(Mov, X(r.s1), M(lo)), Then(Instr(Mov, X(r.s2), M(hi)), rest));
  }

  lemma FlatConstants(rest: Code)
    ensures ListOf(Constants(rest)) == ConstantList() + ListOf(rest)
  {
    hide ListOf, FromBytes;
    ListThen3(Instr(Mov, C(FLIP_MASK), X(3)), Instr(Mov, C(MASK_0F), X(4)), Instr(Mov, C(HEX_LUT), X(5)), rest);
  }

  lemma FlatHalf(reg: RegIx, cell: MemIx, rest: Code)
    requires cell + 1 < MEM
    ensures ListOf(HexHalf(reg, cell, rest)) == HalfList(reg, cell) + ListOf(rest)
  {
    hide ListOf;
    var (i, j) := (Instr(Mov, X(0), M(cell)), Instr(Mov, X(7), M(cell + 1)));
    ListThen(j, rest);
    ListThen(i, Then(j, rest));
    ListThen3(Instr(Mov, X(7), X(0)), Instr(Punpcklbw, X(6), X(0)), Instr(Punpckhbw, X(6), X(7)), Then(i, Then(j, rest)));
    var c := Interlace(cell, rest);
    ListThen3(Instr(Pshufb, X(6), X(7)), Instr(Mov, X(5), X(6)), Instr(Pshufb, X(reg), X(6)), c);
    ListThen(Instr(Mov, X(5), X(7)), Then3(Instr(Pshufb, X(6), X(7)), Instr(Mov, X(5), X(6)), Instr(Pshufb, X(reg), X(6)), c));
    var d := Digits(reg, c);
    var (k, l) := (Instr(Pand, X(4), X(6)), Instr(Pand, X(4), X(reg)));
    ListThen(l, d);
    ListThen(k, Then(l, d));
    ListThen3(Instr(Pshufb, X(3), X(reg)), Instr(Mov, X(reg), X(6)), Instr(Psrlw4, X(6), X(6)), Then(k, Then(l, d)));
  }

  lemma FlatEpilogue(r: LaneRegs, rest: Code)
    ensures ListOf(Epilogue(r, rest)) == EpilogueList(r) + ListOf(rest)
  {
    hide ListOf, HexHalf, HalfList;
    var c2 := HexHalf(r.s2, r.data + 2, rest);
    var c := HexHalf(r.s1, r.data, c2);
    FlatHalf(r.s2, r.data + 2, rest);
    FlatHalf(r.s1, r.data, c2);
    var (i, j) := (Instr(Pblendw(0xf0), X(r.s2), X(r.s1)), Instr(Palignr(2), X(r.t), X(r.s2)));
    ListThen(j, c);
    ListThen(i, Then(j, c));
    ListThen3(Instr(Pshufd(0x1b), X(r.s1), X(r.s1)), Instr(Pshufd(0xb1), X(r.s2), X(r.s2)), Instr(Mov, X(r.s1), X(r.t)),
              Then(i, Then(j, c)));
  }

  lemma FlatHashHex1()
    ensures var r := RegsOf(A);
      ListOf(HashHex1())
      == EntryList() + ListOf(EmitAll(r, MessageGroups(false))) + FeedList(r, 7, 0, 1) + SaveList(r, 2, 3)
         + ListOf(EmitAll(r, PadGroups())) + FeedList(r, 7, 2, 3) + ConstantList() + EpilogueList(r)
  {
    hide ListOf, Entry, EmitAll, Feedforward, Save, Constants, Epilogue, EntryList, FeedList, SaveList, ConstantList,
         EpilogueList, MessageGroups, PadGroups;
    var r := RegsOf(A);
    var (c1, c2) := (EmitAll(r, MessageGroups(false)), EmitAll(r, PadGroups()));
    ListNone();
    FlatEpilogue(r, End);
    FlatConstants(Epilogue(r, End));
    FlatFeed(r, 7, 2, 3, Constants(Epilogue(r, End)));
    ListAppend(c2, HashHex1End());
    FlatSave(r, 2, 3, Append(c2, HashHex1End()));
    FlatFeed(r, 7, 0, 1, Save(r, 2, 3, Append(c2, HashHex1End())));
    ListAppend(c1, HashHex1Middle());
    FlatEntry(Append(c1, HashHex1Middle()));
  }

  lemma ListNone()
    ensures ListOf(End) == []
  {
  }

  lemma FlatPairEnd()
    ensures var (a, b) := (RegsOf(A), RegsOf(B));
      ListOf(PairEnd())
      == FeedList(a, 7, 2, 3) + FeedList(b, 7, 4, 5) + ConstantList() + EpilogueList(a) + EpilogueList(b)
  {
    hide ListOf, Feedforward, Constants, Epilogue, FeedList, ConstantList, EpilogueList;
    var (a, b) := (RegsOf(A), RegsOf(B));
    var last := Epilogue(b, End);
    var c := Constants(Epilogue(a, last));
    ListNone();
    FlatEpilogue(b, End);
    FlatEpilogue(a, last);
    FlatConstants(Epilogue(a, last));
    FlatFeed(b, 7, 4, 5, c);
    FlatFeed(a, 7, 2, 3, Feedforward(b, 7, 4, 5, c));
  }

  lemma FlatPairMiddle()
    ensures var (a, b) := (RegsOf(A), RegsOf(B));
      ListOf(PairMiddle())
      == FeedList(a, 7, 0, 1) + SaveList(a, 2, 3) + FeedList(b, 7, 0, 1) + SaveList(b, 4, 5)
         + ListOf(Interleave(a, b, PadGroups())) + ListOf(PairEnd())
  {
    hide ListOf, Interleave, Feedforward, Save, PairEnd, FeedList, SaveList, PadGroups;
    var (a, b) := (RegsOf(A), RegsOf(B));
    var c := Append(Interleave(a, b, PadGroups()), PairEnd());
    ListAppend(Interleave(a, b, PadGroups()), PairEnd());
    FlatSave(b, 4, 5, c);
    FlatFeed(b, 7, 0, 1, Save(b, 4, 5, c));
    FlatSave(a, 2, 3, Feedforward(b, 7, 0, 1, Save(b, 4, 5, c)));
    FlatFeed(a, 7, 0, 1, Save(a, 2, 3, Feedforward(b, 7, 0, 1, Save(b, 4, 5, c))));
  }

  lemma FlatPairHashHex()
    ensures var (a, b) := (RegsOf(A), RegsOf(B));
      ListOf(PairHashHex())
      == EntryList() + [Instr(Mov, X(1), X(8))] + [Instr(Mov, X(2), X(9))] + ListOf(Interleave(a, b, MessageGroups(false)))
         + ListOf(PairMiddle())
  {
    hide ListOf, Entry, Interleave, PairMiddle, EntryList, MessageGroups;
    var (a, b) := (RegsOf(A), RegsOf(B));
    var (i, j) := (Instr(Mov, X(1), X(8)), Instr(Mov, X(2), X(9)));
    var c := Append(Interleave(a, b, MessageGroups(false)), PairMiddle());
    ListAppend(Interleave(a, b, MessageGroups(false)), PairMiddle());
    ListThen(j, c);
    ListThen(i, Then(j, c));
    FlatEntry(Then(i, Then(j, c)));
  }

  /** Run on any core, the listing the generator emits for hashHex1 leaves the lowercase hex of
      the buffer's SHA-256 in the buffer. */
  lemma ListedHashHex1(p: Message, s: Core)
    requires Holds(RegsOf(A), s, p)
    ensures Holds(RegsOf(A), RunList(ListOf(HashHex1()), s), HexHash(p))
  {
    hide Run, RunList, ListOf, HashHex1, Cell, HexHash;
    RunListOf(HashHex1(), s);
    var s' := HashHex1Correct(p, s);
  }

  /** And the one for pairHashHex does so for both buffers. */
  lemma ListedPairHashHex(p: Message, q: Message, s: Core)
    requires Holds(RegsOf(A), s, p) && Holds(RegsOf(B), s, q)
    ensures var s' := RunList(ListOf(PairHashHex()), s);
            Holds(RegsOf(A), s', HexHash(p)) && Holds(RegsOf(B), s', HexHash(q))
  {
    hide Run, RunList, ListOf, PairHashHex, Cell, HexHash;
    RunListOf(PairHashHex(), s);
    var s' := PairHashHexCorrect(p, q, s);
  }

  // ---------------------------------------------------------------------------------
  // The padding schedule
  // ---------------------------------------------------------------------------------

  lemma SchedStep(t: nat)
    ensures t < 16 ==> Sched(PAD64, t) == PAD64[t]
    ensures t >= 16 ==>
      Sched(PAD64, t) == Add(Add(Add(SmallSigma1(Sched(PAD64, t - 2)), Sched(PAD64, t - 7)), SmallSigma0(Sched(PAD64, t - 15))),
                             Sched(PAD64, t - 16))
  {
    hide Add, SmallSigma0, SmallSigma1;
  }

  /** padW: the loop that extends the padding block to 64 words. */
  method PadW() returns (padW: seq<Word>)
    ensures |padW| == 64 && forall t | 0 <= t < 64 :: padW[t] == Sched(PAD64, t)
  {
    hide Add, SmallSigma0, SmallSigma1, Sched;
    padW := PAD64;
    forall u | 0 <= u < 16 ensures padW[u] == Sched(PAD64, u) {
      SchedStep(u);
    }
    for t := 16 to 64
      invariant |padW| == t && forall u | 0 <= u < t :: padW[u] == Sched(PAD64, u)
    {
      SchedStep(t);
      padW := padW + [Add(Add(Add(SmallSigma1(padW[t - 2]), padW[t - 7]), SmallSigma0(padW[t - 15])), padW[t - 16])];
    }
  }

  /** WKPAD: what the generator computes is the table the listing carries. */
  method WkPadTable() returns (wkPad: seq<Word>)
    ensures |wkPad| == 64 && forall t | 0 <= t < 64 :: wkPad[t] == WkPad(t)
  {
    hide Add, K, WkPad, Sched;
    var padW := PadW();
    wkPad := [];
    for t := 0 to 64
      invariant |wkPad| == t && forall u | 0 <= u < t :: wkPad[u] == WkPad(u)
    {
      PadTable.TableIsSchedule(t);
      wkPad := wkPad + [Add(padW[t], K(t))];
    }
  }
}
