/** The generator of the fused SHA-NI routines: register assignment, constant tables, and
    the instruction groups each emit function appends. */
module Gen2Lane {
  import opened Sha256
  import opened Machine

  // ---------------------------------------------------------------------------------
  // Lanes and constants
  // ---------------------------------------------------------------------------------

  datatype Lane = A | B

  /** Register names of one lane: state S1/S2, message registers W0..W3, temporary T, the
      register F that holds the byte-flip mask throughout the rounds, and the first memory
      cell of the lane's 64-byte buffer. */
  datatype Regs = Regs(s1: RegIx, s2: RegIx, w: seq<RegIx>, t: RegIx, f: RegIx, data: MemIx) {
    predicate Valid() {
      && |w| == 4
      && data <= MEM - 4
      && s1 != 0 && s2 != 0 && t != 0 && f != 0 && s1 != f && s2 != f && t != f
      && s1 != s2 && s1 != t && s2 != t
      && (forall i | 0 <= i < 4 :: w[i] != 0 && w[i] != f && w[i] != s1 && w[i] != s2 && w[i] != t)
      && forall i, j | 0 <= i < j < 4 :: w[i] != w[j]
    }

    predicate Uses(i: RegIx)
      requires |w| == 4
    {
      i == s1 || i == s2 || i == t || i == w[0] || i == w[1] || i == w[2] || i == w[3]
    }
  }

  /** The flip register of lanes A and B. */
  const FLIP: RegIx := 14

  type LaneRegs = r: Regs | r.Valid() witness Regs(1, 2, [3, 4, 5, 6], 7, 14, 8)

  function RegsOf(lane: Lane): LaneRegs {
    match lane
    case A => Regs(1, 2, [3, 4, 5, 6], 7, FLIP, 8)
    case B => Regs(8, 9, [10, 11, 12, 13], 15, FLIP, 12)
  }

  /** flip_mask and bswap32: reverse the bytes of every doubleword. */
  const FLIP_MASK := FromBytes([3, 2, 1, 0, 7, 6, 5, 4, 11, 10, 9, 8, 15, 14, 13, 12])
  const MASK_0F := FromBytes([15, 15, 15, 15, 15, 15, 15, 15, 15, 15, 15, 15, 15, 15, 15, 15])
  const HEX_LUT := FromBytes([48, 49, 50, 51, 52, 53, 54, 55, 56, 57, 97, 98, 99, 100, 101, 102])

  /** K256 as the listing stores it: every four constants twice. */
  function KTable(i: nat): Word
    requires i < 128
  {
    K(i / 8 * 4 + i % 4)
  }

  /** The 16 bytes at byte offset off of K256. */
  function KQuad(off: nat): Xmm
    requires off % 4 == 0 && off <= 496
  {
    Xmm(KTable(off / 4), KTable(off / 4 + 1), KTable(off / 4 + 2), KTable(off / 4 + 3))
  }

  /** wk_pad, word t: schedule of the padding block with the round constants added. */
  function WkPad(t: nat): Word
    requires t < 64
  {
    match t
    case 0 => 0xc28a2f98 case 1 => 0x71374491 case 2 => 0xb5c0fbcf case 3 => 0xe9b5dba5
    case 4 => 0x3956c25b case 5 => 0x59f111f1 case 6 => 0x923f82a4 case 7 => 0xab1c5ed5
    case 8 => 0xd807aa98 case 9 => 0x12835b01 case 10 => 0x243185be case 11 => 0x550c7dc3
    case 12 => 0x72be5d74 case 13 => 0x80deb1fe case 14 => 0x9bdc06a7 case 15 => 0xc19bf374
    case 16 => 0x649b69c1 case 17 => 0xf0fe4786 case 18 => 0x0fe1edc6 case 19 => 0x240cf254
    case 20 => 0x4fe9346f case 21 => 0x6cc984be case 22 => 0x61b9411e case 23 => 0x16f988fa
    case 24 => 0xf2c65152 case 25 => 0xa88e5a6d case 26 => 0xb019fc65 case 27 => 0xb9d99ec7
    case 28 => 0x9a1231c3 case 29 => 0xe70eeaa0 case 30 => 0xfdb1232b case 31 => 0xc7353eb0
    case 32 => 0x3069bad5 case 33 => 0xcb976d5f case 34 => 0x5a0f118f case 35 => 0xdc1eeefd
    case 36 => 0x0a35b689 case 37 => 0xde0b7a04 case 38 => 0x58f4ca9d case 39 => 0xe15d5b16
    case 40 => 0x007f3e86 case 41 => 0x37088980 case 42 => 0xa507ea32 case 43 => 0x6fab9537
    case 44 => 0x17406110 case 45 => 0x0d8cd6f1 case 46 => 0xcdaa3b6d case 47 => 0xc0bbbe37
    case 48 => 0x83613bda case 49 => 0xdb48a363 case 50 => 0x0b02e931 case 51 => 0x6fd15ca7
    case 52 => 0x521afaca case 53 => 0x31338431 case 54 => 0x6ed41a95 case 55 => 0x6d437890
    case 56 => 0xc39c91f2 case 57 => 0x9eccabbd case 58 => 0xb5c9a0e6 case 59 => 0x532fb63c
    case 60 => 0xd2c741c6 case 61 => 0x07237ea3 case 62 => 0xa4954b68 case 63 => 0x4c191d76
  }

  function PadQuad(g: nat): Xmm
    requires g < 16
  {
    Xmm(WkPad(4 * g), WkPad(4 * g + 1), WkPad(4 * g + 2), WkPad(4 * g + 3))
  }

  // ---------------------------------------------------------------------------------
  // Four-round groups
  // ---------------------------------------------------------------------------------

  /** Middle group: offset into K256, source and destination message registers, PALIGNR
      source, and whether the group ends with a SHA256MSG1 (onto that PALIGNR source). */
  datatype MidRow = MidRow(koff: nat, src: nat, dst: nat, align: nat, msg1: bool)

  const MID_GROUPS: seq<MidRow> := [
    MidRow(128, 0, 1, 3, true), MidRow(160, 1, 2, 0, true), MidRow(192, 2, 3, 1, true), MidRow(224, 3, 0, 2, true),
    MidRow(256, 0, 1, 3, true), MidRow(288, 1, 2, 0, true), MidRow(320, 2, 3, 1, true), MidRow(352, 3, 0, 2, true),
    MidRow(384, 0, 1, 3, true), MidRow(416, 1, 2, 0, false), MidRow(448, 2, 3, 1, false)]

  lemma MidRowShape(g: nat)
    requires g < 11
    ensures MID_GROUPS[g] == MidRow(128 + 32 * g, g % 4, (g + 1) % 4, (g + 3) % 4, g < 9)
  {
  }

  /** Load takes message quad i from memory, LoadReg finds it flipped in its register. */
  datatype Group = Load(i: nat) | LoadReg(i: nat) | Mid(g: nat) | Final | Pad(g: nat) {
    predicate Valid() {
      match this
      case Load(i) => i < 4
      case LoadReg(i) => i < 4
      case Mid(g) => g < 11
      case Final => true
      case Pad(g) => g < 16
    }
  }

  type ValidGroup = g: Group | g.Valid() witness Final

  function Then3(i: Instr, j: Instr, k: Instr, c: Code): Code {
    Then(i, Then(j, Then(k, c)))
  }

  lemma Run3(i: Instr, j: Instr, k: Instr, c: Code, s: Core)
    ensures Run(Then3(i, j, k, c), s) == Run(c, Exec(k, Exec(j, Exec(i, s))))
  {
    hide Exec;
    assert Run(Then3(i, j, k, c), s) == Run(Then(j, Then(k, c)), Exec(i, s));
    assert Run(Then(j, Then(k, c)), Exec(i, s)) == Run(Then(k, c), Exec(j, Exec(i, s)));
  }

  lemma Run1(i: Instr, c: Code, s: Core)
    ensures Run(Then(i, c), s) == Run(c, Exec(i, s))
  {
    hide Exec;
  }

  lemma Run2(i: Instr, j: Instr, c: Code, s: Core)
    ensures Run(Then(i, Then(j, c)), s) == Run(c, Exec(j, Exec(i, s)))
  {
    hide Exec;
    assert Run(Then(i, Then(j, c)), s) == Run(Then(j, c), Exec(i, s));
  }

  /** SHA256RNDS2 on the low pair of X0, then on the high pair. */
  function Rnds2Pair(r: LaneRegs, rest: Code): Code {
    Then3(Instr(Rnds2, X(r.s1), X(r.s2)), Instr(Pshufd(0x0e), X(0), X(0)), Instr(Rnds2, X(r.s2), X(r.s1)), rest)
  }

  function Msg1If(on: bool, src: RegIx, dst: RegIx): Code {
    if on then Then(Instr(Msg1, X(src), X(dst)), End) else End
  }

  /** First SHA256RNDS2, schedule update of wdst, second SHA256RNDS2, optional SHA256MSG1. */
  function ScheduleTail(r: LaneRegs, src: RegIx, dst: RegIx, align: RegIx, msg1: bool): Code {
    Then3(Instr(Rnds2, X(r.s1), X(r.s2)), Instr(Mov, X(src), X(r.t)), Instr(Palignr(1), X(align), X(r.t)),
    Then3(Instr(Paddd, X(r.t), X(dst)), Instr(Msg2, X(src), X(dst)), Instr(Pshufd(0x0e), X(0), X(0)),
    Then(Instr(Rnds2, X(r.s2), X(r.s1)), Msg1If(msg1, src, align))))
  }

  function LoadTail(r: LaneRegs, i: nat): Code
    requires i < 4
  {
    Then(Instr(Paddd, C(KQuad(32 * i)), X(0)),
         if i < 3 then Rnds2Pair(r, Msg1If(i > 0, r.w[i], r.w[if i > 0 then i - 1 else 0]))
         else ScheduleTail(r, r.w[3], r.w[0], r.w[2], true))
  }

  function EmitLoad(r: LaneRegs, i: nat, fromReg: bool): Code
    requires i < 4
  {
    if fromReg then Then(Instr(Mov, X(r.w[i]), X(0)), LoadTail(r, i))
    else Then3(Instr(Mov, M(r.data + i), X(0)), Instr(Pshufb, X(r.f), X(0)), Instr(Mov, X(0), X(r.w[i])), LoadTail(r, i))
  }

  function EmitMid(r: LaneRegs, g: nat): Code
    requires g < 11
  {
    var row := MID_GROUPS[g];
    Then(Instr(Mov, X(r.w[row.src]), X(0)), Then(Instr(Paddd, C(KQuad(row.koff)), X(0)),
      ScheduleTail(r, r.w[row.src], r.w[row.dst], r.w[row.align], row.msg1)))
  }

  function Emit(r: LaneRegs, g: ValidGroup): Code {
    match g
    case Load(i) => EmitLoad(r, i, false)
    case LoadReg(i) => EmitLoad(r, i, true)
    case Mid(g) => EmitMid(r, g)
    case Final => Then(Instr(Mov, X(r.w[3]), X(0)), Then(Instr(Paddd, C(KQuad(480)), X(0)), Rnds2Pair(r, End)))
    case Pad(g) => Then(Instr(Mov, C(PadQuad(g)), X(0)), Rnds2Pair(r, End))
  }

  // ---------------------------------------------------------------------------------
  // What a group does to one lane
  // ---------------------------------------------------------------------------------

  datatype View = View(s1: Xmm, s2: Xmm, w: seq<Xmm>)

  type LaneView = v: View | |v.w| == 4 witness View(ZERO, ZERO, seq(4, _ => ZERO))

  function ViewOf(r: LaneRegs, s: Core): LaneView {
    View(s.x[r.s1], s.x[r.s2], [s.x[r.w[0]], s.x[r.w[1]], s.x[r.w[2]], s.x[r.w[3]]])
  }

  /** The message quads a lane would load, already flipped. */
  function Message4(r: LaneRegs, s: Core): seq<Xmm> {
    [PshufbOf(s.m[r.data], FLIP_MASK), PshufbOf(s.m[r.data + 1], FLIP_MASK),
     PshufbOf(s.m[r.data + 2], FLIP_MASK), PshufbOf(s.m[r.data + 3], FLIP_MASK)]
  }

  /** Two SHA256RNDS2, four rounds. */
  function FourRounds(v: LaneView, wk: Xmm): LaneView {
    var s2 := Rnds2Of(v.s2, v.s1, wk);
    v.(s2 := s2, s1 := Rnds2Of(v.s1, s2, PshufdOf(0x0e, wk)))
  }

  function Schedule(w: seq<Xmm>, src: nat, dst: nat, align: nat, msg1: bool): (w': seq<Xmm>)
    requires |w| == 4 && src < 4 && dst < 4 && align < 4
    ensures |w'| == 4
  {
    var w1 := w[dst := Msg2Of(PadddOf(w[dst], PalignrOf(1, w[src], w[align])), w[src])];
    if msg1 then w1[align := Msg1Of(w1[align], w1[src])] else w1
  }

  function StepLoad(i: nat, v: LaneView): LaneView
    requires i < 4
  {
    hide FourRounds, Schedule;
    var v1 := FourRounds(v, PadddOf(v.w[i], KQuad(32 * i)));
    v1.(w := if i == 3 then Schedule(v.w, 3, 0, 2, true)
             else if i > 0 then v.w[i - 1 := Msg1Of(v.w[i - 1], v.w[i])] else v.w)
  }

  function StepView(g: ValidGroup, v: LaneView, msg: seq<Xmm>): LaneView
    requires |msg| == 4
  {
    hide FourRounds, Schedule, StepLoad;
    match g
    case Load(i) => StepLoad(i, v.(w := v.w[i := msg[i]]))
    case LoadReg(i) => StepLoad(i, v)
    case Mid(g) =>
      var row := MID_GROUPS[g];
      FourRounds(v, PadddOf(v.w[row.src], KQuad(row.koff)))
        .(w := Schedule(v.w, row.src, row.dst, row.align, row.msg1))
    case Final => FourRounds(v, PadddOf(v.w[3], KQuad(480)))
    case Pad(g) => FourRounds(v, PadQuad(g))
  }

  /** s' differs from s only in X0 and in the registers of lane r. */
  ghost predicate OnlyLane(r: LaneRegs, s: Core, s': Core) {
    s'.m == s.m && forall i: RegIx | i != 0 && !r.Uses(i) :: s'.x[i] == s.x[i]
  }

  lemma RunRnds2Pair(r: LaneRegs, rest: Code, s: Core) returns (s': Core)
    ensures Run(Rnds2Pair(r, rest), s) == Run(rest, s')
    ensures ViewOf(r, s') == FourRounds(ViewOf(r, s), s.x[0])
    ensures OnlyLane(r, s, s')
  {
    hide Rnds2Of, PshufdOf;
    var i, j, k := Instr(Rnds2, X(r.s1), X(r.s2)), Instr(Pshufd(0x0e), X(0), X(0)), Instr(Rnds2, X(r.s2), X(r.s1));
    Run3(i, j, k, rest, s);
    hide Run;
    s' := Exec(k, Exec(j, Exec(i, s)));
  }

  lemma RunMsg1If(r: LaneRegs, on: bool, src: nat, dst: nat, s: Core) returns (s': Core)
    requires src < 4 && dst < 4
    ensures s' == Run(Msg1If(on, r.w[src], r.w[dst]), s)
    ensures var v := ViewOf(r, s);
            ViewOf(r, s') == if on then v.(w := v.w[dst := Msg1Of(v.w[dst], v.w[src])]) else v
    ensures OnlyLane(r, s, s')
  {
    hide Msg1Of;
    s' := if on then Exec(Instr(Msg1, X(r.w[src]), X(r.w[dst])), s) else s;
  }

  lemma RunScheduleFront(r: LaneRegs, wsrc: RegIx, walign: RegIx, rest: Code, s: Core) returns (s': Core)
    requires wsrc != r.s2 && walign != r.s2 && walign != r.t
    ensures Run(Then3(Instr(Rnds2, X(r.s1), X(r.s2)), Instr(Mov, X(wsrc), X(r.t)), Instr(Palignr(1), X(walign), X(r.t)), rest), s)
         == Run(rest, s')
    ensures s'.x[r.s2] == Rnds2Of(s.x[r.s2], s.x[r.s1], s.x[0])
    ensures s'.x[r.t] == PalignrOf(1, s.x[wsrc], s.x[walign])
    ensures s'.m == s.m && forall i: RegIx | i != r.s2 && i != r.t :: s'.x[i] == s.x[i]
  {
    hide Rnds2Of, PalignrOf;
    var i, j, k := Instr(Rnds2, X(r.s1), X(r.s2)), Instr(Mov, X(wsrc), X(r.t)), Instr(Palignr(1), X(walign), X(r.t));
    Run3(i, j, k, rest, s);
    hide Run;
    s' := Exec(k, Exec(j, Exec(i, s)));
  }

  lemma RunScheduleBack(r: LaneRegs, wsrc: RegIx, wdst: RegIx, rest: Code, s: Core) returns (s': Core)
    requires wsrc != wdst && wdst != 0 && wdst != r.s1 && wdst != r.s2 && wdst != r.t
    ensures Run(Then3(Instr(Paddd, X(r.t), X(wdst)), Instr(Msg2, X(wsrc), X(wdst)), Instr(Pshufd(0x0e), X(0), X(0)),
                Then(Instr(Rnds2, X(r.s2), X(r.s1)), rest)), s)
         == Run(rest, s')
    ensures s'.x[r.s1] == Rnds2Of(s.x[r.s1], s.x[r.s2], PshufdOf(0x0e, s.x[0]))
    ensures s'.x[wdst] == Msg2Of(PadddOf(s.x[wdst], s.x[r.t]), s.x[wsrc])
    ensures s'.m == s.m && forall i: RegIx | i != 0 && i != r.s1 && i != wdst :: s'.x[i] == s.x[i]
  {
    hide Rnds2Of, PshufdOf, PadddOf, Msg2Of;
    var i, j, k := Instr(Paddd, X(r.t), X(wdst)), Instr(Msg2, X(wsrc), X(wdst)), Instr(Pshufd(0x0e), X(0), X(0));
    var l := Instr(Rnds2, X(r.s2), X(r.s1));
    Run3(i, j, k, Then(l, rest), s);
    var t := Exec(k, Exec(j, Exec(i, s)));
    assert Run(Then(l, rest), t) == Run(rest, Exec(l, t));
    hide Run;
    s' := Exec(l, t);
  }

  /** The registers after four rounds and a schedule update. */
  predicate Scheduled(r: LaneRegs, src: nat, dst: nat, align: nat, s: Core, u: Core)
    requires src < 4 && dst < 4 && align < 4
  {
    && u.x[r.s2] == Rnds2Of(s.x[r.s2], s.x[r.s1], s.x[0])
    && u.x[r.s1] == Rnds2Of(s.x[r.s1], u.x[r.s2], PshufdOf(0x0e, s.x[0]))
    && u.x[r.w[dst]] == Msg2Of(PadddOf(s.x[r.w[dst]], PalignrOf(1, s.x[r.w[src]], s.x[r.w[align]])), s.x[r.w[src]])
    && forall i | 0 <= i < 4 && i != dst :: u.x[r.w[i]] == s.x[r.w[i]]
  }

  lemma ScheduleView(r: LaneRegs, src: nat, dst: nat, align: nat, s: Core, u: Core)
    requires src < 4 && dst < 4 && align < 4 && src != dst && src != align && dst != align
    requires Scheduled(r, src, dst, align, s, u)
    ensures var v := ViewOf(r, s);
            ViewOf(r, u) == FourRounds(v, s.x[0]).(w := Schedule(v.w, src, dst, align, false))
  {
    hide Rnds2Of, PshufdOf, PalignrOf, PadddOf, Msg2Of;
    var v := ViewOf(r, s);
    assert v.w[src] == s.x[r.w[src]] && v.w[dst] == s.x[r.w[dst]] && v.w[align] == s.x[r.w[align]];
    assert ViewOf(r, u).w == Schedule(v.w, src, dst, align, false);
  }

  lemma RunScheduleCore(r: LaneRegs, src: nat, dst: nat, align: nat, last: Code, s: Core) returns (u: Core)
    requires src < 4 && dst < 4 && align < 4 && src != dst && src != align && dst != align
    ensures Run(Then3(Instr(Rnds2, X(r.s1), X(r.s2)), Instr(Mov, X(r.w[src]), X(r.t)), Instr(Palignr(1), X(r.w[align]), X(r.t)),
                Then3(Instr(Paddd, X(r.t), X(r.w[dst])), Instr(Msg2, X(r.w[src]), X(r.w[dst])), Instr(Pshufd(0x0e), X(0), X(0)),
                Then(Instr(Rnds2, X(r.s2), X(r.s1)), last))), s)
         == Run(last, u)
    ensures var v := ViewOf(r, s);
            ViewOf(r, u) == FourRounds(v, s.x[0]).(w := Schedule(v.w, src, dst, align, false))
    ensures OnlyLane(r, s, u)
  {
    hide Run, Exec, Alu, Rnds2Of, PshufdOf, PalignrOf, PadddOf, Msg1Of, Msg2Of, ViewOf, FourRounds, Schedule;
    var t := RunScheduleFront(r, r.w[src], r.w[align],
               Then3(Instr(Paddd, X(r.t), X(r.w[dst])), Instr(Msg2, X(r.w[src]), X(r.w[dst])), Instr(Pshufd(0x0e), X(0), X(0)),
               Then(Instr(Rnds2, X(r.s2), X(r.s1)), last)), s);
    u := RunScheduleBack(r, r.w[src], r.w[dst], last, t);
    ScheduleView(r, src, dst, align, s, u);
  }

  lemma RunScheduleTail(r: LaneRegs, src: nat, dst: nat, align: nat, msg1: bool, s: Core) returns (s': Core)
    requires src < 4 && dst < 4 && align < 4 && src != dst && src != align && dst != align
    ensures s' == Run(ScheduleTail(r, r.w[src], r.w[dst], r.w[align], msg1), s)
    ensures var v := ViewOf(r, s);
            ViewOf(r, s') == FourRounds(v, s.x[0]).(w := Schedule(v.w, src, dst, align, msg1))
    ensures OnlyLane(r, s, s')
  {
    hide Run, Exec, Alu, Msg1If, Rnds2Of, PshufdOf, PalignrOf, PadddOf, Msg1Of, Msg2Of, FourRounds, ViewOf;
    var u := RunScheduleCore(r, src, dst, align, Msg1If(msg1, r.w[src], r.w[align]), s);
    s' := RunMsg1If(r, msg1, src, align, u);
  }

  /** The part of a load group after the message quad has reached X0 and its register. */
  lemma RunLoadRest(r: LaneRegs, i: nat, s: Core) returns (s': Core)
    requires i < 4
    ensures s' == Run(EmitLoad(r, i, true), s)
    ensures ViewOf(r, s') == StepLoad(i, ViewOf(r, s))
    ensures OnlyLane(r, s, s')
  {
    hide FourRounds, Schedule, KQuad, PadddOf, Rnds2Pair, ScheduleTail, Msg1If, Msg1Of;
    var t := Exec(Instr(Mov, X(r.w[i]), X(0)), s);
    s' := RunLoadTail(r, i, t);
  }

  lemma RunLoadTail(r: LaneRegs, i: nat, s: Core) returns (s': Core)
    requires i < 4
    requires s.x[0] == s.x[r.w[i]]
    ensures s' == Run(LoadTail(r, i), s)
    ensures ViewOf(r, s') == StepLoad(i, ViewOf(r, s))
    ensures OnlyLane(r, s, s')
  {
    hide Rnds2Of, PshufdOf, Schedule, KQuad, PadddOf, Rnds2Pair, ScheduleTail, Msg1Of, Msg1If;
    var t := Exec(Instr(Paddd, C(KQuad(32 * i)), X(0)), s);
    assert ViewOf(r, t) == ViewOf(r, s) && t.x[0] == PadddOf(s.x[r.w[i]], KQuad(32 * i));
    if i == 3 {
      s' := RunScheduleTail(r, 3, 0, 2, true, t);
    } else {
      var rest := Msg1If(i > 0, r.w[i], r.w[if i > 0 then i - 1 else 0]);
      var u := RunRnds2Pair(r, rest, t);
      s' := RunMsg1If(r, i > 0, i, if i > 0 then i - 1 else 0, u);
    }
  }

  lemma RunLoad(r: LaneRegs, i: nat, s: Core) returns (s': Core)
    requires i < 4 && s.x[r.f] == FLIP_MASK
    ensures s' == Run(EmitLoad(r, i, false), s)
    ensures var v := ViewOf(r, s);
            ViewOf(r, s') == StepLoad(i, v.(w := v.w[i := Message4(r, s)[i]]))
    ensures OnlyLane(r, s, s')
  {
    hide StepLoad, LoadTail, PshufbOf, FromBytes;
    var a, b, c := Instr(Mov, M(r.data + i), X(0)), Instr(Pshufb, X(r.f), X(0)), Instr(Mov, X(0), X(r.w[i]));
    Run3(a, b, c, LoadTail(r, i), s);
    hide Run;
    var t := Exec(c, Exec(b, Exec(a, s)));
    assert t.x[0] == PshufbOf(s.m[r.data + i], FLIP_MASK) == Message4(r, s)[i];
    var v := ViewOf(r, s);
    assert ViewOf(r, t).w == v.w[i := Message4(r, s)[i]];
    assert OnlyLane(r, s, t);
    s' := RunLoadTail(r, i, t);
  }

  lemma RunMid(r: LaneRegs, g: nat, s: Core) returns (s': Core)
    requires g < 11
    ensures s' == Run(EmitMid(r, g), s)
    ensures ViewOf(r, s') == StepView(Mid(g), ViewOf(r, s), Message4(r, s))
    ensures OnlyLane(r, s, s')
  {
    hide FourRounds, Schedule, KQuad, PadddOf, ScheduleTail, Message4;
    MidRowShape(g);
    var row := MID_GROUPS[g];
    var a, b := Instr(Mov, X(r.w[row.src]), X(0)), Instr(Paddd, C(KQuad(row.koff)), X(0));
    var t := Exec(b, Exec(a, s));
    assert ViewOf(r, t) == ViewOf(r, s) && t.x[0] == PadddOf(s.x[r.w[row.src]], KQuad(row.koff));
    s' := RunScheduleTail(r, row.src, row.dst, row.align, row.msg1, t);
  }

  /** Emitting a group for a lane and running it has exactly the group's effect on that
      lane, and touches nothing else but X0. */
  lemma RunEmit(r: LaneRegs, g: ValidGroup, s: Core) returns (s': Core)
    requires s.x[r.f] == FLIP_MASK
    ensures s' == Run(Emit(r, g), s)
    ensures ViewOf(r, s') == StepView(g, ViewOf(r, s), Message4(r, s))
    ensures OnlyLane(r, s, s')
  {
    hide FourRounds, Schedule, KQuad, PadQuad, PadddOf, Rnds2Pair, StepLoad, Message4;
    match g
    case Load(i) => s' := RunLoad(r, i, s);
    case LoadReg(i) => s' := RunLoadRest(r, i, s);
    case Mid(g) => s' := RunMid(r, g, s);
    case Final =>
      var t := Exec(Instr(Paddd, C(KQuad(480)), X(0)), Exec(Instr(Mov, X(r.w[3]), X(0)), s));
      assert ViewOf(r, t) == ViewOf(r, s) && t.x[0] == PadddOf(s.x[r.w[3]], KQuad(480));
      s' := RunRnds2Pair(r, End, t);
    case Pad(g) =>
      var t := Exec(Instr(Mov, C(PadQuad(g)), X(0)), s);
      assert ViewOf(r, t) == ViewOf(r, s) && t.x[0] == PadQuad(g);
      s' := RunRnds2Pair(r, End, t);
  }
}
