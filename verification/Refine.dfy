/** The four-round groups refine FIPS 180-4: each advances the working variables by four
    rounds while the four message registers carry the rolling schedule window. */
module Refine {
  import opened Sha256
  import opened Machine
  import opened Gen2Lane

  // ---------------------------------------------------------------------------------
  // Rounds: S1 holds F,E,B,A and S2 holds H,G,D,C, lowest doubleword first
  // ---------------------------------------------------------------------------------

  function Abef(v: Vars): Xmm { Xmm(v.f, v.e, v.b, v.a) }

  function Cdgh(v: Vars): Xmm { Xmm(v.h, v.g, v.d, v.c) }

  lemma SumOrder(h: Word, s: Word, c: Word, k: Word, w: Word)
    ensures Add(Add(Add(Add(h, s), c), k), w) == Add(Add(Add(c, s), Add(w, k)), h)
  {
    hide Add;
    AddAssoc(Add(Add(h, s), c), k, w);
    AddComm(k, w);
    AddAssoc(h, s, c);
    AddComm(s, c);
    AddAssoc(h, Add(c, s), Add(w, k));
    AddComm(h, Add(Add(c, s), Add(w, k)));
  }

  /** The sum SHA256RNDS2 forms is T1 of the standard when wk is w + k. */
  lemma OneRound(v: Vars, k: Word, w: Word)
    ensures SdmSum(v.e, v.f, v.g, v.h, Add(w, k)) == T1(v, k, w)
    ensures SdmA(T1(v, k, w), v.a, v.b, v.c) == Round(v, k, w).a
    ensures Add(T1(v, k, w), v.d) == Round(v, k, w).e
  {
    hide Add, Ch, Maj, BigSigma0, BigSigma1;
    SumOrder(v.h, BigSigma1(v.e), Ch(v.e, v.f, v.g), k, w);
    AddAssoc(T1(v, k, w), Maj(v.a, v.b, v.c), BigSigma0(v.a));
    AddComm(Maj(v.a, v.b, v.c), BigSigma0(v.a));
    AddComm(v.d, T1(v, k, w));
  }

  lemma TwoRounds(v: Vars, k0: Word, k1: Word, w0: Word, w1: Word, wk: Xmm)
    requires wk.d0 == Add(w0, k0) && wk.d1 == Add(w1, k1)
    ensures var v2 := Round(Round(v, k0, w0), k1, w1);
            Rnds2Of(Cdgh(v), Abef(v), wk) == Abef(v2) && Abef(v) == Cdgh(v2)
  {
    hide Add, Ch, Maj, BigSigma0, BigSigma1, SdmSum, SdmA, T1, T2;
    OneRound(v, k0, w0);
    OneRound(Round(v, k0, w0), k1, w1);
  }

  /** Quad j of the schedule of m, and the round constants it meets. */
  function Quad(m: Block, j: nat): Xmm {
    Xmm(Sched(m, 4 * j), Sched(m, 4 * j + 1), Sched(m, 4 * j + 2), Sched(m, 4 * j + 3))
  }

  function KQuadAt(j: nat): Xmm
    requires j < 16
  {
    Xmm(K(4 * j), K(4 * j + 1), K(4 * j + 2), K(4 * j + 3))
  }

  predicate StateIs(v: LaneView, h: Vars) {
    v.s1 == Abef(h) && v.s2 == Cdgh(h)
  }

  lemma FourRoundsRefine(h: Vars, m: Block, j: nat, v: LaneView, wk: Xmm)
    requires j < 16
    requires StateIs(v, Rounds(h, m, 4 * j))
    requires wk == PadddOf(Quad(m, j), KQuadAt(j))
    ensures StateIs(FourRounds(v, wk), Rounds(h, m, 4 * j + 4))
  {
    hide Add, Rnds2Of, Round, Rounds, Sched, K;
    var h0 := Rounds(h, m, 4 * j);
    RoundsNext(h, m, 4 * j);
    RoundsNext(h, m, 4 * j + 1);
    RoundsNext(h, m, 4 * j + 2);
    RoundsNext(h, m, 4 * j + 3);
    TwoRounds(h0, K(4 * j), K(4 * j + 1), Sched(m, 4 * j), Sched(m, 4 * j + 1), wk);
    TwoRounds(Rounds(h, m, 4 * j + 2), K(4 * j + 2), K(4 * j + 3), Sched(m, 4 * j + 2), Sched(m, 4 * j + 3), PshufdOf(0x0e, wk));
  }

  lemma RoundsNext(h: Vars, m: Block, n: nat)
    requires n < 64
    ensures Rounds(h, m, n + 1) == Round(Rounds(h, m, n), K(n), Sched(m, n))
  {
    hide Round, Sched, K;
  }

  /** K256 stores each quad twice, 32 bytes apart. */
  lemma KTableQuad(j: nat)
    requires j < 16
    ensures KQuad(32 * j) == KQuadAt(j)
  {
    hide K;
    assert 32 * j / 4 == 8 * j;
    assert KTable(8 * j) == K(4 * j) && KTable(8 * j + 1) == K(4 * j + 1);
    assert KTable(8 * j + 2) == K(4 * j + 2) && KTable(8 * j + 3) == K(4 * j + 3);
  }

  // ---------------------------------------------------------------------------------
  // Schedule: SHA256MSG1, PALIGNR, PADDD and SHA256MSG2 form the next quad
  // ---------------------------------------------------------------------------------

  /** Quad j after its SHA256MSG1. */
  function Half(m: Block, j: nat): Xmm {
    Msg1Of(Quad(m, j), Quad(m, j + 1))
  }

  lemma WordOrder(w16: Word, s0: Word, w7: Word, s1: Word)
    ensures Add(Add(Add(w16, s0), w7), s1) == Add(Add(Add(s1, w7), s0), w16)
  {
    hide Add;
    AddComm(Add(Add(w16, s0), w7), s1);
    AddComm(Add(w16, s0), w7);
    AddAssoc(s1, w7, Add(w16, s0));
    AddComm(w16, s0);
    AddAssoc(Add(s1, w7), s0, w16);
  }

  lemma SchedNext(m: Block, t: nat)
    requires t >= 16
    ensures Sched(m, t) == Add(Add(Add(Sched(m, t - 16), SmallSigma0(Sched(m, t - 15))), Sched(m, t - 7)), SmallSigma1(Sched(m, t - 2)))
  {
    hide Add, SmallSigma0, SmallSigma1;
    WordOrder(Sched(m, t - 16), SmallSigma0(Sched(m, t - 15)), Sched(m, t - 7), SmallSigma1(Sched(m, t - 2)));
  }

  lemma ScheduleRefine(m: Block, j: nat)
    requires j >= 4
    ensures Msg2Of(PadddOf(Half(m, j - 4), PalignrOf(1, Quad(m, j - 1), Quad(m, j - 2))), Quad(m, j - 1)) == Quad(m, j)
  {
    hide Add, SmallSigma0, SmallSigma1, Sched;
    SchedNext(m, 4 * j);
    SchedNext(m, 4 * j + 1);
    SchedNext(m, 4 * j + 2);
    SchedNext(m, 4 * j + 3);
  }

  // ---------------------------------------------------------------------------------
  // The sixteen groups of a message block
  // ---------------------------------------------------------------------------------

  function GroupAt(k: nat, fromReg: bool): ValidGroup
    requires k < 16
  {
    if k < 4 then (if fromReg then LoadReg(k) else Load(k)) else if k < 15 then Mid(k - 4) else Final
  }

  /** The message registers after k groups.  Before the loads of the register variants the
      quads still to come wait in their registers. */
  predicate Window(m: Block, k: nat, fromReg: bool, w: seq<Xmm>)
    requires k <= 16 && |w| == 4
  {
    if k < 4 then
      && (forall i | 0 <= i < k - 1 :: w[i] == Half(m, i))
      && (k > 0 ==> w[k - 1] == Quad(m, k - 1))
      && (fromReg ==> forall i | k <= i < 4 :: w[i] == Quad(m, i))
    else
      var g := if k < 15 then k - 4 else 11;
      && w[g % 4] == Quad(m, g + 4)
      && (g <= 10 ==> w[(g + 1) % 4] == Half(m, g + 1))
      && (g <= 9 ==> w[(g + 2) % 4] == Half(m, g + 2))
      && w[(g + 3) % 4] == Quad(m, g + 3)
  }

  /** A load group with the message quad already in its register. */
  lemma LoadRefine(h: Vars, m: Block, k: nat, fromReg: bool, v: LaneView)
    requires k < 4
    requires StateIs(v, Rounds(h, m, 4 * k))
    requires Window(m, k, fromReg, v.w)
    requires v.w[k] == Quad(m, k)
    ensures var v' := StepLoad(k, v);
            StateIs(v', Rounds(h, m, 4 * k + 4)) && Window(m, k + 1, fromReg, v'.w)
  {
    hide PadddOf, Rnds2Of, PshufdOf, Msg1Of, Msg2Of, PalignrOf, KQuad, KQuadAt, Quad, Rounds, Sched, Abef, Cdgh;
    KTableQuad(k);
    FourRoundsRefine(h, m, k, v, PadddOf(Quad(m, k), KQuadAt(k)));
    if k == 3 {
      ScheduleRefine(m, 4);
    }
  }

  lemma MidRefine(h: Vars, m: Block, g: nat, v: LaneView, msg: seq<Xmm>)
    requires g < 11 && |msg| == 4
    requires StateIs(v, Rounds(h, m, 4 * g + 16))
    requires Window(m, g + 4, false, v.w)
    ensures var v' := StepView(Mid(g), v, msg);
            StateIs(v', Rounds(h, m, 4 * g + 20)) && Window(m, g + 5, false, v'.w)
  {
    hide PadddOf, Rnds2Of, PshufdOf, Msg1Of, Msg2Of, PalignrOf, KQuad, KQuadAt, Quad, Rounds, Sched, Abef, Cdgh, K, Add;
    MidRowShape(g);
    KTableQuad(g + 4);
    FourRoundsRefine(h, m, g + 4, v, PadddOf(Quad(m, g + 4), KQuadAt(g + 4)));
    ScheduleRefine(m, g + 5);
  }

  /** One group of a message block: four rounds further, and the window moves on. */
  lemma GroupRefine(h: Vars, m: Block, k: nat, fromReg: bool, v: LaneView, msg: seq<Xmm>)
    requires k < 16 && |msg| == 4
    requires StateIs(v, Rounds(h, m, 4 * k))
    requires Window(m, k, fromReg, v.w)
    requires !fromReg ==> msg == [Quad(m, 0), Quad(m, 1), Quad(m, 2), Quad(m, 3)]
    ensures var v' := StepView(GroupAt(k, fromReg), v, msg);
            StateIs(v', Rounds(h, m, 4 * k + 4)) && Window(m, k + 1, fromReg, v'.w)
  {
    hide PadddOf, Rnds2Of, PshufdOf, Msg1Of, Msg2Of, PalignrOf, Schedule, StepLoad,
         KQuad, KQuadAt, Quad, Half, Rounds, Abef, Cdgh;
    if k < 4 {
      LoadRefine(h, m, k, fromReg, if fromReg then v else v.(w := v.w[k := msg[k]]));
    } else if k < 15 {
      MidRefine(h, m, k - 4, v, msg);
    } else {
      KTableQuad(15);
      FourRoundsRefine(h, m, 15, v, PadddOf(Quad(m, 15), KQuadAt(15)));
    }
  }
}
