/** When a hash loop of 49,999 iterations gives up the processor: the chunked loops yield
    after every whole chunk but the last, the per-iteration loops when i & mask is zero. */
module Yields {
  import opened Bits
  import opened Sha256

  /** Chunk(0) is a single call with no chunks. */
  datatype Cadence = Chunk(stride: nat) | Mask(mask: nat)

  /** Is a yield due once i iterations are done? */
  predicate Due(c: Cadence, i: nat) {
    match c
    case Chunk(stride) => stride != 0 && i % stride == 0
    case Mask(mask) => And(i, mask) == 0
  }

  /** The iteration counts 1 <= i < n at which a yield is due, in order. */
  function DueBelow(c: Cadence, n: nat): seq<nat> {
    if n <= 1 then [] else DueBelow(c, n - 1) + if Due(c, n - 1) then [n - 1] else []
  }

  /** What the two kinds of loop do: the chunked loop never yields after its last chunk. */
  function YieldsOf(c: Cadence): seq<nat> {
    DueBelow(c, if c.Chunk? then ROUNDS - 1 else ROUNDS)
  }

  lemma {:induction false} InDue(c: Cadence, n: nat, i: nat)
    ensures i in DueBelow(c, n) <==> 1 <= i < n && Due(c, i)
  {
    hide Due;
    if n > 1 {
      InDue(c, n - 1, i);
    }
  }

  /** No multiple of the stride lies strictly between two neighbouring multiples. */
  lemma {:induction false} NoDueBetween(stride: nat, at: nat, n: nat)
    requires n >= 1 && (if stride == 0 then at == 0 else at % stride == 0 && n <= stride)
    ensures DueBelow(Chunk(stride), at + n) == DueBelow(Chunk(stride), at + 1)
  {
    if n > 1 {
      NoDueBetween(stride, at, n - 1);
      if stride != 0 {
        NotMultiple(stride, at, n - 1);
      }
    }
  }

  lemma NotMultiple(stride: nat, at: nat, d: nat)
    requires 0 < d < stride && at % stride == 0
    ensures (at + d) % stride == d
  {
    assert at == stride * (at / stride);
    ModUnique(at + d, stride, at / stride, d);
  }

  lemma NextMultiple(stride: nat, at: nat)
    requires 0 < stride && at % stride == 0
    ensures (at + stride) % stride == 0
  {
    var q := at / stride;
    assert at + stride == stride * (q + 1);
    ModUnique(at + stride, stride, q + 1, 0);
  }

  // ---------------------------------------------------------------------------------
  // When the two loops agree
  // ---------------------------------------------------------------------------------

  /** The stride the chunked loop derives from the mask, in uint32 arithmetic. */
  function StrideOf(mask: Word): Word {
    (mask + 1) % 0x1_0000_0000
  }

  lemma {:induction false} SameDue(c: Cadence, d: Cadence, n: nat)
    requires forall i | 1 <= i < n :: Due(c, i) == Due(d, i)
    ensures DueBelow(c, n) == DueBelow(d, n)
  {
    hide Due;
    if n > 1 {
      SameDue(c, d, n - 1);
    }
  }

  lemma {:induction false} NoneDue(c: Cadence, n: nat)
    requires forall i | 1 <= i < n :: !Due(c, i)
    ensures DueBelow(c, n) == []
  {
    hide Due;
    if n > 1 {
      NoneDue(c, n - 1);
    }
  }

  /** Power-of-two strides from 2 to 2^15 give both loops the same yields. */
  lemma PowerOfTwoAgrees(k: nat)
    requires 1 <= k <= 15
    ensures YieldsOf(Chunk(Pow2(k))) == YieldsOf(Mask(Pow2(k) - 1))
  {
    var p := Pow2(k);
    forall i | 1 <= i < ROUNDS ensures Due(Chunk(p), i) == Due(Mask(p - 1), i) {
      AndOnes(i, k);
    }
    SameDue(Chunk(p), Mask(p - 1), ROUNDS - 1);
    LastNotDue(k);
  }

  /** 49,999 is odd, so no even stride divides it. */
  lemma LastNotDue(k: nat)
    requires 1 <= k
    ensures !Due(Mask(Pow2(k) - 1), ROUNDS - 1)
  {
    assert (Pow2(k) - 1) % 2 == 1;
  }

  /** A number whose low sixteen bits are ones lets through everything below 2^16. */
  lemma {:induction false} LowOnes(i: nat, m: nat, k: nat)
    requires m % Pow2(k) == Pow2(k) - 1 && i < Pow2(k)
    ensures And(i, m) == i
  {
    if k > 0 && i > 0 {
      HalfMod(m, Pow2(k - 1));
      assert m % 2 == 1 && m / 2 % Pow2(k - 1) == Pow2(k - 1) - 1;
      LowOnes(i / 2, m / 2, k - 1);
    }
  }

  lemma Pow2Of16()
    ensures Pow2(16) == 65536 && Pow2(15) == 32768
  {
    assert Pow2(4) == 16;
    assert Pow2(8) == 256;
    assert Pow2(12) == 4096;
  }

  lemma WholeStride(mask: Word)
    requires mask % 65536 == 65535
    ensures StrideOf(mask) % 65536 == 0 && (StrideOf(mask) == 0 || StrideOf(mask) >= 65536)
  {
  }

  /** Stride 0 (mask all ones) and every multiple of 65536: no yields in either loop. */
  lemma LargeStrideAgrees(mask: Word)
    requires mask % 65536 == 65535
    ensures YieldsOf(Chunk(StrideOf(mask))) == [] == YieldsOf(Mask(mask))
  {
    hide And, Pow2, StrideOf;
    Pow2Of16();
    forall i | 1 <= i < ROUNDS ensures !Due(Mask(mask), i) {
      LowOnes(i, mask, 16);
    }
    NoneDue(Mask(mask), ROUNDS);
    var s := StrideOf(mask);
    WholeStride(mask);
    forall i | 1 <= i < ROUNDS - 1 ensures !Due(Chunk(s), i) {
      if s != 0 {
        ModUnique(i, s, 0, i);
      }
    }
    NoneDue(Chunk(s), ROUNDS - 1);
  }

  /** The position of the lowest zero bit. */
  function LowestZero(m: nat): nat {
    if m % 2 == 0 then 0 else 1 + LowestZero(m / 2)
  }

  /** Below its lowest zero bit m is all ones; the bit itself and m have nothing in common. */
  lemma {:induction false} LowestZeroIs(m: nat)
    ensures var b := LowestZero(m);
      && m % Pow2(b) == Pow2(b) - 1
      && And(Pow2(b), m) == 0
      && (m == Pow2(b) - 1 || m >= 2 * Pow2(b))
  {
    if m % 2 == 0 {
      assert And(1, m) == 2 * And(0, m / 2);
    } else {
      LowestZeroIs(m / 2);
      var b := LowestZero(m / 2);
      HalfMod(m, Pow2(b));
      assert And(Pow2(b + 1), m) == 2 * And(Pow2(b), m / 2);
    }
  }

  lemma {:induction false} Pow2Mono(a: nat, b: nat)
    requires a <= b
    ensures Pow2(a) <= Pow2(b)
  {
    if a < b {
      Pow2Mono(a, b - 1);
    }
  }

  lemma OnesHalf(m: nat, p: nat)
    requires p >= 1 && m % (2 * p) == 2 * p - 1
    ensures m % p == p - 1
  {
    var q := m / (2 * p);
    assert m == (2 * p) * q + (2 * p - 1);
    assert (2 * p) * q == p * (2 * q);
    assert p * (2 * q + 1) == p * (2 * q) + p;
    ModUnique(m, p, 2 * q + 1, p - 1);
  }

  lemma {:induction false} OnesBelow(m: nat, a: nat, b: nat)
    requires a <= b && m % Pow2(b) == Pow2(b) - 1
    ensures m % Pow2(a) == Pow2(a) - 1
  {
    if a < b {
      OnesHalf(m, Pow2(b - 1));
      OnesBelow(m, a, b - 1);
    }
  }

  /** Stride 0 and the other multiples of 65536, and the powers of two from 2 to 2^15. */
  ghost predicate Regular(stride: nat) {
    stride % 65536 == 0 || exists k :: 1 <= k <= 15 && stride == Pow2(k)
  }

  lemma RegularAgrees(mask: Word)
    requires Regular(StrideOf(mask))
    ensures YieldsOf(Chunk(StrideOf(mask))) == YieldsOf(Mask(mask))
  {
    hide YieldsOf, Pow2;
    var s := StrideOf(mask);
    if s % 65536 == 0 {
      LargeStrideAgrees(mask);
    } else {
      var k :| 1 <= k <= 15 && s == Pow2(k);
      PowerOfTwoAgrees(k);
    }
  }

  lemma PowerStride(mask: Word, b: nat)
    requires 1 <= b <= 15 && mask == Pow2(b) - 1
    ensures Regular(StrideOf(mask))
  {
    Pow2Of16();
    Pow2Mono(b, 15);
    assert StrideOf(mask) == Pow2(b);
  }

  lemma MaskShape(mask: Word)
    ensures var b := LowestZero(mask);
      || Regular(StrideOf(mask))
      || mask == 0
      || (b <= 15 && mask >= 2 * Pow2(b) && And(Pow2(b), mask) == 0)
  {
    hide Pow2, And, StrideOf, LowestZero, Regular;
    var b := LowestZero(mask);
    LowestZeroIs(mask);
    Pow2Of0();
    if b >= 16 {
      Pow2Of16();
      OnesBelow(mask, 16, b);
      WholeStride(mask);
      WholeRegular(mask);
    } else if mask == Pow2(b) - 1 && b >= 1 {
      PowerStride(mask, b);
    }
  }

  lemma WholeRegular(mask: Word)
    requires StrideOf(mask) % 65536 == 0
    ensures Regular(StrideOf(mask))
  {
  }

  lemma IrregularDiffers(mask: Word)
    requires !Regular(StrideOf(mask))
    ensures YieldsOf(Chunk(StrideOf(mask))) != YieldsOf(Mask(mask))
  {
    hide YieldsOf, Pow2, And, LowestZero, Regular;
    MaskShape(mask);
    if mask == 0 {
      StrideOneDiffers();
    } else {
      OddMaskDiffers(mask, LowestZero(mask));
    }
  }

  lemma Pow2Of0()
    ensures Pow2(0) == 1
  {
  }

  /** The two loops yield after exactly the same iterations when, and only when, the stride
      is a multiple of 65536 (0 included) or a power of two from 2 to 2^15. */
  lemma SameCadence(mask: Word)
    ensures YieldsOf(Chunk(StrideOf(mask))) == YieldsOf(Mask(mask)) <==> Regular(StrideOf(mask))
  {
    hide YieldsOf, Regular;
    if Regular(StrideOf(mask)) {
      RegularAgrees(mask);
    } else {
      IrregularDiffers(mask);
    }
  }

  /** With stride 1 the per-iteration loop also yields after its last iteration. */
  lemma StrideOneDiffers()
    ensures YieldsOf(Chunk(1)) != YieldsOf(Mask(0))
  {
    InDue(Mask(0), ROUNDS, ROUNDS - 1);
    InDue(Chunk(1), ROUNDS - 1, ROUNDS - 1);
    AndOnes(ROUNDS - 1, 0);
  }

  /** With a zero bit below its top bit the mask makes the per-iteration loop yield long
      before the first chunk ends. */
  lemma OddMaskDiffers(mask: Word, b: nat)
    requires b <= 15 && And(Pow2(b), mask) == 0 && mask >= 2 * Pow2(b)
    ensures YieldsOf(Chunk(StrideOf(mask))) != YieldsOf(Mask(mask))
  {
    hide And, DueBelow, Pow2;
    Pow2Of16();
    Pow2Mono(b, 15);
    var i := Pow2(b);
    InDue(Mask(mask), ROUNDS, i);
    InDue(Chunk(StrideOf(mask)), ROUNDS - 1, i);
  }

  // ---------------------------------------------------------------------------------
  // How far apart
  // ---------------------------------------------------------------------------------

  /** Between yields, before the first and after the last, at most stride iterations run. */
  lemma {:induction false} NeverLongerThanStride(stride: nat, from: nat)
    requires 1 <= stride && from + stride < ROUNDS - 1
    ensures exists i :: from < i <= from + stride && i in YieldsOf(Chunk(stride))
  {
    hide DueBelow;
    var q := from / stride;
    var i := stride * q + stride;
    assert from == stride * q + from % stride;
    assert i == stride * (q + 1);
    ModUnique(i, stride, q + 1, 0);
    InDue(Chunk(stride), ROUNDS - 1, i);
    assert from < i <= from + stride;
    assert i in YieldsOf(Chunk(stride));
  }

  /** calibrateRisk's automatic stride: doubled from 256 while twice the stride still fits
      the target. */
  method AutoStride(target: real) returns (stride: nat)
    ensures exists k :: 8 <= k <= 13 && stride == Pow2(k)
    ensures 256 <= stride <= 8192
    ensures stride > 256 ==> stride as real <= target
    ensures stride < 8192 ==> (2 * stride) as real > target
  {
    stride := 256;
    ghost var k := 8;
    assert Pow2(4) == 16;
    assert Pow2(8) == 256;
    assert Pow2(13) == 8192;
    while stride < 8192 && (stride * 2) as real <= target
      invariant 8 <= k <= 13 && stride == Pow2(k)
      invariant stride > 256 ==> stride as real <= target
      decreases 8192 - stride
    {
      if k >= 13 {
        Pow2Mono(13, k);
      }
      stride := stride * 2;
      k := k + 1;
    }
    Pow2Mono(8, k);
    Pow2Mono(k, 13);
  }

  /** riskYieldMask: stride 0 turns into the mask of all ones. */
  function MaskOf(stride: Word): Word {
    if stride == 0 then 0xffff_ffff else stride - 1
  }

  /** Deriving the mask and then the stride from it gives the stride back. */
  lemma MaskRoundTrip(stride: Word)
    ensures StrideOf(MaskOf(stride)) == stride
  {
  }
}
