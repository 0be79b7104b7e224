/** The chain drivers: every combination of installed kernels computes the same 50,000-fold
    hash as the naive loop, and yields exactly where its cadence says. */
module Chains {
  import opened Sha256
  import opened Machine
  import opened Kernels
  import opened Yields

  /** Kernel slots: an iterN slot beats an iter slot, which beats the composed path; direct
      says whether riskSum64 is kernelSum64 or the library hash. */
  datatype Slots = Slots(iterN: bool, iter: bool, direct: bool)

  /** How a driver with these slots paces itself. */
  function CadenceOf(k: Slots, mask: Word): Cadence {
    if k.iterN then Chunk(StrideOf(mask)) else Mask(mask)
  }

  lemma {:induction false} ChainSplit(s: seq<Byte>, a: nat, b: nat)
    requires a >= 1
    ensures Chain(Chain(s, a), b) == Chain(s, a + b)
  {
    hide HexHash;
    if b > 0 {
      ChainSplit(s, a, b - 1);
    }
  }

  lemma ChainNext(s: seq<Byte>, n: nat)
    ensures Chain(s, n + 1) == HexHash(Chain(s, n)) && Chain(s, 0) == s
  {
    hide HexHash;
  }

  lemma DueNext(c: Cadence, n: nat)
    requires n >= 1
    ensures DueBelow(c, n + 1) == DueBelow(c, n) + (if Due(c, n) then [n] else [])
    ensures DueBelow(c, 1) == []
  {
    hide Due;
  }

  // ---------------------------------------------------------------------------------
  // The specification loop
  // ---------------------------------------------------------------------------------

  /** The reference starter: h = seed, then 50,000 times h = hex(sha256(h)). */
  method NaiveChain(seed: seq<Byte>) returns (h: Message)
    ensures h == Chain(seed, 50_000) == RiskHash(seed)
  {
    hide Hash, HexEncode;
    var t := seed;
    for i := 0 to 50_000
      invariant t == Chain(seed, i)
    {
      var sum := Hash(t);
      t := HexEncode(sum);
    }
    h := t;
  }

  // ---------------------------------------------------------------------------------
  // Shared steps
  // ---------------------------------------------------------------------------------

  /** The first round hashes the seed, of any length. */
  method Start(seed: seq<Byte>) returns (buf: Buffer, sum: Buffer)
    ensures fresh(buf) && fresh(sum) && buf != sum && buf.Length == 64 && sum.Length == 32
    ensures buf[..] == Chain(seed, 1)
  {
    hide Hash, HexEncode;
    buf, sum := new Byte[64](_ => 0), new Byte[32](_ => 0);
    Fill(sum, Hash(seed));
    HexEncode64(buf, sum);
    assert buf[..64] == buf[..];
    ChainNext(seed, 0);
  }

  /** riskSum64, whichever is installed. */
  method Sum64(direct: bool, buf: Buffer, sum: Buffer)
    requires buf.Length == 64 && sum.Length == 32 && buf != sum
    modifies sum
    ensures sum[..] == Hash(old(buf[..]))
  {
    hide Hash;
    if direct {
      KernelSum64(buf, sum);
    } else {
      Fill(sum, Hash(buf[..]));
    }
  }

  /** The length of the next chunk after done rounds. */
  function ChunkLength(done: nat, stride: Word): (n: nat)
    requires 1 <= done < ROUNDS
    ensures 1 <= n <= ROUNDS - done
  {
    if stride != 0 && ROUNDS - done > stride then stride else ROUNDS - done
  }

  /** Where a chunked loop stands: all chunks so far were whole, and the yields are those
      due; after the last chunk they are those of the whole loop. */
  ghost predicate Paced(stride: Word, done: nat, pauses: seq<nat>) {
    if done < ROUNDS then
      && done >= 1
      && (if stride == 0 then done == 1 else (done - 1) % stride == 0)
      && pauses == DueBelow(Chunk(stride), done)
    else done == ROUNDS && pauses == YieldsOf(Chunk(stride))
  }

  lemma PacedStart(stride: Word)
    ensures Paced(stride, 1, [])
  {
  }

  lemma PacedNext(stride: Word, done: nat, pauses: seq<nat>)
    requires 1 <= done < ROUNDS && Paced(stride, done, pauses)
    ensures var done' := done + ChunkLength(done, stride);
            Paced(stride, done', if done' < ROUNDS then pauses + [done' - 1] else pauses)
  {
    hide DueBelow;
    var n := ChunkLength(done, stride);
    NoDueBetween(stride, done - 1, n);
    if done + n < ROUNDS {
      NextMultiple(stride, done - 1);
      DueNext(Chunk(stride), done + n - 1);
    }
  }

  // ---------------------------------------------------------------------------------
  // One chain
  // ---------------------------------------------------------------------------------

  /** riskChain, for every mask and every kernel: the promised hash, and the yields of its
      cadence. */
  method RiskChain(core: Core, seed: seq<Byte>, k: Slots, mask: Word) returns (h: Message, pauses: seq<nat>)
    ensures h == RiskHash(seed)
    ensures pauses == YieldsOf(CadenceOf(k, mask))
  {
    hide HexHash, Chain, DueBelow, Paced, ChunkLength, HexEncode, Hash, YieldsOf, StrideOf;
    var buf, sum := Start(seed);
    pauses := [];
    if k.iterN {
      var stride := StrideOf(mask);
      var done := 1;
      PacedStart(stride);
      while done < ROUNDS
        invariant 1 <= done <= ROUNDS && buf[..] == Chain(seed, done)
        invariant Paced(stride, done, pauses)
      {
        var n := ChunkLength(done, stride);
        CallHashHex1N(core, buf, n);
        ChainSplit(seed, done, n);
        PacedNext(stride, done, pauses);
        done := done + n;
        if done < ROUNDS {
          pauses := pauses + [done - 1];
        }
      }
      PacedEnd(stride, pauses);
      return buf[..], pauses;
    }
    DueNext(Mask(mask), 1);
    for i := 1 to ROUNDS
      invariant buf[..] == Chain(seed, i)
      invariant pauses == DueBelow(Mask(mask), i)
    {
      if k.iter {
        CallHashHex1(core, buf);
      } else {
        Sum64(k.direct, buf, sum);
        HexEncode64(buf, sum);
        assert buf[..64] == buf[..];
        HexHashIs(Chain(seed, i));
      }
      ChainNext(seed, i);
      DueNext(Mask(mask), i);
      if Due(Mask(mask), i) {
        pauses := pauses + [i];
      }
    }
    MaskYields(mask);
    h := buf[..];
  }

  lemma PacedEnd(stride: Word, pauses: seq<nat>)
    requires Paced(stride, ROUNDS, pauses)
    ensures pauses == YieldsOf(Chunk(stride))
  {
  }

  lemma MaskYields(mask: Word)
    ensures YieldsOf(Mask(mask)) == DueBelow(Mask(mask), ROUNDS)
  {
  }

  lemma HexHashIs(p: seq<Byte>)
    ensures HexHash(p) == HexEncode(Hash(p))
  {
  }

  // ---------------------------------------------------------------------------------
  // Two chains
  // ---------------------------------------------------------------------------------

  /** riskSumPair: the pair kernel on two buffers. */
  method SumPair(core: Core, a: Buffer, b: Buffer, sumA: Buffer, sumB: Buffer)
    requires a.Length == 64 && b.Length == 64 && sumA.Length == 32 && sumB.Length == 32
    requires sumA != sumB && a != sumA && a != sumB && b != sumA && b != sumB
    modifies sumA, sumB
    ensures sumA[..] == Hash(old(a[..])) && sumB[..] == Hash(old(b[..]))
  {
    hide Hash;
    KernelSum64Pair(core, a, b, sumA, sumB);
  }

  /** riskChainPair: two riskChains in lockstep. */
  method RiskChainPair(core: Core, seedA: seq<Byte>, seedB: seq<Byte>, k: Slots, mask: Word)
    returns (ha: Message, hb: Message, pauses: seq<nat>)
    ensures ha == RiskHash(seedA) && hb == RiskHash(seedB)
    ensures pauses == YieldsOf(CadenceOf(k, mask))
  {
    hide HexHash, Chain, DueBelow, Paced, ChunkLength, HexEncode, Hash, YieldsOf, StrideOf;
    var a, sumA := Start(seedA);
    var b, sumB := Start(seedB);
    pauses := [];
    if k.iterN {
      var stride := StrideOf(mask);
      var done := 1;
      PacedStart(stride);
      while done < ROUNDS
        invariant 1 <= done <= ROUNDS && a[..] == Chain(seedA, done) && b[..] == Chain(seedB, done)
        invariant Paced(stride, done, pauses)
      {
        var n := ChunkLength(done, stride);
        CallPairHashHexN(core, a, b, n);
        ChainSplit(seedA, done, n);
        ChainSplit(seedB, done, n);
        PacedNext(stride, done, pauses);
        done := done + n;
        if done < ROUNDS {
          pauses := pauses + [done - 1];
        }
      }
      PacedEnd(stride, pauses);
      return a[..], b[..], pauses;
    }
    DueNext(Mask(mask), 1);
    for i := 1 to ROUNDS
      invariant a[..] == Chain(seedA, i) && b[..] == Chain(seedB, i)
      invariant pauses == DueBelow(Mask(mask), i)
    {
      if k.iter {
        CallPairHashHex(core, a, b);
      } else {
        SumPair(core, a, b, sumA, sumB);
        HexEncode64(a, sumA);
        HexEncode64(b, sumB);
        assert a[..64] == a[..] && b[..64] == b[..];
        HexHashIs(Chain(seedA, i));
        HexHashIs(Chain(seedB, i));
      }
      ChainNext(seedA, i);
      ChainNext(seedB, i);
      DueNext(Mask(mask), i);
      if Due(Mask(mask), i) {
        pauses := pauses + [i];
      }
    }
    MaskYields(mask);
    ha, hb := a[..], b[..];
  }

  // ---------------------------------------------------------------------------------
  // Four chains
  // ---------------------------------------------------------------------------------

  /** riskChainQuadKernel: four chains, chunked like the pair. */
  method RiskChainQuad(core: Core, s0: seq<Byte>, s1: seq<Byte>, s2: seq<Byte>, s3: seq<Byte>, mask: Word)
    returns (h0: Message, h1: Message, h2: Message, h3: Message, pauses: seq<nat>)
    ensures h0 == RiskHash(s0) && h1 == RiskHash(s1) && h2 == RiskHash(s2) && h3 == RiskHash(s3)
    ensures pauses == YieldsOf(Chunk(StrideOf(mask)))
  {
    hide HexHash, Chain, DueBelow, Paced, ChunkLength, HexEncode, Hash, YieldsOf, StrideOf;
    var b0, d0 := Start(s0);
    var b1, d1 := Start(s1);
    var b2, d2 := Start(s2);
    var b3, d3 := Start(s3);
    pauses := [];
    var stride := StrideOf(mask);
    var done := 1;
    PacedStart(stride);
    while done < ROUNDS
      invariant 1 <= done <= ROUNDS && b0[..] == Chain(s0, done) && b1[..] == Chain(s1, done)
      invariant b2[..] == Chain(s2, done) && b3[..] == Chain(s3, done)
      invariant Paced(stride, done, pauses)
    {
      var n := ChunkLength(done, stride);
      CallRiskChain4x(core, b0, b1, b2, b3, n);
      ChainSplit(s0, done, n);
      ChainSplit(s1, done, n);
      ChainSplit(s2, done, n);
      ChainSplit(s3, done, n);
      PacedNext(stride, done, pauses);
      done := done + n;
      if done < ROUNDS {
        pauses := pauses + [done - 1];
      }
    }
    PacedEnd(stride, pauses);
    h0, h1, h2, h3 := b0[..], b1[..], b2[..], b3[..];
  }
}
