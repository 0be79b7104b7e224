/** The sixteen-lane batch path: the transposed digest layout, the pooled working state and
    the lockstep chain.  The vendored AVX-512 routine enters with its lane-wise contract. */
module X16 {
  import opened Bits
  import opened Sha256
  import opened Machine
  import opened Kernels
  import opened Yields
  import Chains

  // ---------------------------------------------------------------------------------
  // Layout of the transposed state
  // ---------------------------------------------------------------------------------

  /** Byte offset of word w of lane i. */
  function Offset(i: nat, w: nat): nat {
    i * 4 + w * 64
  }

  function LaneAt(o: nat): nat { o % 64 / 4 }

  function WordAt(o: nat): nat { o / 64 }

  function ByteAt(o: nat): nat { o % 4 }

  /** The offsets split the 512 bytes into one four-byte cell for each lane and word: every
      byte lies in a cell, and a byte of a cell lies in no other. */
  lemma OffsetOnto(o: nat)
    requires o < 512
    ensures LaneAt(o) < 16 && WordAt(o) < 8 && ByteAt(o) < 4 && o == Offset(LaneAt(o), WordAt(o)) + ByteAt(o)
  {
  }

  lemma OffsetOneToOne(i: nat, w: nat, b: nat)
    requires i < 16 && w < 8 && b < 4
    ensures Offset(i, w) == 4 * i + 64 * w
    ensures var o := Offset(i, w) + b; o < 512 && LaneAt(o) == i && WordAt(o) == w && ByteAt(o) == b
  {
    var o := Offset(i, w) + b;
    ModUnique(o, 64, w, i * 4 + b);
    ModUnique(i * 4 + b, 4, i, b);
    ModUnique(o, 4, i + w * 16, b);
  }

  function LeAt(s: seq<Byte>, o: nat): Word
    requires o + 4 <= |s|
  {
    LeWord(s[o], s[o + 1], s[o + 2], s[o + 3])
  }

  type State16 = s: seq<Byte> | |s| == 512 witness seq(512, _ => 0)

  /** Lane i of the transposed state. */
  function LaneState(s: State16, i: nat): Vars
    requires i < 16
  {
    Vars(LeAt(s, Offset(i, 0)), LeAt(s, Offset(i, 1)), LeAt(s, Offset(i, 2)), LeAt(s, Offset(i, 3)),
         LeAt(s, Offset(i, 4)), LeAt(s, Offset(i, 5)), LeAt(s, Offset(i, 6)), LeAt(s, Offset(i, 7)))
  }

  /** Sixteen chaining values, transposed. */
  function Pack(hs: seq<Vars>): State16
    requires |hs| == 16
  {
    seq(512, o requires 0 <= o < 512 => ByteOf(Words(hs[LaneAt(o)])[WordAt(o)], ByteAt(o)))
  }

  lemma PackAt(hs: seq<Vars>, i: nat, w: nat)
    requires |hs| == 16 && i < 16 && w < 8
    ensures LeAt(Pack(hs), Offset(i, w)) == Words(hs[i])[w]
  {
    hide LeWord, ByteOf, Words, Offset, LaneAt, WordAt, ByteAt;
    OffsetOneToOne(i, w, 0);
    OffsetOneToOne(i, w, 1);
    OffsetOneToOne(i, w, 2);
    OffsetOneToOne(i, w, 3);
    BytesLeWord(Words(hs[i])[w]);
  }

  /** Every lane reads back its own chaining value and nothing else. */
  lemma LaneOfPack(hs: seq<Vars>, i: nat)
    requires |hs| == 16 && i < 16
    ensures LaneState(Pack(hs), i) == hs[i]
  {
    hide Pack, LeAt;
    PackAt(hs, i, 0);
    PackAt(hs, i, 1);
    PackAt(hs, i, 2);
    PackAt(hs, i, 3);
    PackAt(hs, i, 4);
    PackAt(hs, i, 5);
    PackAt(hs, i, 6);
    PackAt(hs, i, 7);
  }

  /** Two blocks of a 128-byte input. */
  function TwoBlocks(h: Vars, input: seq<Byte>): Vars
    requires |input| == 128
  {
    Compress(Compress(h, ParseBlock(input[..64])), ParseBlock(input[64..]))
  }

  /** Contract of the vendored routine with every lane live in both rounds: each lane's
      chaining value absorbs the two blocks of its own input. */
  function Sha256X16(s: State16, inputs: seq<seq<Byte>>): State16
    requires |inputs| == 16 && forall i | 0 <= i < 16 :: |inputs[i]| == 128
  {
    hide Compress;
    Pack(seq(16, i requires 0 <= i < 16 => TwoBlocks(LaneState(s, i), inputs[i])))
  }

  function AllIv(): (hs: seq<Vars>)
    ensures |hs| == 16 && forall i | 0 <= i < 16 :: hs[i] == IV
  {
    seq(16, _ => IV)
  }

  /** binary.LittleEndian.PutUint32. */
  method PutLe(t: array<Byte>, o: nat, v: Word)
    requires o + 4 <= t.Length
    modifies t
    ensures forall b | 0 <= b < 4 :: t[o + b] == ByteOf(v, b)
    ensures forall x | 0 <= x < t.Length && !(o <= x < o + 4) :: t[x] == old(t[x])
  {
    hide ByteOf;
    t[o], t[o + 1], t[o + 2], t[o + 3] := ByteOf(v, 0), ByteOf(v, 1), ByteOf(v, 2), ByteOf(v, 3);
  }

  /** Byte x is right in the template under construction. */
  ghost predicate Filled(t: seq<Byte>, x: nat)
    requires |t| == 512 && x < 512
  {
    t[x] == Pack(AllIv())[x]
  }

  lemma FilledCell(i: nat, w: nat, b: nat)
    requires i < 16 && w < 8 && b < 4
    ensures Offset(i, w) + b < 512 && Pack(AllIv())[Offset(i, w) + b] == ByteOf(Words(IV)[w], b)
  {
    hide ByteOf, Words, Offset, LaneAt, WordAt, ByteAt;
    OffsetOneToOne(i, w, b);
  }

  /** x16IVTemplate, word by word as the initializer writes it. */
  method IvTemplate() returns (t: array<Byte>)
    ensures fresh(t) && t.Length == 512 && t[..] == Pack(AllIv())
  {
    hide ByteOf, Words, Pack, Offset, LaneAt, WordAt, ByteAt;
    t := new Byte[512](_ => 0);
    var iv := Words(IV);
    for i := 0 to 16
      invariant forall x | 0 <= x < 512 && LaneAt(x) < i :: Filled(t[..], x)
    {
      for w := 0 to 8
        invariant forall x | 0 <= x < 512 && (LaneAt(x) < i || (LaneAt(x) == i && WordAt(x) < w)) :: Filled(t[..], x)
      {
        FilledCell(i, w, 0);
        FilledCell(i, w, 1);
        FilledCell(i, w, 2);
        FilledCell(i, w, 3);
        PutLe(t, Offset(i, w), iv[w]);
        forall x | 0 <= x < 512 && (LaneAt(x) < i || (LaneAt(x) == i && WordAt(x) < w + 1)) ensures Filled(t[..], x) {
          OffsetOnto(x);
        }
      }
      forall x | 0 <= x < 512 && LaneAt(x) < i + 1 ensures Filled(t[..], x) {
        OffsetOnto(x);
      }
    }
    forall x | 0 <= x < 512 ensures t[..][x] == Pack(AllIv())[x] {
      OffsetOnto(x);
      assert Filled(t[..], x);
    }
  }

  // ---------------------------------------------------------------------------------
  // The pooled working state
  // ---------------------------------------------------------------------------------

  class X16Chains {
    const digests: array<Byte>
    const scratch: array<Byte>
    const bufs: seq<Buffer>

    ghost predicate Shape() {
      && digests.Length == 512 && scratch.Length == 512 && digests != scratch && |bufs| == 16
      && (forall i | 0 <= i < 16 :: bufs[i].Length == 128 && bufs[i] != digests && bufs[i] != scratch)
      && forall i, j | 0 <= i < j < 16 :: bufs[i] != bufs[j]
    }

    /** Bytes 64..127 of every lane hold the padding block. */
    ghost predicate Valid()
      reads bufs
    {
      Shape() && forall i | 0 <= i < 16 :: bufs[i][64..] == ShaPad64()
    }

    /** The pool's constructor. */
    constructor ()
      ensures Valid() && fresh(digests) && fresh(scratch) && forall b | b in bufs :: fresh(b)
    {
      var d, c := new Byte[512](_ => 0), new Byte[512](_ => 0);
      var bs: seq<Buffer> := [];
      while |bs| < 16
        invariant |bs| <= 16
        invariant forall i | 0 <= i < |bs| :: fresh(bs[i]) && bs[i].Length == 128 && bs[i][64..] == ShaPad64()
        invariant forall i | 0 <= i < |bs| :: bs[i] != d && bs[i] != c
        invariant forall i, j | 0 <= i < j < |bs| :: bs[i] != bs[j]
        decreases 16 - |bs|
      {
        var b := new Byte[128](_ => 0);
        var pad := ShaPad64();
        forall k | 0 <= k < 64 {
          b[64 + k] := pad[k];
        }
        assert b[64..] == pad;
        bs := bs + [b];
      }
      digests, scratch, bufs := d, c, bs;
    }

    /** The message in lane i. */
    ghost function Lane(i: nat): Message
      requires Shape() && i < 16
      reads bufs
    {
      bufs[i][..64]
    }

    /** One call of the routine from the fresh template: every lane's digest. */
    method Compress16()
      requires Valid()
      modifies digests, scratch
      ensures forall i | 0 <= i < 16 :: DigestBytes(LaneState(digests[..], i)) == Hash(Lane(i))
    {
      hide TwoBlocks, DigestBytes, Hash, LaneState, Pack, ParseBlock;
      var template := IvTemplate();
      Fill(digests, template[..]);
      forall k | 0 <= k < 512 {
        scratch[k] := 0;
      }
      var inputs: seq<seq<Byte>> := seq(16, i requires 0 <= i < 16 reads bufs => bufs[i][..]);
      ghost var before: State16 := digests[..];
      Fill(digests, Sha256X16(digests[..], inputs));
      forall i | 0 <= i < 16 ensures DigestBytes(LaneState(digests[..], i)) == Hash(Lane(i)) {
        Sha256X16Lane(before, inputs, i);
        LaneOfPack(AllIv(), i);
        assert inputs[i][..64] == Lane(i) && inputs[i][64..] == ShaPad64();
        HashOfLane(Lane(i), inputs[i]);
        assert before == Pack(AllIv());
        assert LaneState(before, i) == IV;
        assert digests[..] == Sha256X16(before, inputs);
        assert LaneState(digests[..], i) == TwoBlocks(IV, inputs[i]);
      }
    }

    /** step: all sixteen lanes advance by one hex(sha256(.)). */
    method Step()
      requires Valid()
      modifies digests, scratch, bufs
      ensures Valid() && forall i | 0 <= i < 16 :: Lane(i) == HexHash(old(Lane(i)))
    {
      hide DigestBytes, Hash, LaneState, HexEncode, ShaPad64;
      Compress16();
      label AfterCompress:
      var sum := new Byte[32](_ => 0);
      for i := 0 to 16
        invariant Valid()
        invariant digests[..] == old@AfterCompress(digests[..])
        invariant forall j | 0 <= j < i :: Lane(j) == HexHash(old(Lane(j)))
        invariant forall j | i <= j < 16 :: Lane(j) == old(Lane(j))
      {
        ReadLane(digests, i, sum);
        HexEncode64(bufs[i], sum);
      }
    }
  }

  /** binary.BigEndian.PutUint32. */
  method PutBe(t: Buffer, o: nat, v: Word)
    requires o + 4 <= t.Length
    modifies t
    ensures t[o..o + 4] == Bytes(v) && t[..o] == old(t[..o])
  {
    t[o], t[o + 1], t[o + 2], t[o + 3] := v / 0x100_0000, v / 0x1_0000 % 256, v / 256 % 256, v % 256;
  }

  /** The big-endian digest bytes of lane i. */
  method ReadLane(digests: array<Byte>, i: nat, sum: Buffer)
    requires digests.Length == 512 && sum.Length == 32 && digests != sum && i < 16
    modifies sum
    ensures sum[..] == DigestBytes(LaneState(digests[..], i))
  {
    hide DigestBytes, Words, LeAt, LaneState, Bytes, Offset;
    ghost var d: State16 := digests[..];
    ghost var h := LaneState(d, i);
    for w := 0 to 8
      invariant digests[..] == d && sum[..4 * w] == DigestBytes(h)[..4 * w]
    {
      LaneWord(d, i, w);
      DigestWord(h, w);
      PutBe(sum, 4 * w, LeAt(digests[..], Offset(i, w)));
      assert sum[..4 * w + 4] == sum[..4 * w] + sum[4 * w..4 * w + 4];
    }
    assert sum[..32] == sum[..];
  }

  lemma LaneWord(s: State16, i: nat, w: nat)
    requires i < 16 && w < 8
    ensures Offset(i, w) + 4 <= 512 && Words(LaneState(s, i))[w] == LeAt(s, Offset(i, w))
  {
    hide LeAt;
  }

  lemma Sha256X16Lane(s: State16, inputs: seq<seq<Byte>>, i: nat)
    requires |inputs| == 16 && (forall j | 0 <= j < 16 :: |inputs[j]| == 128) && i < 16
    ensures LaneState(Sha256X16(s, inputs), i) == TwoBlocks(LaneState(s, i), inputs[i])
  {
    hide LaneState, Pack, TwoBlocks;
    LaneOfPack(seq(16, i requires 0 <= i < 16 => TwoBlocks(LaneState(s, i), inputs[i])), i);
  }

  lemma HashOfLane(p: Message, input: seq<Byte>)
    requires |input| == 128 && input[..64] == p && input[64..] == ShaPad64()
    ensures DigestBytes(TwoBlocks(IV, input)) == Hash(p)
  {
    hide Compress, ParseBlock, DigestBytes, Hash;
    HashOf64(p);
    ShaPad64Block();
  }

  // ---------------------------------------------------------------------------------
  // Batches
  // ---------------------------------------------------------------------------------

  /** x16Sum64 on a pooled object: sixteen hashes; the object goes back with its padding. */
  method X16Sum64(x: X16Chains, msgs: seq<Message>) returns (out: seq<seq<Byte>>)
    requires x.Valid() && |msgs| == 16
    modifies x.digests, x.scratch, x.bufs
    ensures x.Valid() && |out| == 16 && forall i | 0 <= i < 16 :: out[i] == Hash(msgs[i])
  {
    hide Hash, ShaPad64, DigestBytes, LaneState;
    for i := 0 to 16
      invariant x.Valid()
      invariant forall j | 0 <= j < i :: x.Lane(j) == msgs[j]
    {
      CopyIn(x.bufs[i], msgs[i]);
    }
    x.Compress16();
    out := [];
    var sum := new Byte[32](_ => 0);
    label Compressed:
    for i := 0 to 16
      invariant x.Valid() && x.digests[..] == old@Compressed(x.digests[..])
      invariant |out| == i && forall j | 0 <= j < i :: out[j] == Hash(msgs[j])
    {
      ReadLane(x.digests, i, sum);
      out := out + [sum[..]];
    }
  }

  /** copy(buf[:64], p). */
  method CopyIn(buf: Buffer, p: Message)
    requires buf.Length == 128
    modifies buf
    ensures buf[..64] == p && buf[64..] == old(buf[64..])
  {
    forall k | 0 <= k < 64 {
      buf[k] := p[k];
    }
  }

  /** x16ChainRun: whatever the pooled object computed before and whatever the unused lanes
      hold, seed i gets its own 50,000-fold hash. */
  method X16ChainRun(x: X16Chains, seeds: seq<seq<Byte>>, mask: Word) returns (out: seq<Message>, pauses: seq<nat>)
    requires x.Valid() && |seeds| <= 16
    modifies x.digests, x.scratch, x.bufs
    ensures x.Valid() && |out| == |seeds| && forall i | 0 <= i < |seeds| :: out[i] == RiskHash(seeds[i])
    ensures pauses == YieldsOf(Mask(mask))
  {
    hide Chain, HexHash, Hash, DueBelow, ShaPad64, HexEncode;
    var n := |seeds|;
    var sum := new Byte[32](_ => 0);
    for i := 0 to n
      invariant x.Valid()
      invariant forall j | 0 <= j < i :: x.Lane(j) == Chain(seeds[j], 1)
    {
      Fill(sum, Hash(seeds[i]));
      HexEncode64(x.bufs[i], sum);
      Chains.ChainNext(seeds[i], 0);
      Chains.HexHashIs(seeds[i]);
    }
    for i := n to 16
      invariant x.Valid()
      invariant forall j | 0 <= j < n :: x.Lane(j) == Chain(seeds[j], 1)
    {
      CopyIn(x.bufs[i], seq(64, _ => 0));
    }
    pauses := [];
    Chains.DueNext(Mask(mask), 1);
    for it := 1 to ROUNDS
      invariant x.Valid()
      invariant forall j | 0 <= j < n :: x.Lane(j) == Chain(seeds[j], it)
      invariant pauses == DueBelow(Mask(mask), it)
    {
      x.Step();
      forall j | 0 <= j < n ensures x.Lane(j) == Chain(seeds[j], it + 1) {
        Chains.ChainNext(seeds[j], it);
      }
      Chains.DueNext(Mask(mask), it);
      if Due(Mask(mask), it) {
        pauses := pauses + [it];
      }
    }
    out := [];
    for i := 0 to n
      invariant |out| == i && forall j | 0 <= j < i :: out[j] == RiskHash(seeds[j])
    {
      out := out + [x.bufs[i][..64]];
      assert x.Lane(i) == Chain(seeds[i], ROUNDS);
    }
  }
}
