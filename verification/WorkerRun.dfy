/** riskWorker between taking a batch and going back for more: which kernel hashes which
    waiters, and in which order the digests are sent. */
module WorkerRun {
  import opened Sha256
  import opened Machine
  import opened Chains
  import opened X16
  import opened GateInv
  import opened GateSafety
  import Gate

  /** Send h on the channel of batch member i. */
  datatype Delivery = Delivery(i: nat, h: Message)

  /** Whatever kernels are installed and however many waiters the batch holds, every waiter
      is sent exactly one digest, in batch order, and it is the hash of its own seed. */
  method RunBatch(core: Core, x: X16Chains, seeds: seq<seq<Byte>>, k: Gate.Kernels, one: Slots, two: Slots, mask: Word)
    returns (sends: seq<Delivery>)
    requires x.Valid() && 1 <= |seeds| <= 16
    modifies x.digests, x.scratch, x.bufs
    ensures x.Valid() && |sends| == |seeds|
    ensures forall i | 0 <= i < |seeds| :: sends[i] == Delivery(i, RiskHash(seeds[i]))
  {
    hide RiskHash, X16Chains.Shape;
    sends := [];
    if k.x16 && |seeds| >= k.minBatch {
      var outs, _ := X16ChainRun(x, seeds, mask);
      for i := 0 to |seeds|
        invariant |sends| == i && forall j | 0 <= j < i :: sends[j] == Delivery(j, RiskHash(seeds[j]))
      {
        sends := sends + [Delivery(i, outs[i])];
      }
      return;
    }
    if k.quad && |seeds| == 4 {
      var h0, h1, h2, h3, _ := RiskChainQuad(core, seeds[0], seeds[1], seeds[2], seeds[3], mask);
      return [Delivery(0, h0), Delivery(1, h1), Delivery(2, h2), Delivery(3, h3)];
    }
    var next := 0;
    while |seeds| - next >= 2 && k.pair
      invariant x.Valid() && next == |sends| <= |seeds|
      invariant forall j | 0 <= j < next :: sends[j] == Delivery(j, RiskHash(seeds[j]))
    {
      var ha, hb, _ := RiskChainPair(core, seeds[next], seeds[next + 1], two, mask);
      sends := sends + [Delivery(next, ha), Delivery(next + 1, hb)];
      next := next + 2;
    }
    while next < |seeds|
      invariant x.Valid() && next == |sends| <= |seeds|
      invariant forall j | 0 <= j < next :: sends[j] == Delivery(j, RiskHash(seeds[j]))
    {
      var h, _ := RiskChain(core, seeds[next], one, mask);
      sends := sends + [Delivery(next, h)];
      next := next + 1;
    }
  }

  // ---------------------------------------------------------------------------------
  // The deliveries of the gate
  // ---------------------------------------------------------------------------------

  /** The seeds of a batch. */
  function Seeds(s: Gate.State, b: seq<nat>): seq<seq<Byte>>
    requires forall i | 0 <= i < |b| :: b[i] < |s.subs|
  {
    seq(|b|, i requires 0 <= i < |b| => s.subs[b[i]].seed)
  }

  /** A worker about to hash can: its waiters exist, and there are one to sixteen of them. */
  lemma BatchReady(s: Gate.State, j: nat)
    requires Inv(s) && j < |s.workers| && s.workers[j].Running?
    ensures var b := s.workers[j].batch;
      1 <= |b| <= 16 && (forall i | 0 <= i < |b| :: b[i] < |s.subs|) && Gate.Ready(s, Gate.Deliver(j))
  {
    hide SubsOk, Accounts, BudgetOk, MutexOk, FrontOk, StackOk, TakeOk, VerdictsOk, WakeupOk, IdleOk, RiskHash;
    assert ShapeOk(s.workers[j]) && BatchOk(s.subs, j, Batch(s.workers[j]));
    var i := s.workers[j].batch[0];
    assert i == Batch(s.workers[j])[0] && Owed(s.subs[i]);
    OwedIsEmpty(s, i);
  }

  lemma OwedIsEmpty(s: Gate.State, i: nat)
    requires SubsOk(s) && i < |s.subs| && Owed(s.subs[i])
    ensures s.subs[i].w.chan == []
  {
    hide RiskHash, FateOk, PhaseOk, Charge;
    assert SubOk(s.subs[i]);
  }

  /** Sending the right digest is the gate's delivery step, which leaves the rest of the batch
      to be delivered and every seed as it was. */
  lemma SendIsDeliver(s: Gate.State, j: nat, h: seq<Byte>)
    requires Inv(s) && j < |s.workers| && s.workers[j].Running?
    requires Gate.Ready(s, Gate.Deliver(j)) && h == RiskHash(s.subs[s.workers[j].batch[0]].seed)
    ensures var (t, b) := (Gate.SendDigest(s, j, h), s.workers[j].batch);
      && t == Gate.Apply(s, Gate.Deliver(j)) && Inv(t)
      && j < |t.workers| && t.workers[j] == (if |b| == 1 then Gate.Top else Gate.Running(b[1..]))
      && |t.subs| == |s.subs| && forall i | 0 <= i < |s.subs| :: t.subs[i].seed == s.subs[i].seed
  {
    hide RiskHash, Inv;
    KeepInv(s, Gate.Deliver(j));
  }

  /** n deliveries of worker j. */
  function Deliveries(j: nat, n: nat): (es: seq<Gate.Event>)
    ensures |es| == n
  {
    if n == 0 then [] else Deliveries(j, n - 1) + [Gate.Deliver(j)]
  }

  /** What riskWorker does with a batch it took, with the digests its kernels compute, is what
      the gate's worker does with its delivery steps: so an answered request carries the chain
      of its own seed because the drivers compute it. */
  method ServeBatch(core: Core, x: X16Chains, s: Gate.State, j: nat, one: Slots, two: Slots, mask: Word)
    returns (t: Gate.State)
    requires x.Valid() && Inv(s) && j < |s.workers| && s.workers[j].Running?
    modifies x.digests, x.scratch, x.bufs
    ensures x.Valid() && Inv(t) && j < |t.workers| && t.workers[j].Top?
    ensures Leads(s, Deliveries(j, |s.workers[j].batch|), t)
  {
    hide Inv, RiskHash, Leads, Gate.SendDigest, Gate.Apply, Gate.Ready, X16Chains.Shape;
    BatchReady(s, j);
    var b := s.workers[j].batch;
    var seeds := Seeds(s, b);
    var sends := RunBatch(core, x, seeds, s.conf.kernels, one, two, mask);
    t := s;
    LeadsNowhere(s);
    for i := 0 to |b|
      invariant x.Valid() && Inv(t) && Leads(s, Deliveries(j, i), t)
      invariant |t.subs| == |s.subs| && forall k | 0 <= k < |s.subs| :: t.subs[k].seed == s.subs[k].seed
      invariant j < |t.workers| && t.workers[j] == (if i == |b| then Gate.Top else Gate.Running(b[i..]))
    {
      BatchReady(t, j);
      assert b[i..][0] == b[i] && b[i..][1..] == b[i + 1..];
      assert sends[i] == Delivery(i, RiskHash(seeds[i]));
      SendIsDeliver(t, j, sends[i].h);
      LeadsOneMore(s, Deliveries(j, i), t, Gate.Deliver(j));
      t := Gate.SendDigest(t, j, sends[i].h);
    }
  }
}
