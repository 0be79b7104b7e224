/** What the invariant of GateInv means for every run of the /risk gate. */
module GateSafety {
  import opened Budget
  import opened Sha256
  import opened Gate
  import opened GateInv

  // ---------------------------------------------------------------------------------
  // Exactly-once accounting
  // ---------------------------------------------------------------------------------

  /** In every state of every run: a request that returned false has charged respErr exactly
      once, net; one that returned true has charged nothing, net, and its answer is the
      50,000-fold hash of its own seed. */
  lemma ExactlyOnce(ss: seq<State>, es: seq<Event>, k: nat, i: nat)
    requires IsRun(ss, es) && k < |ss| && i < |ss[k].subs|
    ensures var u := ss[k].subs[i];
      && (u.pc.Shed? ==> u.net == 1)
      && (u.pc.Got? || u.pc.Answered? ==> u.net == 0 && u.pc.hash == RiskHash(u.seed))
  {
    hide IsRun, RiskHash, FateOk, PhaseOk, Accounts, BudgetOk, MutexOk, FrontOk, StackOk, BatchesOk, WakeupOk, IdleOk;
    Reachable(ss, es, k);
    assert SubOk(ss[k].subs[i]);
  }

  function Sheds(subs: seq<Sub>): nat {
    if subs == [] then 0 else Sheds(subs[..|subs| - 1]) + if subs[|subs| - 1].pc.Shed? then 1 else 0
  }

  predicate Finished(u: Sub) {
    u.pc.Shed? || u.pc.Answered?
  }

  lemma {:induction false} FinishedSums(subs: seq<Sub>)
    requires forall i | 0 <= i < |subs| :: Finished(subs[i]) && subs[i].net == Charge(subs[i].pc)
    ensures NetSum(subs) == Sheds(subs) && Sheds(subs) + Answers(subs) == |subs|
  {
    if subs != [] {
      FinishedSums(subs[..|subs| - 1]);
    }
  }

  /** When every request has finished, the counters add up: one count for each completed
      request, and one more for each stale waiter a worker skipped. */
  lemma Quiescent(ss: seq<State>, es: seq<Event>, k: nat)
    requires IsRun(ss, es) && k < |ss| && forall i | 0 <= i < |ss[k].subs| :: Finished(ss[k].subs[i])
    ensures var (s, c) := (ss[k], ss[k].ctr);
      && c.respOK + c.respErr == |s.subs| + c.plainOK + c.plainErr + c.staleSkips
      && c.respErr == Sheds(s.subs) + c.plainErr + c.staleSkips
  {
    hide IsRun, BudgetOk, MutexOk, FrontOk, StackOk, BatchesOk, WakeupOk, IdleOk;
    Reachable(ss, es, k);
    var s := ss[k];
    forall i | 0 <= i < |s.subs| ensures s.subs[i].net == Charge(s.subs[i].pc) {
      assert SubOk(s.subs[i]);
    }
    FinishedSums(s.subs);
  }

  // ---------------------------------------------------------------------------------
  // The error budget
  // ---------------------------------------------------------------------------------

  /** No interleaving overshoots: what was charged against the budget stays within its share
      of all responses, and the budget is at most 95% of the declared gate. */
  lemma BudgetHolds(ss: seq<State>, es: seq<Event>, k: nat)
    requires IsRun(ss, es) && k < |ss|
    ensures var (c, bp) := (ss[k].ctr, ss[k].conf.Bp());
      && (c.respErr - c.unbudgeted) * 10000 <= (c.respOK + c.respErr) * bp
      && 0 <= bp && 100 * bp <= 95 * ErrorGate(ss[k].conf.gateEnv)
  {
    hide IsRun, SubsOk, Accounts, MutexOk, FrontOk, StackOk, BatchesOk, WakeupOk, IdleOk, Affordable, ErrorGate, DeriveBudget;
    Reachable(ss, es, k);
    BudgetBelowGate(ss[k].conf.gateEnv, ss[k].conf.budgetEnv);
  }

  /** Right after a reservation all errors together, unbudgeted ones included, are within
      the budget, and at least 500 responses had been counted. */
  lemma ReservationFits(ss: seq<State>, es: seq<Event>, k: nat)
    requires IsRun(ss, es) && k < |es| && es[k].TryCas?
    requires ss[k + 1].ctr.respErr == ss[k].ctr.respErr + 1
    ensures var c := ss[k + 1].ctr;
            c.respErr * 10000 <= (c.respOK + c.respErr) * ss[k].conf.Bp() && c.respOK + c.respErr > 500
  {
    hide IsRun, SubsOk, Accounts, MutexOk, FrontOk, StackOk, BatchesOk, WakeupOk, IdleOk, DeriveBudget;
    RunStep(ss, es, k);
    Reachable(ss, es, k);
    var (s, i) := (ss[k], es[k].i);
    assert Reserving(s, s.subs[i].pc);
    BudgetBelowGate(s.conf.gateEnv, s.conf.budgetEnv);
    Reserve(s.subs[i].pc.ok, s.ctr.respOK, s.ctr.respErr, 0, s.conf.Bp());
  }

  lemma RunStep(ss: seq<State>, es: seq<Event>, k: nat)
    requires IsRun(ss, es) && k < |es|
    ensures k + 1 < |ss| && Ready(ss[k], es[k]) && ss[k + 1] == Apply(ss[k], es[k])
  {
  }

  /** All errors together, unbudgeted ones included, are within the budget. */
  predicate BareShare(c: Counters, bp: int) {
    Within(c.respErr, c.respOK + c.respErr, bp)
  }

  /** The steps that charge an error no budget check precedes. */
  predicate FreeCharge(s: State, e: Event)
    requires Ready(s, e)
  {
    || e.PlainErr? || e.ChargeBackstop? || e.ChargeDisconnect?
    || (e.Pop? && var (u, w) := (s.subs[s.stack[0]], s.workers[e.j]);
         !u.w.abandoned && !u.cancelled && w.now - u.w.enqueued > w.stale)
  }

  /** There is room in the budget for one error more. */
  predicate Room(c: Counters, bp: int) {
    Within(c.respErr + 1, c.respOK + c.respErr + 1, bp)
  }

  lemma FreeChargeCounts(s: State, e: Event)
    requires Ready(s, e) && FreeCharge(s, e)
    ensures var c := Apply(s, e).ctr; c.respErr == s.ctr.respErr + 1 && c.respOK == s.ctr.respOK
  {
    hide RiskHash, Lanes, Affordable;
  }

  /** The ways the counters move without a free charge. */
  predicate PaidMove(c: Counters, c': Counters) {
    || (c'.respOK == c.respOK && c'.respErr == c.respErr)
    || (c'.respOK == c.respOK + 1 && c'.respErr == c.respErr)
    || (c'.respOK == c.respOK && c'.respErr == c.respErr - 1)
  }

  lemma PaidSub(s: State, e: Event)
    requires Ready(s, e) && BySubmitter(e) && !FreeCharge(s, e)
    ensures var c := SubStep(s, e).ctr;
      || PaidMove(s.ctr, c)
      || (e.TryCas? && c.respOK == s.ctr.respOK && c.respErr == s.ctr.respErr + 1 && s.subs[e.i].pc.Cas?
          && s.ctr.respErr == s.subs[e.i].pc.err)
  {
    hide Affordable;
  }

  lemma PaidOther(s: State, e: Event)
    requires Ready(s, e) && !BySubmitter(e) && !FreeCharge(s, e)
    ensures PaidMove(s.ctr, Apply(s, e).ctr)
  {
    hide RiskHash, Lanes, Affordable;
    if ByWorkers(e) && !e.Pop? && !e.Deliver? {
      WorkerFrame(s, e);
    }
  }

  lemma PaidKeeps(c: Counters, c': Counters, bp: int)
    requires 0 <= bp <= 950 && BareShare(c, bp) && PaidMove(c, c')
    ensures BareShare(c', bp)
  {
    Budget.Release(c.respErr, c.respOK + c.respErr, bp);
    Grow(c.respOK + c.respErr, c.respOK + c.respErr + 1, bp);
  }

  /** No step but a free charge can take the bare share past the budget. */
  lemma BareKept(s: State, e: Event)
    requires Inv(s) && Ready(s, e) && BareShare(s.ctr, s.conf.Bp())
    requires FreeCharge(s, e) ==> Room(s.ctr, s.conf.Bp())
    ensures BareShare(Apply(s, e).ctr, s.conf.Bp())
  {
    hide SubsOk, Accounts, MutexOk, FrontOk, StackOk, TakeOk, BatchesOk, WakeupOk, IdleOk, SubStep, WorkerStep, WorldStep,
         Affordable, Within, PaidMove, FreeCharge, DeriveBudget;
    BudgetBelowGate(s.conf.gateEnv, s.conf.budgetEnv);
    if FreeCharge(s, e) {
      FreeChargeCounts(s, e);
    } else if !BySubmitter(e) {
      PaidOther(s, e);
      PaidKeeps(s.ctr, Apply(s, e).ctr, s.conf.Bp());
    } else {
      PaidSub(s, e);
      if PaidMove(s.ctr, Apply(s, e).ctr) {
        PaidKeeps(s.ctr, Apply(s, e).ctr, s.conf.Bp());
      } else {
        assert Reserving(s, s.subs[e.i].pc);
        Reserve(s.subs[e.i].pc.ok, s.ctr.respOK, s.ctr.respErr, 0, s.conf.Bp());
      }
    }
  }

  lemma ConfKept(s: State, e: Event)
    requires Ready(s, e)
    ensures Apply(s, e).conf == s.conf
  {
    hide SubStep, WorkerStep, RiskHash;
    if BySubmitter(e) {
      SubFrame(s, e);
    } else if ByWorkers(e) {
      WorkerFrame(s, e);
    }
  }

  /** Every free charge of the run finds room. */
  ghost predicate RoomForAll(ss: seq<State>, es: seq<Event>)
    requires IsRun(ss, es)
  {
    forall k | 0 <= k < |es| :: FreeCharge(ss[k], es[k]) ==> Room(ss[k].ctr, ss[k].conf.Bp())
  }

  ghost predicate BareHolds(ss: seq<State>) {
    forall k | 0 <= k < |ss| :: BareShare(ss[k].ctr, ss[k].conf.Bp())
  }

  lemma {:induction false} BareUpTo(ss: seq<State>, es: seq<Event>, k: nat)
    requires IsRun(ss, es) && k < |ss| && RoomForAll(ss, es)
    ensures BareShare(ss[k].ctr, ss[k].conf.Bp())
  {
    hide Inv, Apply, Ready, FreeCharge, Room;
    if k == 0 {
      NothingCharged(ss[0]);
    } else {
      BareUpTo(ss, es, k - 1);
      Reachable(ss, es, k - 1);
      RunStep(ss, es, k - 1);
      BareKept(ss[k - 1], es[k - 1]);
      ConfKept(ss[k - 1], es[k - 1]);
    }
  }

  lemma NothingCharged(s: State)
    requires Init(s)
    ensures BareShare(s.ctr, s.conf.Bp())
  {
  }

  /** Exactly when the errors of a run stay within the budget without subtracting anything:
      if and only if every charge that no budget check precedes finds room for one more error
      when it is made. */
  lemma BareShareIff(ss: seq<State>, es: seq<Event>)
    requires IsRun(ss, es)
    ensures BareHolds(ss) <==> RoomForAll(ss, es)
  {
    hide Apply, Ready, FreeCharge, Within, Init;
    if RoomForAll(ss, es) {
      forall k | 0 <= k < |ss| ensures BareShare(ss[k].ctr, ss[k].conf.Bp()) {
        BareUpTo(ss, es, k);
      }
    }
    if BareHolds(ss) {
      forall k | 0 <= k < |es| && FreeCharge(ss[k], es[k]) ensures Room(ss[k].ctr, ss[k].conf.Bp()) {
        RunStep(ss, es, k);
        FreeChargeCounts(ss[k], es[k]);
        ConfKept(ss[k], es[k]);
        assert BareShare(ss[k + 1].ctr, ss[k + 1].conf.Bp());
      }
    }
  }

  /** An instance: one plain error at the start finds no room under any budget. */
  lemma BareShareOvershoots(s: State)
    requires Init(s)
    ensures IsRun([s, Apply(s, PlainErr)], [PlainErr])
    ensures !Room(s.ctr, s.conf.Bp()) && !BareShare(Apply(s, PlainErr).ctr, s.conf.Bp())
    ensures var c := Apply(s, PlainErr).ctr; c.respErr * 10000 > (c.respOK + c.respErr) * s.conf.Bp()
  {
    BudgetBelowGate(s.conf.gateEnv, s.conf.budgetEnv);
    hide DeriveBudget;
  }

  /** Sheds on arrival happen only under overload: a request that reserves an error at the
      front door finds waiters parked and no worker idle, still so when it leaves. */
  lemma FrontDoorOnlyOverloaded(ss: seq<State>, es: seq<Event>, k: nat, i: nat)
    requires IsRun(ss, es) && k < |ss| && i < |ss[k].subs| && AtFront(ss[k].subs[i].pc)
    ensures ss[k].stack != [] && forall j | 0 <= j < |ss[k].workers| :: !CountsIdle(ss[k].workers[j])
  {
    hide IsRun, SubsOk, Accounts, BudgetOk, MutexOk, BatchesOk, WakeupOk, AtFront;
    Reachable(ss, es, k);
    IdleZero(ss[k].workers);
  }

  // ---------------------------------------------------------------------------------
  // No lost wake-up
  // ---------------------------------------------------------------------------------

  /** While a waiter is parked, a wake token is buffered, or a submitter is between its push
      and its send, or a worker will look at the stack before it blocks; in particular a
      waiter is never stranded behind workers that all sleep. */
  lemma NoLostWakeup(ss: seq<State>, es: seq<Event>, k: nat)
    requires IsRun(ss, es) && k < |ss|
    ensures ss[k].stack != [] ==> SomeoneWillLook(ss[k])
    ensures ss[k].stack != [] && (forall j | 0 <= j < |ss[k].workers| :: ss[k].workers[j].Parked?)
            && (forall i | 0 <= i < |ss[k].subs| :: !ss[k].subs[i].pc.Send?)
            ==> forall j | 0 <= j < |ss[k].workers| :: Ready(ss[k], Wake(j))
  {
    hide IsRun, SubsOk, Accounts, BudgetOk, MutexOk, FrontOk, StackOk, BatchesOk, IdleOk;
    Reachable(ss, es, k);
  }

  /** riskIdleWorkers counts exactly the workers parked or just woken. */
  lemma IdleIsExact(ss: seq<State>, es: seq<Event>, k: nat)
    requires IsRun(ss, es) && k < |ss|
    ensures ss[k].idle == IdleCount(ss[k].workers)
    ensures ss[k].idle == 0 <==> forall j | 0 <= j < |ss[k].workers| :: !CountsIdle(ss[k].workers[j])
  {
    hide IsRun, SubsOk, Accounts, BudgetOk, MutexOk, FrontOk, StackOk, BatchesOk, WakeupOk;
    Reachable(ss, es, k);
    IdleZero(ss[k].workers);
  }

  lemma {:induction false} IdleZero(ws: seq<Worker>)
    ensures IdleCount(ws) == 0 <==> forall j | 0 <= j < |ws| :: !CountsIdle(ws[j])
  {
    hide CountsIdle;
    if ws != [] {
      var n := |ws| - 1;
      IdleZero(ws[..n]);
      assert forall j | 0 <= j < n :: ws[..n][j] == ws[j];
    }
  }

  // ---------------------------------------------------------------------------------
  // Ownership and delivery
  // ---------------------------------------------------------------------------------

  /** A waiter is never both taken and abandoned, receives at most one delivery, and sits in
      at most one place: the stack, or one position of one worker's batch. */
  lemma OneOwner(ss: seq<State>, es: seq<Event>, k: nat, i: nat)
    requires IsRun(ss, es) && k < |ss| && i < |ss[k].subs|
    ensures var (s, w) := (ss[k], ss[k].subs[i].w);
      && !(w.taken && w.abandoned) && w.sends <= 1 && |w.chan| <= 1
      && (w.pushed ==> i in s.stack || w.taken || w.skipped)
      && (i in s.stack ==> !w.taken && !w.skipped)
      && (w.taken && w.sends == 0 ==> w.owner < |s.workers| && i in Batch(s.workers[w.owner]))
      && (forall j | 0 <= j < |s.workers| && i in Batch(s.workers[j]) :: w.taken && w.sends == 0 && w.owner == j)
  {
    hide IsRun, Accounts, BudgetOk, MutexOk, FrontOk, WakeupOk, IdleOk, RiskHash, Charge, PhaseOk;
    Reachable(ss, es, k);
    var s := ss[k];
    assert SubOk(s.subs[i]);
    forall j | 0 <= j < |s.workers| && i in Batch(s.workers[j]) ensures Owed(s.subs[i]) && s.subs[i].w.owner == j {
      assert BatchOk(s.subs, j, Batch(s.workers[j]));
    }
  }

  /** No send ever blocks: a worker with digests to deliver can always deliver the next. */
  lemma SendNeverBlocks(ss: seq<State>, es: seq<Event>, k: nat, j: nat)
    requires IsRun(ss, es) && k < |ss| && j < |ss[k].workers| && ss[k].workers[j].Running?
    ensures Ready(ss[k], Deliver(j))
  {
    hide IsRun, Accounts, BudgetOk, MutexOk, FrontOk, StackOk, WakeupOk, IdleOk, RiskHash, Charge, PhaseOk, FateOk;
    Reachable(ss, es, k);
    var s := ss[k];
    assert ShapeOk(s.workers[j]) && BatchOk(s.subs, j, Batch(s.workers[j]));
    var i := s.workers[j].batch[0];
    assert i == Batch(s.workers[j])[0] && Owed(s.subs[i]) && SubOk(s.subs[i]);
  }

  /** A submitter blocked on its channel is never forgotten: the digest has arrived, or it is
      still owed by the worker that took the waiter. */
  lemma ReceiveIsServed(ss: seq<State>, es: seq<Event>, k: nat, i: nat)
    requires IsRun(ss, es) && k < |ss| && i < |ss[k].subs| && ss[k].subs[i].pc.Recv?
    ensures var (s, u) := (ss[k], ss[k].subs[i]);
      || (u.w.chan == [RiskHash(u.seed)] && Ready(s, ReceiveDigest(i)))
      || (u.w.owner < |s.workers| && i in Batch(s.workers[u.w.owner]))
  {
    hide IsRun, Accounts, BudgetOk, MutexOk, FrontOk, StackOk, WakeupOk, IdleOk, RiskHash, Charge, FateOk;
    Reachable(ss, es, k);
    assert SubOk(ss[k].subs[i]);
  }

  /** A worker about to hash holds between one and sixteen waiters, all different. */
  lemma BatchFits(ss: seq<State>, es: seq<Event>, k: nat, j: nat)
    requires IsRun(ss, es) && k < |ss| && j < |ss[k].workers| && ss[k].workers[j].Running?
    ensures var b := ss[k].workers[j].batch;
      1 <= |b| <= 16 && forall x, y | 0 <= x < y < |b| :: b[x] != b[y]
  {
    hide IsRun, SubsOk, Accounts, BudgetOk, MutexOk, FrontOk, StackOk, WakeupOk, IdleOk, Owed;
    Reachable(ss, es, k);
    var s := ss[k];
    assert ShapeOk(s.workers[j]) && BatchOk(s.subs, j, Batch(s.workers[j]));
  }

  /** When a take ends, in any interleaving: the stack is what is left of the stack it found
      behind a prefix, the batch is exactly the waiters of that prefix that were taken, newest
      first, and the prefix is no longer than needed: it holds want of them or is everything,
      and every shorter one holds fewer.  Each popped waiter got one verdict; the batch is those
      judged to be served, and the stale skips charged since the take began are those judged
      stale. */
  lemma TakeIsShortest(ss: seq<State>, es: seq<Event>, k: nat)
    requires IsRun(ss, es) && k < |es| && es[k].EndTake?
    ensures k < |ss| && es[k].j < |ss[k].workers| && ss[k].workers[es[k].j].Taking?
    ensures var (s, w) := (ss[k], ss[k].workers[es[k].j]);
      var n := |w.from| - |s.stack|;
      && 0 <= n && s.stack == w.from[n..]
      && w.batch == TakenAmong(s.subs, w.from[..n])
      && (|w.batch| == w.want || n == |w.from|)
      && (forall m | 0 <= m < n :: |TakenAmong(s.subs, w.from[..m])| < w.want)
      && |w.seen| == n && w.batch == Chosen(w.from[..n], w.seen)
      && s.ctr.staleSkips == w.skips + Stales(w.seen)
  {
    hide IsRun, SubsOk, Accounts, BudgetOk, MutexOk, FrontOk, StackOk, WakeupOk, IdleOk, TakenAmong, Chosen, Stales;
    RunStep(ss, es, k);
    Reachable(ss, es, k);
    var (s, j) := (ss[k], es[k].j);
    assert ShapeOk(s.workers[j]);
    assert TakePrefix(s.subs, s.stack, s.workers[j].want, s.workers[j].batch, s.workers[j].from);
    assert TakeVerdicts(s.stack, s.ctr.staleSkips, s.workers[j]);
  }

  /** Every other event leaves a take in progress as it is. */
  lemma TakeUntouched(s: State, e: Event, j: nat)
    requires Ready(s, e) && e != Pop(j) && j < |Apply(s, e).workers| && Apply(s, e).workers[j].Taking?
    ensures j < |s.workers|
    ensures e == StartTake(j) ==> Apply(s, e).workers[j].seen == []
    ensures e != StartTake(j) ==> s.workers[j] == Apply(s, e).workers[j]
  {
    hide SubStep, RiskHash, Lanes, Judge, Handed;
    if BySubmitter(e) {
      SubFrame(s, e);
    }
  }

  /** The m-th verdict of a take is the code's judgement of the m-th waiter of the stack it
      found, made when that waiter was popped: dead if it had left or its context was done by
      then, stale if it was older than the window at the start of the take. */
  lemma {:induction false} JudgedAtPop(ss: seq<State>, es: seq<Event>, k: nat, j: nat, m: nat) returns (p: nat)
    requires IsRun(ss, es) && k < |ss| && j < |ss[k].workers| && ss[k].workers[j].Taking? && m < |ss[k].workers[j].seen|
    ensures p < k && p < |es| && es[p] == Pop(j) && Ready(ss[p], Pop(j))
    ensures m < |ss[k].workers[j].from| && ss[p].stack[0] == ss[k].workers[j].from[m]
    ensures var (u, w) := (ss[p].subs[ss[p].stack[0]], ss[k].workers[j]);
      && (w.seen[m].Dead? <==> u.w.abandoned || u.cancelled)
      && (w.seen[m].Stale? <==> !u.w.abandoned && !u.cancelled && w.now - u.w.enqueued > w.stale)
      && (w.seen[m].Serve? <==> !u.w.abandoned && !u.cancelled && w.now - u.w.enqueued <= w.stale)
  {
    hide IsRun, Init, Apply, Judge, Ready, SubsOk, Accounts, BudgetOk, MutexOk, FrontOk, StackOk, BatchesOk, WakeupOk, IdleOk,
         TakenAmong, Chosen, Stales;
    if k == 0 {
      NoTakeYet(ss, es, j);
    } else {
      RunLength(ss, es);
      var (s, e) := (ss[k - 1], es[k - 1]);
      RunStep(ss, es, k - 1);
      Reachable(ss, es, k - 1);
      if e == Pop(j) {
        PopIsPop(s, e);
        PopWorker(s, e);
        ReadyTaker(s, j);
        var w := s.workers[j];
        assert TakeVerdicts(s.stack, s.ctr.staleSkips, w);
        assert TakePrefix(s.subs, s.stack, w.want, w.batch, w.from);
        if m == |w.seen| {
          p := k - 1;
          Judged(s.subs[s.stack[0]], w.now, w.stale);
        } else {
          p := JudgedAtPop(ss, es, k - 1, j, m);
        }
      } else {
        TakeUntouched(s, e, j);
        p := JudgedAtPop(ss, es, k - 1, j, m);
      }
    }
  }

  lemma Judged(u: Sub, now: int, stale: int)
    ensures var v := Judge(u, now, stale);
      && (v.Dead? <==> u.w.abandoned || u.cancelled)
      && (v.Stale? <==> !u.w.abandoned && !u.cancelled && now - u.w.enqueued > stale)
      && (v.Serve? <==> !u.w.abandoned && !u.cancelled && now - u.w.enqueued <= stale)
  {
  }

  lemma RunLength(ss: seq<State>, es: seq<Event>)
    requires IsRun(ss, es)
    ensures |ss| == |es| + 1
  {
  }

  lemma ReadyTaker(s: State, j: nat)
    requires Ready(s, Pop(j))
    ensures j < |s.workers| && s.workers[j].Taking? && s.stack != []
  {
  }

  lemma NoTakeYet(ss: seq<State>, es: seq<Event>, j: nat)
    requires IsRun(ss, es) && j < |ss[0].workers|
    ensures !ss[0].workers[j].Taking?
  {
  }

  // ---------------------------------------------------------------------------------
  // Stack and mutex
  // ---------------------------------------------------------------------------------

  /** The stack has the length the code counts, never more than 2048 waiters, all distinct,
      newest first. */
  lemma StackShape(ss: seq<State>, es: seq<Event>, k: nat)
    requires IsRun(ss, es) && k < |ss|
    ensures var s := ss[k];
      && s.depth == |s.stack| <= 2048
      && (forall x | 0 <= x < |s.stack| :: s.stack[x] < |s.subs|)
      && (forall x, y | 0 <= x < y < |s.stack| :: s.stack[x] != s.stack[y])
      && (forall x, y | 0 <= x < y < |s.stack| :: s.subs[s.stack[x]].w.enqueued >= s.subs[s.stack[y]].w.enqueued)
  {
    hide IsRun, SubsOk, Accounts, BudgetOk, MutexOk, FrontOk, BatchesOk, WakeupOk, IdleOk;
    Reachable(ss, es, k);
  }

  /** No waiter worth serving ever lies under a stale one, whatever the time and the window. */
  lemma NoneServedUnderStale(ss: seq<State>, es: seq<Event>, k: nat, x: nat, y: nat, now: int, window: int)
    requires IsRun(ss, es) && k < |ss| && x < y < |ss[k].stack|
    ensures ss[k].stack[x] < |ss[k].subs| && ss[k].stack[y] < |ss[k].subs|
    ensures now - ss[k].subs[ss[k].stack[x]].w.enqueued > window ==> !Judge(ss[k].subs[ss[k].stack[y]], now, window).Serve?
  {
    hide IsRun, SubsOk, Accounts, BudgetOk, MutexOk, FrontOk, BatchesOk, WakeupOk, IdleOk;
    StackShape(ss, es, k);
  }

  /** A step of a worker or a submitter other than its patience running out. */
  predicate Driven(e: Event) {
    ByWorkers(e) || (BySubmitter(e) && !e.PatienceFires?)
  }

  /** The mutex never wedges: its holder, a submitter at the front door or a worker in its
      take loop, always has a step of its own to do. */
  lemma HolderCanStep(ss: seq<State>, es: seq<Event>, k: nat)
    requires IsRun(ss, es) && k < |ss| && !ss[k].mu.Free?
    ensures exists e :: Driven(e) && Ready(ss[k], e) && match ss[k].mu
      case BySub(i) => BySubmitter(e) && e.i == i
      case ByWorker(j) => ByWorkers(e) && e.j == j
      case Free => false
  {
    hide IsRun, SubsOk, Accounts, BudgetOk, FrontOk, BatchesOk, WakeupOk, IdleOk;
    Reachable(ss, es, k);
    var s := ss[k];
    match s.mu
    case BySub(i) =>
      var e := match s.subs[i].pc
        case FrontShed => UnlockShed(i)
        case Push => PushWaiter(i)
        case LoadOk(_) => ReadOk(i)
        case LoadErr(_, _) => ReadErr(i)
        case _ => TryCas(i);
      assert Ready(s, e);
    case ByWorker(j) =>
      var e := if s.stack == [] || |s.workers[j].batch| >= s.workers[j].want then EndTake(j) else Pop(j);
      assert Ready(s, e);
  }

  // ---------------------------------------------------------------------------------
  // No deadlock
  // ---------------------------------------------------------------------------------

  /** No such step is possible. */
  ghost predicate Quiet(s: State) {
    forall e: Event | Driven(e) :: !Ready(s, e)
  }

  /** Finished, or parked with a waiter that a worker has skipped for good. */
  predicate AtRest(u: Sub) {
    u.pc.Shed? || u.pc.Answered? || (u.pc.Wait? && u.w.skipped && !u.cancelled)
  }

  lemma QuietIsUnlocked(ss: seq<State>, es: seq<Event>, k: nat)
    requires IsRun(ss, es) && k < |ss| && Quiet(ss[k])
    ensures ss[k].mu.Free?
  {
    hide IsRun, Ready, Driven;
    if !ss[k].mu.Free? {
      HolderCanStep(ss, es, k);
    }
  }

  /** Then every worker is parked, without a token to wake it. */
  lemma QuietIsParked(ss: seq<State>, es: seq<Event>, k: nat, j: nat)
    requires IsRun(ss, es) && k < |ss| && Quiet(ss[k]) && j < |ss[k].workers|
    ensures ss[k].workers[j].Parked? && ss[k].tokens == 0
  {
    hide IsRun;
    var s := ss[k];
    QuietIsUnlocked(ss, es, k);
    if s.workers[j].Running? {
      SendNeverBlocks(ss, es, k, j);
    }
    TakesHold(ss, es, k);
    var e := match s.workers[j]
      case Top => ChooseLanes(j)
      case Take(_) => StartTake(j)
      case Empty => Park(j)
      case Woken => Unpark(j)
      case Running(_) => Deliver(j)
      case _ => Wake(j);
    assert Driven(e) && !Ready(s, e);
  }

  lemma TakesHold(ss: seq<State>, es: seq<Event>, k: nat)
    requires IsRun(ss, es) && k < |ss|
    ensures ss[k].tokens >= 0
    ensures forall j | 0 <= j < |ss[k].workers| && ss[k].workers[j].Taking? :: ss[k].mu == ByWorker(j)
  {
    hide IsRun, SubsOk, Accounts, BudgetOk, FrontOk, StackOk, TakeOk, VerdictsOk, BatchesOk, WakeupOk, IdleOk;
    Reachable(ss, es, k);
  }

  /** And nobody is on the stack. */
  lemma QuietIsEmpty(ss: seq<State>, es: seq<Event>, k: nat)
    requires IsRun(ss, es) && k < |ss| && Quiet(ss[k]) && ss[k].workers != []
    ensures ss[k].stack == []
  {
    hide IsRun, Ready;
    var s := ss[k];
    forall j | 0 <= j < |s.workers| ensures s.workers[j].Parked? {
      QuietIsParked(ss, es, k, j);
    }
    forall i | 0 <= i < |s.subs| ensures !s.subs[i].pc.Send? {
      NoSender(s, i);
    }
    NoLostWakeup(ss, es, k);
    assert Driven(Wake(0));
  }

  lemma NoSender(s: State, i: nat)
    requires Quiet(s) && i < |s.subs|
    ensures !s.subs[i].pc.Send?
  {
    assert Driven(SendToken(i));
  }

  /** The gate never deadlocks: when there is a worker and no worker and no submitter can do
      anything except let its patience run out, every request is finished, or waits with a
      waiter some worker has skipped, and its patience can run out. */
  lemma NeverDeadlocked(ss: seq<State>, es: seq<Event>, k: nat, i: nat)
    requires IsRun(ss, es) && k < |ss| && i < |ss[k].subs| && ss[k].workers != [] && Quiet(ss[k])
    ensures AtRest(ss[k].subs[i])
    ensures ss[k].subs[i].pc.Wait? ==> Ready(ss[k], PatienceFires(i))
  {
    hide IsRun, Quiet, Ready, SubOk;
    var s := ss[k];
    QuietIsUnlocked(ss, es, k);
    QuietIsEmpty(ss, es, k);
    forall j | 0 <= j < |s.workers| ensures Batch(s.workers[j]) == [] {
      QuietIsParked(ss, es, k, j);
    }
    OneOwner(ss, es, k, i);
    SubHolds(ss, es, k, i);
    QuietSub(s, i);
    WaiterFate(s.subs[i]);
  }

  /** A submitter that cannot step has finished or waits for a digest that is not there. */
  lemma QuietSub(s: State, i: nat)
    requires Quiet(s) && i < |s.subs| && s.mu.Free?
    ensures var u := s.subs[i];
      || u.pc.Shed? || u.pc.Answered? || (u.pc.Recv? && u.w.chan == [])
      || (u.pc.Wait? && u.w.chan == [] && !u.cancelled && Ready(s, PatienceFires(i)))
  {
    var e := match s.subs[i].pc
      case Enter => EnterGate(i)
      case Backstop => ChargeBackstop(i)
      case LoadOk(_) => ReadOk(i)
      case LoadErr(_, _) => ReadErr(i)
      case Cas(_, _, _) => TryCas(i)
      case FrontShed => UnlockShed(i)
      case Push => PushWaiter(i)
      case Send => SendToken(i)
      case Leave(_) => LeaveGate(i)
      case Release => GiveBack(i)
      case Disconnect => ChargeDisconnect(i)
      case Got(_) => Respond(i)
      case _ => if s.subs[i].cancelled && s.subs[i].w.chan == [] then SeeCancel(i) else ReceiveDigest(i);
    assert Driven(e) && !Ready(s, e);
  }

  /** What waits was pushed; what was taken has its digest, or is owed it. */
  lemma WaiterFate(u: Sub)
    requires SubOk(u)
    ensures u.pc.Wait? ==> u.w.pushed
    ensures u.pc.Recv? ==> u.w.taken
    ensures u.w.taken && u.w.sends == 1 && !Done(u.pc) ==> u.w.chan != []
  {
    hide RiskHash;
  }

  lemma SubHolds(ss: seq<State>, es: seq<Event>, k: nat, i: nat)
    requires IsRun(ss, es) && k < |ss| && i < |ss[k].subs|
    ensures SubOk(ss[k].subs[i])
  {
    hide IsRun, SubOk, Accounts, BudgetOk, MutexOk, FrontOk, StackOk, TakeOk, VerdictsOk, BatchesOk, WakeupOk, IdleOk;
    Reachable(ss, es, k);
  }

  // ---------------------------------------------------------------------------------
  // The model moves
  // ---------------------------------------------------------------------------------

  /** The events es can happen in s one after the other and lead to t. */
  ghost predicate Leads(s: State, es: seq<Event>, t: State)
    decreases |es|
  {
    if es == [] then s == t else Ready(s, es[0]) && Leads(Apply(s, es[0]), es[1..], t)
  }

  lemma {:induction false} LeadsOn(s: State, a: seq<Event>, t: State, b: seq<Event>, u: State)
    requires Leads(s, a, t) && Leads(t, b, u)
    ensures Leads(s, a + b, u)
    decreases |a|
  {
    hide Ready, Apply;
    if a == [] {
      assert a + b == b;
    } else {
      assert (a + b)[0] == a[0] && (a + b)[1..] == a[1..] + b;
      LeadsOn(Apply(s, a[0]), a[1..], t, b, u);
    }
  }

  lemma LeadsNowhere(s: State)
    ensures Leads(s, [], s)
  {
  }

  lemma LeadsOneMore(s: State, es: seq<Event>, t: State, e: Event)
    requires Leads(s, es, t) && Ready(t, e)
    ensures Leads(s, es + [e], Apply(t, e))
  {
    hide Ready, Apply;
    var one := [e];
    assert one[1..] == [];
    assert Leads(t, one, Apply(t, e));
    LeadsOn(s, es, t, one, Apply(t, e));
  }

  lemma Chain3(s: State, a: Event, b: Event, c: Event)
    requires Ready(s, a) && Ready(Apply(s, a), b) && Ready(Apply(Apply(s, a), b), c)
    ensures Leads(s, [a, b, c], Apply(Apply(Apply(s, a), b), c))
  {
    hide Ready, Apply;
    var t := Apply(Apply(Apply(s, a), b), c);
    var es := [a, b, c];
    assert es[1..] == [b, c] && [b, c][1..] == [c];
    var one := [c];
    assert one[1..] == [];
    assert Leads(Apply(Apply(s, a), b), one, t);
  }

  lemma Chain4(s: State, a: Event, b: Event, c: Event, d: Event)
    requires Ready(s, a) && Ready(Apply(s, a), b) && Ready(Apply(Apply(s, a), b), c) && Ready(Apply(Apply(Apply(s, a), b), c), d)
    ensures Leads(s, [a, b, c, d], Apply(Apply(Apply(Apply(s, a), b), c), d))
  {
    hide Ready, Apply;
    Chain3(Apply(s, a), b, c, d);
    var es := [a, b, c, d];
    assert es[1..] == [b, c, d];
  }

  predicate ParkedOnly(s: State, seed: Text) {
    && |s.subs| == 1 && |s.workers| > 0 && s.workers[0].Top? && s.mu.Free? && s.stack == [0] && s.depth == 1
    && !s.conf.kernels.x16
    && s.subs[0].pc.Wait? && !s.subs[0].cancelled && s.subs[0].seed == seed
    && s.subs[0].w == Waiter(s.clock, false, false, [], true, false, 0, 0) && s.patience >= 0
  }

  lemma EnterRun(s: State, seed: Text) returns (s': State)
    requires Init(s)
    ensures Ready(s, Arrive(seed)) && Ready(Apply(s, Arrive(seed)), EnterGate(0))
    ensures s' == Apply(Apply(s, Arrive(seed)), EnterGate(0))
    ensures s' == s.(subs := [NewSub(seed).(pc := Push)], mu := BySub(0))
  {
    hide WorkerStep;
    var s1 := Apply(s, Arrive(seed));
    assert s1.subs == [NewSub(seed)];
    s' := Apply(s1, EnterGate(0));
    assert s'.subs == [NewSub(seed).(pc := Push)];
  }

  lemma ParkRun(s: State, seed: Text) returns (s': State)
    requires Init(s) && |s.workers| > 0 && !s.conf.kernels.x16 && s.patience >= 0
    ensures Leads(s, [Arrive(seed), EnterGate(0), PushWaiter(0), SendToken(0)], s') && ParkedOnly(s', seed)
  {
    hide WorkerStep, WorldStep, Leads, Affordable;
    var s2 := EnterRun(s, seed);
    var s3 := Apply(s2, PushWaiter(0));
    assert s3.stack == [0];
    s' := Apply(s3, SendToken(0));
    Chain4(s, Arrive(seed), EnterGate(0), PushWaiter(0), SendToken(0));
  }

  lemma TakeRun(s: State, seed: Text) returns (s': State)
    requires ParkedOnly(s, seed)
    ensures Leads(s, [ChooseLanes(0), StartTake(0), Pop(0), EndTake(0)], s')
    ensures |s'.subs| == 1 && |s'.workers| > 0 && s'.workers[0] == Running([0])
    ensures s'.subs[0].pc.Wait? && s'.subs[0].seed == seed && s'.subs[0].w.chan == []
  {
    hide RiskHash, Affordable, DeriveBudget, SubStep;
    var s1 := Apply(s, ChooseLanes(0));
    var s2 := Apply(s1, StartTake(0));
    assert s2.workers[0] == Taking(s1.workers[0].want, [], s.clock, s.patience, [0], [], s.ctr.staleSkips);
    var s3 := Apply(s2, Pop(0));
    assert s3.workers[0].batch == [0] && s3.stack == [];
    s' := Apply(s3, EndTake(0));
    Chain4(s, ChooseLanes(0), StartTake(0), Pop(0), EndTake(0));
  }

  lemma DeliverRun(s: State, seed: Text) returns (s': State)
    requires |s.subs| == 1 && |s.workers| > 0 && s.workers[0] == Running([0])
    requires s.subs[0].pc.Wait? && s.subs[0].seed == seed && s.subs[0].w.chan == []
    ensures Ready(s, Deliver(0)) && s' == Apply(s, Deliver(0))
    ensures |s'.subs| == 1 && s'.subs[0].pc.Wait? && s'.subs[0].w.chan == [RiskHash(seed)]
  {
    hide RiskHash, SubStep, WorldStep;
    s' := Apply(s, Deliver(0));
  }

  lemma AnswerRun(s: State, seed: Text) returns (s': State)
    requires |s.subs| == 1 && |s.workers| > 0 && s.workers[0] == Running([0])
    requires s.subs[0].pc.Wait? && s.subs[0].seed == seed && s.subs[0].w.chan == []
    ensures Leads(s, [Deliver(0), ReceiveDigest(0), Respond(0)], s')
    ensures |s'.subs| == 1 && s'.subs[0].pc == Answered(RiskHash(seed))
  {
    hide RiskHash, Affordable, WorkerStep, WorldStep, Leads;
    var s1 := DeliverRun(s, seed);
    var s2 := Apply(s1, ReceiveDigest(0));
    assert s2.subs[0].pc == Got(RiskHash(seed));
    s' := Apply(s2, Respond(0));
    Chain3(s, Deliver(0), ReceiveDigest(0), Respond(0));
  }

  /** From any initial state with a worker (and without the sixteen-lane kernel) a request
      that arrives can be parked, taken, hashed and answered with its own hash. */
  lemma ServedRun(s: State, seed: Text) returns (es: seq<Event>, s': State)
    requires Init(s) && |s.workers| > 0 && !s.conf.kernels.x16 && s.patience >= 0
    ensures Leads(s, es, s') && |s'.subs| == 1 && s'.subs[0].pc == Answered(RiskHash(seed))
  {
    hide RiskHash, Leads, Init, ParkedOnly;
    var t := ParkRun(s, seed);
    var u := TakeRun(t, seed);
    s' := AnswerRun(u, seed);
    LeadsOn(t, [ChooseLanes(0), StartTake(0), Pop(0), EndTake(0)], u, [Deliver(0), ReceiveDigest(0), Respond(0)], s');
    es := [Arrive(seed), EnterGate(0), PushWaiter(0), SendToken(0)]
          + ([ChooseLanes(0), StartTake(0), Pop(0), EndTake(0)] + [Deliver(0), ReceiveDigest(0), Respond(0)]);
    LeadsOn(s, [Arrive(seed), EnterGate(0), PushWaiter(0), SendToken(0)], t,
            [ChooseLanes(0), StartTake(0), Pop(0), EndTake(0)] + [Deliver(0), ReceiveDigest(0), Respond(0)], s');
  }
}
